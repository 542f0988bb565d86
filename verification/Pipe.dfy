/**
  The pipe buffer of libc/pipe_buffer.cc: the copying between its queue and scattered
  buffers, and its readers and writers as a state machine. What is done between taking the
  lock and giving it up, also while waiting, is one step.
 */
module Pipe {

  newtype Byte = x: int | 0 <= x < 256

  const MAX_BUF := 8192
  const PIPE_BUF := 4096

  // ---- copying ----

  // The bytes of an array of buffers, one after another.
  function Flat(iovs: seq<seq<Byte>>): seq<Byte> {
    if iovs == [] then [] else iovs[0] + Flat(iovs[1..])
  }

  function Least(a: nat, b: nat): nat { if a < b then a else b }

  // A place in an array of buffers.
  predicate At(iovs: seq<seq<Byte>>, i: nat, off: nat) {
    i <= |iovs| && (i < |iovs| ==> off <= |iovs[i]|)
  }

  // The bytes not yet copied: from buffer i, offset off, on.
  function Rest(iovs: seq<seq<Byte>>, i: nat, off: nat): seq<Byte>
    requires At(iovs, i, off)
    decreases |iovs| - i
  {
    if i == |iovs| then [] else iovs[i][off..] + Rest(iovs, i + 1, 0)
  }

  lemma {:induction false} RestFlat(iovs: seq<seq<Byte>>, i: nat)
    requires i <= |iovs|
    ensures Rest(iovs, i, 0) == Flat(iovs[i..])
    decreases |iovs| - i
  {
    if i < |iovs| {
      RestFlat(iovs, i + 1);
      assert iovs[i][0..] == iovs[i] && iovs[i..][1..] == iovs[i + 1..];
    }
  }

  lemma RestStart(iovs: seq<seq<Byte>>)
    ensures Rest(iovs, 0, 0) == Flat(iovs)
  {
    RestFlat(iovs, 0);
    assert iovs[0..] == iovs;
  }

  lemma RestNext(iovs: seq<seq<Byte>>, i: nat)
    requires i < |iovs|
    ensures Rest(iovs, i, |iovs[i]|) == Rest(iovs, i + 1, 0)
  {
    assert iovs[i][|iovs[i]|..] == [];
  }

  lemma RestTake(iovs: seq<seq<Byte>>, i: nat, off: nat, n: nat)
    requires i < |iovs| && off + n <= |iovs[i]|
    ensures Rest(iovs, i, off) == iovs[i][off..off + n] + Rest(iovs, i, off + n)
  {
    CutAt(iovs[i], off, n);
    Join(iovs[i][off..off + n], iovs[i][off + n..], Rest(iovs, i + 1, 0));
  }

  lemma CutAt(s: seq<Byte>, off: nat, n: nat)
    requires off + n <= |s|
    ensures s[off..] == s[off..off + n] + s[off + n..]
  {
  }

  lemma Join(a: seq<Byte>, b: seq<Byte>, c: seq<Byte>)
    ensures a + (b + c) == (a + b) + c
  {
  }

  // Where copying from a place stops, if there is room for so many bytes.
  function Stop(iovs: seq<seq<Byte>>, i: nat, off: nat, room: nat): (r: (nat, nat))
    requires At(iovs, i, off)
    ensures At(iovs, r.0, r.1)
    decreases |iovs| - i
  {
    if i == |iovs| || room == 0 then (i, off)
    else
      var n := Least(room, |iovs[i]| - off);
      if off + n == |iovs[i]| then Stop(iovs, i + 1, 0, room - n) else (i, off + n)
  }

  lemma DropBoth(a: seq<Byte>, b: seq<Byte>, room: nat)
    requires |a| <= room
    ensures (a + b)[Least(room, |a + b|)..] == b[Least(room - |a|, |b|)..]
  {
  }

  // The place after n more bytes of buffer i.
  function Next(iovs: seq<seq<Byte>>, i: nat, off: nat, n: nat): (nat, nat)
    requires i < |iovs| && off + n <= |iovs[i]|
  {
    if off + n == |iovs[i]| then (i + 1, 0) else (i, off + n)
  }

  lemma StopNext(iovs: seq<seq<Byte>>, i: nat, off: nat, room: nat)
    requires i < |iovs| && off <= |iovs[i]| && room > 0
    ensures var n := Least(room, |iovs[i]| - off);
            var to := Next(iovs, i, off, n);
            Stop(iovs, i, off, room) == Stop(iovs, to.0, to.1, room - n)
  {
  }

  lemma RestAt(iovs: seq<seq<Byte>>, i: nat, off: nat, n: nat)
    requires i < |iovs| && off + n <= |iovs[i]|
    ensures At(iovs, Next(iovs, i, off, n).0, Next(iovs, i, off, n).1)
    ensures Rest(iovs, i, off) == iovs[i][off..off + n] + Rest(iovs, Next(iovs, i, off, n).0, Next(iovs, i, off, n).1)
  {
    var to := Next(iovs, i, off, n);
    SameRest(iovs, i, off, n, to);
    RestTake(iovs, i, off, n);
  }

  lemma SameRest(iovs: seq<seq<Byte>>, i: nat, off: nat, n: nat, to: (nat, nat))
    requires i < |iovs| && off + n <= |iovs[i]| && to == Next(iovs, i, off, n)
    ensures At(iovs, to.0, to.1) && Rest(iovs, to.0, to.1) == Rest(iovs, i, off + n)
  {
    if off + n == |iovs[i]| {
      RestNext(iovs, i);
    }
  }

  /** What is not copied is the rest of the bytes. */
  lemma {:induction false} StopRest(iovs: seq<seq<Byte>>, i: nat, off: nat, room: nat, to: (nat, nat))
    requires At(iovs, i, off) && to == Stop(iovs, i, off, room)
    ensures Rest(iovs, to.0, to.1) == Rest(iovs, i, off)[Least(room, |Rest(iovs, i, off)|)..]
    decreases |iovs| - i
  {
    if i < |iovs| && room > 0 {
      var n := Least(room, |iovs[i]| - off);
      var next := Next(iovs, i, off, n);
      StopNext(iovs, i, off, room);
      RestAt(iovs, i, off, n);
      DropBoth(iovs[i][off..off + n], Rest(iovs, next.0, next.1), room);
      if next.0 > i {
        StopRest(iovs, next.0, next.1, room - n, to);
      }
    }
  }

  // One round: as much of the current buffer as fits.
  method CopyPart(iovs: seq<seq<Byte>>, i: nat, off: nat, q: seq<Byte>, size: nat)
    returns (i': nat, off': nat, q': seq<Byte>)
    requires i < |iovs| && off <= |iovs[i]| && |q| < size
    ensures At(iovs, i', off') && |q| <= |q'| <= size && q' + Rest(iovs, i', off') == q + Rest(iovs, i, off)
    ensures Stop(iovs, i', off', size - |q'|) == Stop(iovs, i, off, size - |q|)
    ensures i' == i + 1 || (i' == i && off < off')
  {
    var n := Least(size - |q|, |iovs[i]| - off);
    var part := iovs[i][off..off + n];
    q', off', i' := q + part, off + n, i;
    if off' == |iovs[i]| {
      i', off' := i + 1, 0;
    }
    StopNext(iovs, i, off, size - |q|);
    RestAt(iovs, i, off, n);
    Join(q, part, Rest(iovs, i', off'));
  }

  /** copy_from_uio(): from where it stopped before, as much as fits, in order, however the bytes are
      scattered; and where it stops now. */
  method CopyFromUio(iovs: seq<seq<Byte>>, ind: nat, offset: nat, buf: seq<Byte>, size: nat)
    returns (i: nat, off: nat, q: seq<Byte>)
    requires At(iovs, ind, offset) && |buf| <= size
    ensures At(iovs, i, off) && (i, off) == Stop(iovs, ind, offset, size - |buf|)
    ensures var rest := Rest(iovs, ind, offset); var n := Least(size - |buf|, |rest|);
            q == buf + rest[..n] && Rest(iovs, i, off) == rest[n..]
  {
    i, off, q := ind, offset, buf;
    ghost var all, to := buf + Rest(iovs, ind, offset), Stop(iovs, ind, offset, size - |buf|);
    while i < |iovs| && |q| < size
      invariant At(iovs, i, off) && |buf| <= |q| <= size
      invariant q + Rest(iovs, i, off) == all && Stop(iovs, i, off, size - |q|) == to
      decreases |iovs| - i, if i < |iovs| then |iovs[i]| - off else 0
    {
      i, off, q := CopyPart(iovs, i, off, q, size);
    }
    CopiedMost(buf, Rest(iovs, ind, offset), q, Rest(iovs, i, off), size);
  }

  // What was copied is a prefix, as long as fits.
  lemma CopiedMost(buf: seq<Byte>, rest: seq<Byte>, q: seq<Byte>, left: seq<Byte>, size: nat)
    requires q + left == buf + rest && |buf| <= |q| <= size && (left == [] || |q| == size)
    ensures var n := Least(size - |buf|, |rest|); q == buf + rest[..n] && left == rest[n..]
  {
    var all := buf + rest;
    assert q == all[..|q|] && left == all[|q|..];
  }

  // The bytes of q laid out in buffers of the given lengths, as far as they go.
  function Spread(q: seq<Byte>, lens: seq<nat>): seq<seq<Byte>> {
    if lens == [] || q == [] then []
    else
      var n := Least(|q|, lens[0]);
      [q[..n]] + Spread(q[n..], lens[1..])
  }

  function Sum(lens: seq<nat>): nat {
    if lens == [] then 0 else lens[0] + Sum(lens[1..])
  }

  /** They are the first ones, as many as the buffers hold. */
  lemma {:induction false} SpreadFlat(q: seq<Byte>, lens: seq<nat>)
    ensures Flat(Spread(q, lens)) == q[..Least(|q|, Sum(lens))] && |Spread(q, lens)| <= |lens|
    ensures forall i | 0 <= i < |Spread(q, lens)| :: |Spread(q, lens)[i]| <= lens[i]
    decreases |lens|
  {
    if lens != [] && q != [] {
      var n := Least(|q|, lens[0]);
      SpreadFlat(q[n..], lens[1..]);
      var m := Least(|q[n..]|, Sum(lens[1..]));
      assert q[..n] + q[n..][..m] == q[..n + m];
    }
  }

  lemma SpreadOne(q0: seq<Byte>, lens: seq<nat>, out: seq<seq<Byte>>, q: seq<Byte>, i: nat, n: nat)
    requires i < |lens| && q != [] && n == Least(|q|, lens[i])
    requires Flat(out) + q == q0 && out + Spread(q, lens[i..]) == Spread(q0, lens)
    ensures Flat(out + [q[..n]]) + q[n..] == q0
    ensures out + [q[..n]] + Spread(q[n..], lens[i + 1..]) == Spread(q0, lens)
  {
    FlatSnoc(out, q[..n]);
    assert q == q[..n] + q[n..];
    Join(Flat(out), q[..n], q[n..]);
    assert lens[i..][0] == lens[i] && lens[i..][1..] == lens[i + 1..];
    assert Spread(q, lens[i..]) == [q[..n]] + Spread(q[n..], lens[i + 1..]);
    JoinAny(out, [q[..n]], Spread(q[n..], lens[i + 1..]));
  }

  lemma JoinAny<T>(a: seq<T>, b: seq<T>, c: seq<T>)
    ensures a + (b + c) == (a + b) + c
  {
  }

  /** copy_to_uio(): the first bytes of the queue, as many as the buffers hold, in order. */
  method CopyToUio(q0: seq<Byte>, lens: seq<nat>) returns (q: seq<Byte>, out: seq<seq<Byte>>)
    ensures out == Spread(q0, lens) && Flat(out) + q == q0 && |Flat(out)| == Least(|q0|, Sum(lens))
  {
    q, out := q0, [];
    var i := 0;
    while i < |lens| && q != []
      invariant 0 <= i <= |lens| && Flat(out) + q == q0 && out + Spread(q, lens[i..]) == Spread(q0, lens)
    {
      var n := Least(|q|, lens[i]);
      SpreadOne(q0, lens, out, q, i, n);
      out, q := out + [q[..n]], q[n..];
      i := i + 1;
    }
    SpreadFlat(q0, lens);
  }

  lemma {:induction false} FlatSnoc(a: seq<seq<Byte>>, b: seq<Byte>)
    ensures Flat(a + [b]) == Flat(a) + b
  {
    if a == [] {
      assert a + [b] == [b];
    } else {
      assert (a + [b])[1..] == a[1..] + [b];
      FlatSnoc(a[1..], b);
      assert a[0] + (Flat(a[1..]) + b) == a[0] + Flat(a[1..]) + b;
    }
  }
}
