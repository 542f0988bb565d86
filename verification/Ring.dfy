/**
  The ring for one producer and one consumer, include/lockfree/ring.hh, that freed objects go
  through: free-running 32-bit counters over a buffer whose size divides their range.
 */
module Ring {
  import opened Arith
  import opened Wrap

  const W := 0x1_0000_0000

  /** The counter of the elements pushed has wrapped where that of the elements popped has not: popped
      so many elements, with n more in the ring. */
  ghost predicate Straddles(popped: nat, n: nat) {
    popped / W < (popped + n) / W
  }

  // Subtraction in 32 bits gives the number of elements.
  lemma CountIs(popped: nat, n: nat)
    requires n < W
    ensures ((popped + n) % W - popped % W) % W == n
  {
    var q, r := popped / W, popped % W;
    assert popped == r + W * q;
    if r + n < W {
      DivMod(popped + n, W, r + n, q);
    } else {
      DivMod(popped + n, W, r + n - W, q + 1);
      DivMod(n - W, W, n, -1);
    }
  }

  // The comparison without subtraction.
  lemma CompareIs(popped: nat, n: nat)
    requires n < W
    ensures popped % W >= (popped + n) % W <==> n == 0 || Straddles(popped, n)
  {
    var q, r := popped / W, popped % W;
    assert popped == r + W * q;
    if r + n < W {
      DivMod(popped + n, W, r + n, q);
    } else {
      DivMod(popped + n, W, r + n - W, q + 1);
    }
  }

  /** Once the counters straddle the wrap they do for good: more elements do not change it, and none is
      popped. */
  lemma StraddlesMore(popped: nat, n: nat, m: nat)
    requires Straddles(popped, n) && n <= m
    ensures Straddles(popped, m)
  {
  }

  lemma Next(n: nat)
    ensures (n % W + 1) % W == (n + 1) % W
  {
    ShiftMod(n - n % W, n % W + 1, W);
  }

  class RingSpsc {
    const ring: array<nat>
    var begin: nat
    var end: nat
    ghost var popped: nat
    ghost var contents: seq<nat>

    ghost predicate Valid()
      reads this, ring
    {
      && 0 < ring.Length < W && W % ring.Length == 0 && Holds(ring[..], popped, contents)
      && begin == popped % W && end == (popped + |contents|) % W
    }

    constructor (size: nat)
      requires 0 < size < W && W % size == 0
      ensures Valid() && fresh(ring) && ring.Length == size && contents == [] && popped == 0
    {
      ring := new nat[size](_ => 0);
      begin, end, popped, contents := 0, 0, 0, [];
    }

    /** push(): fails if and only if the ring is full, whatever the counters are. */
    method Push(x: nat) returns (ok: bool)
      requires Valid()
      modifies this, ring
      ensures Valid() && popped == old(popped) && (ok <==> old(|contents|) < ring.Length)
      ensures contents == if ok then old(contents) + [x] else old(contents)
    {
      CountIs(popped, |contents|);
      if (end - begin) % W >= ring.Length {
        return false;
      }
      PushAt(ring[..], popped + |contents|, contents, end, x, W);
      Next(popped + |contents|);
      ghost var was := ring[..];
      ring[end % ring.Length] := x;
      assert ring[..] == was[end % ring.Length := x];
      end := (end + 1) % W;
      contents := contents + [x];
      return true;
    }

    /** pop(): the oldest element. It finds the ring empty if and only if it is, or the counters straddle
        the wrap. */
    method Pop() returns (ok: bool, x: nat)
      requires Valid()
      modifies this
      ensures Valid() && (ok <==> old(contents) != [] && !Straddles(old(popped), |old(contents)|))
      ensures ok ==> x == old(contents)[0] && contents == old(contents)[1..] && popped == old(popped) + 1
      ensures !ok ==> contents == old(contents) && popped == old(popped)
    {
      CompareIs(popped, |contents|);
      if begin >= end {
        return false, 0;
      }
      PopAt(ring[..], popped, contents, begin, W);
      Next(popped);
      x := ring[begin % ring.Length];
      begin := (begin + 1) % W;
      popped, contents := popped + 1, contents[1..];
      return true, x;
    }

    /** size(): the number of elements. */
    method Size() returns (n: nat)
      requires Valid()
      ensures n == |contents|
    {
      CountIs(popped, |contents|);
      n := (end - begin) % W;
    }
  }

  /** An input: after 2^32 - 1 elements have gone through a ring of any size, the next one cannot be
      popped. */
  method Wedge(size: nat, x: nat) returns (r: RingSpsc)
    requires 0 < size < W && W % size == 0
    ensures fresh(r) && r.Valid() && r.contents == [x] && Straddles(r.popped, 1)
  {
    r := new RingSpsc(size);
    for i := 0 to W - 1
      invariant fresh(r) && fresh(r.ring) && r.Valid() && r.contents == [] && r.popped == i && r.ring.Length == size
    {
      var pushed := r.Push(0);
      var popped, _ := r.Pop();
    }
    var pushed := r.Push(x);
  }
}
