/**
  Condition variables with wait morphing, core/condvar.cc: a first-in first-out list linked
  through the waiters' records, and a wake_all() that hands the records to the mutex grouped
  by CPU while it walks the list. A record given to the mutex may not be touched again.
 */
module Condvar {

  // A wait_record; the mutex that it is given to uses next for its own queue.
  class Record {
    var next: Record?
    const cpu: nat
    ghost var sent: bool

    constructor (cpu: nat)
      ensures this.cpu == cpu && next == null && !sent
    {
      this.cpu, next, sent := cpu, null, false;
    }
  }

  // The user's mutex, as far as send_lock() goes: the records it was given, in order.
  class Morpher {
    ghost var log: seq<Record>

    method SendLock(r: Record)
      requires !r.sent
      modifies this, r
      ensures log == old(log) + [r] && r.sent
    {
      log := log + [r];
      r.sent := true;
      r.next := *;
    }
  }

  // ---- the list ----

  ghost predicate Distinct(q: seq<Record>) {
    forall i, j | 0 <= i < j < |q| :: q[i] != q[j]
  }

  ghost predicate Chain(q: seq<Record>)
    reads q
  {
    && Distinct(q) && (forall i | 0 <= i < |q| :: !q[i].sent)
    && (forall i | 0 <= i < |q| - 1 :: q[i].next == q[i + 1])
    && (q != [] ==> q[|q| - 1].next == null)
  }

  function First(q: seq<Record>): Record? {
    if q == [] then null else q[0]
  }

  function Last(q: seq<Record>): Record? {
    if q == [] then null else q[|q| - 1]
  }

  // ---- the order wake_all() sends in ----

  function SameCpu(q: seq<Record>, cpu: nat): seq<Record> {
    if q == [] then [] else (if q[0].cpu == cpu then [q[0]] else []) + SameCpu(q[1..], cpu)
  }

  function OtherCpu(q: seq<Record>, cpu: nat): (r: seq<Record>)
    ensures |r| <= |q|
  {
    if q == [] then [] else (if q[0].cpu != cpu then [q[0]] else []) + OtherCpu(q[1..], cpu)
  }

  // The oldest, then those on its CPU, then the rest in the same way.
  function Grouped(q: seq<Record>): seq<Record>
    decreases |q|
  {
    if q == [] then [] else [q[0]] + SameCpu(q[1..], q[0].cpu) + Grouped(OtherCpu(q[1..], q[0].cpu))
  }

  lemma Cons(x: Record, s: seq<Record>)
    ensures multiset([x] + s) == multiset{x} + multiset(s)
  {
  }

  lemma {:induction false} SplitAll(q: seq<Record>, cpu: nat)
    ensures multiset(SameCpu(q, cpu)) + multiset(OtherCpu(q, cpu)) == multiset(q)
  {
    if q != [] {
      var same, other := SameCpu(q[1..], cpu), OtherCpu(q[1..], cpu);
      SplitAll(q[1..], cpu);
      assert q == [q[0]] + q[1..];
      Cons(q[0], q[1..]);
      if q[0].cpu == cpu {
        assert SameCpu(q, cpu) == [q[0]] + same && OtherCpu(q, cpu) == other;
        Cons(q[0], same);
      } else {
        assert SameCpu(q, cpu) == same && OtherCpu(q, cpu) == [q[0]] + other;
        Cons(q[0], other);
      }
    }
  }

  lemma Concat3(a: seq<Record>, b: seq<Record>, c: seq<Record>)
    ensures multiset(a + b + c) == multiset(a) + multiset(b) + multiset(c)
  {
  }

  /** Every record is sent exactly once. */
  lemma {:induction false} GroupedIsAll(q: seq<Record>)
    ensures multiset(Grouped(q)) == multiset(q)
    decreases |q|
  {
    if q != [] {
      var same, other := SameCpu(q[1..], q[0].cpu), OtherCpu(q[1..], q[0].cpu);
      SplitAll(q[1..], q[0].cpu);
      GroupedIsAll(other);
      Concat3([q[0]], same, Grouped(other));
      assert q == [q[0]] + q[1..];
    }
  }

  lemma {:induction false} SameIsSame(q: seq<Record>, cpu: nat)
    ensures forall r | r in SameCpu(q, cpu) :: r.cpu == cpu
    ensures forall r | r in OtherCpu(q, cpu) :: r.cpu != cpu && r in q
  {
    if q != [] {
      SameIsSame(q[1..], cpu);
    }
  }

  lemma {:induction false} GroupedMembers(q: seq<Record>)
    ensures forall r | r in Grouped(q) :: r in q
  {
    GroupedIsAll(q);
    assert forall r | r in Grouped(q) :: r in multiset(q);
  }

  lemma AllInHead(head: seq<Record>, tail: seq<Record>, cpu: nat, i: nat, k: nat)
    requires (forall x | x in head :: x.cpu == cpu) && (forall x | x in tail :: x.cpu != cpu)
    requires i < |head| && k < |head + tail| && (head + tail)[k].cpu == (head + tail)[i].cpu
    ensures k < |head|
  {
    var x, y := (head + tail)[i], (head + tail)[k];
    assert x in head && y in if k < |head| then head else tail;
  }

  /** The records of one CPU are sent one after another: between two of them is no other. */
  lemma {:induction false} GroupedByCpu(q: seq<Record>, i: nat, j: nat, k: nat)
    requires i <= j <= k < |Grouped(q)| && Grouped(q)[i].cpu == Grouped(q)[k].cpu
    ensures Grouped(q)[j].cpu == Grouped(q)[i].cpu
    decreases |q|
  {
    var cpu, other := q[0].cpu, OtherCpu(q[1..], q[0].cpu);
    var head := [q[0]] + SameCpu(q[1..], cpu);
    assert Grouped(q) == head + Grouped(other);
    var n := |head|;
    if i >= n {
      GroupedByCpu(other, i - n, j - n, k - n);
    } else {
      SameIsSame(q[1..], cpu);
      GroupedMembers(other);
      AllInHead(head, Grouped(other), cpu, i, k);
      assert head[i] in head && head[j] in head;
    }
  }

  lemma Assoc(a: seq<Record>, b: seq<Record>, c: seq<Record>)
    ensures a + (b + c) == (a + b) + c
  {
  }

  // ---- sending the records of one CPU ----

  // The walk of wake_all() over a list, at place k.
  ghost predicate Walking(list: seq<Record>, k: nat, first: Record?, prev: Record?, r: Record?)
    reads list
  {
    && Chain(list) && k <= |list| && first == First(list)
    && prev == (if k > 0 then list[k - 1] else null) && r == if k < |list| then list[k] else null
  }

  function Without(list: seq<Record>, k: nat): seq<Record>
    requires k < |list|
  {
    list[..k] + list[k + 1..]
  }

  // The record at place k is sent, and the one before it linked to the one after.
  method SendAt(m: Morpher, ghost list: seq<Record>, ghost k: nat, first: Record, prev: Record?, r: Record)
    returns (first': Record?, next: Record?)
    requires Walking(list, k, first, prev, r)
    modifies m, r, prev
    ensures Walking(Without(list, k), k, first', prev, next) && m.log == old(m.log) + [r]
  {
    assert k + 1 < |list| ==> r.next == list[k + 1];
    next := r.next;
    m.SendLock(r);
    first' := first;
    if r == first {
      first' := next;
    } else {
      prev.next := next;
    }
    ghost var rest := Without(list, k);
    assert forall j | 0 <= j < |rest| :: rest[j] == if j < k then list[j] else list[j + 1];
  }

  function After(list: seq<Record>, k: nat, cpu: nat): seq<Record>
    requires k < |list|
  {
    if list[k].cpu == cpu then Without(list, k) else list
  }

  function Matching(r: Record, cpu: nat): seq<Record> { if r.cpu == cpu then [r] else [] }

  // At place k of the list: what was kept of q is before it, and what was sent is in sent.
  ghost predicate Track(q: seq<Record>, cpu: nat, list: seq<Record>, k: nat, sent: seq<Record>) {
    && k <= |list| && OtherCpu(q, cpu) == list[..k] + OtherCpu(list[k..], cpu)
    && SameCpu(q, cpu) == sent + SameCpu(list[k..], cpu)
  }

  lemma TrackStart(q: seq<Record>, cpu: nat)
    ensures Track(q, cpu, q, 0, [])
  {
    assert q[0..] == q && q[..0] == [];
  }

  lemma TrackSend(q: seq<Record>, cpu: nat, list: seq<Record>, k: nat, sent: seq<Record>)
    requires Track(q, cpu, list, k, sent) && k < |list| && list[k].cpu == cpu
    ensures Track(q, cpu, Without(list, k), k, sent + [list[k]])
  {
    var r, rest := list[k], list[k + 1..];
    assert list[k..] == [r] + rest;
    assert Without(list, k)[..k] == list[..k] && Without(list, k)[k..] == rest;
    Assoc(sent, [r], SameCpu(rest, cpu));
  }

  lemma TrackSkip(q: seq<Record>, cpu: nat, list: seq<Record>, k: nat, sent: seq<Record>)
    requires Track(q, cpu, list, k, sent) && k < |list| && list[k].cpu != cpu
    ensures Track(q, cpu, list, k + 1, sent)
  {
    var r, rest := list[k], list[k + 1..];
    assert list[k..] == [r] + rest;
    assert list[..k + 1] == list[..k] + [r];
    Assoc(list[..k], [r], OtherCpu(rest, cpu));
  }

  lemma TrackNext(q: seq<Record>, cpu: nat, list: seq<Record>, k: nat, sent: seq<Record>)
    requires Track(q, cpu, list, k, sent) && k < |list|
    ensures Track(q, cpu, After(list, k, cpu), if list[k].cpu == cpu then k else k + 1, sent + Matching(list[k], cpu))
  {
    if list[k].cpu == cpu {
      TrackSend(q, cpu, list, k, sent);
    } else {
      TrackSkip(q, cpu, list, k, sent);
      assert sent + [] == sent;
    }
  }

  lemma TrackEnd(q: seq<Record>, cpu: nat, list: seq<Record>, sent: seq<Record>)
    requires Track(q, cpu, list, |list|, sent)
    ensures list == OtherCpu(q, cpu) && sent == SameCpu(q, cpu)
  {
  }

  // One record of the walk: sent, or passed over.
  method Visit(m: Morpher, cpu: nat, first: Record, prev: Record?, r: Record, ghost list: seq<Record>, ghost k: nat)
    returns (first': Record?, prev': Record?, next: Record?)
    requires Walking(list, k, first, prev, r)
    modifies m, r, prev
    ensures if r.cpu == cpu then Walking(Without(list, k), k, first', prev', next)
            else Walking(list, k + 1, first', prev', next)
    ensures m.log == old(m.log) + Matching(r, cpu)
  {
    if r.cpu == cpu {
      first', next := SendAt(m, list, k, first, prev, r);
      prev' := prev;
    } else {
      assert k + 1 < |list| ==> r.next == list[k + 1];
      first', prev', next := first, r, r.next;
    }
  }

  // The walk over q so far: log is what was sent before it.
  ghost predicate Progress(m: Morpher, log: seq<Record>, q: seq<Record>, cpu: nat,
                           first: Record?, prev: Record?, r: Record?,
                           list: seq<Record>, k: nat, sent: seq<Record>, all: set<Record>)
    reads m, list
  {
    && Walking(list, k, first, prev, r) && (forall x | x in list :: x in all)
    && Track(q, cpu, list, k, sent) && m.log == log + sent
  }

  method Round(m: Morpher, cpu: nat, first: Record, prev: Record?, r: Record,
               ghost log: seq<Record>, ghost q: seq<Record>,
               ghost list: seq<Record>, ghost k: nat, ghost sent: seq<Record>, ghost all: set<Record>)
    returns (first': Record?, prev': Record?, next: Record?,
             ghost list': seq<Record>, ghost k': nat, ghost sent': seq<Record>)
    requires Progress(m, log, q, cpu, first, prev, r, list, k, sent, all)
    modifies m, all
    ensures Progress(m, log, q, cpu, first', prev', next, list', k', sent', all) && |list'| - k' < |list| - k
  {
    TrackNext(q, cpu, list, k, sent);
    Assoc(log, sent, Matching(r, cpu));
    assert list[k] in list && (k > 0 ==> list[k - 1] in list);
    k' := if r.cpu == cpu then k else k + 1;
    list', sent' := After(list, k, cpu), sent + Matching(r, cpu);
    AfterMembers(list, k, cpu);
    first', prev', next := Visit(m, cpu, first, prev, r, list, k);
  }

  lemma AfterMembers(list: seq<Record>, k: nat, cpu: nat)
    requires k < |list|
    ensures forall x | x in After(list, k, cpu) :: x in list
  {
  }

  // Sends the records of one CPU, in order; the others stay linked, in order.
  method SendSame(m: Morpher, first0: Record?, cpu: nat, ghost q: seq<Record>, ghost all: set<Record>)
    returns (first: Record?)
    requires Chain(q) && first0 == First(q) && forall x | x in q :: x in all
    modifies m, all
    ensures Chain(OtherCpu(q, cpu)) && first == First(OtherCpu(q, cpu)) && m.log == old(m.log) + SameCpu(q, cpu)
  {
    first := first0;
    var prev: Record?, r := null, first;
    ghost var k: nat, list, sent: seq<Record> := 0, q, [];
    TrackStart(q, cpu);
    while r != null
      invariant Progress(m, old(m.log), q, cpu, first, prev, r, list, k, sent, all)
      decreases |list| - k
    {
      first, prev, r, list, k, sent := Round(m, cpu, first, prev, r, old(m.log), q, list, k, sent, all);
    }
    TrackEnd(q, cpu, list, sent);
  }

  // Sends them all: the oldest, those on its CPU, and so on.
  method SendAll(m: Morpher, oldest: Record?, ghost q: seq<Record>, ghost all: set<Record>)
    requires Chain(q) && oldest == First(q) && forall x | x in q :: x in all
    modifies m, all
    ensures m.log == old(m.log) + Grouped(q)
  {
    var wr := oldest;
    ghost var left := q;
    while wr != null
      invariant Chain(left) && wr == First(left) && forall r | r in left :: r in all
      invariant m.log + Grouped(left) == old(m.log) + Grouped(q)
      decreases |left|
    {
      var next := wr.next;
      var cpu := wr.cpu;
      ghost var rest := left[1..];
      TailChain(left);
      SameIsSame(rest, cpu);
      GroupedStep(m.log, left);
      m.SendLock(wr);
      wr := SendSame(m, next, cpu, rest, all);
      left := OtherCpu(rest, cpu);
    }
  }

  lemma GroupedStep(log: seq<Record>, q: seq<Record>)
    requires q != []
    ensures log + Grouped(q) == log + [q[0]] + SameCpu(q[1..], q[0].cpu) + Grouped(OtherCpu(q[1..], q[0].cpu))
  {
  }

  lemma TailChain(q: seq<Record>)
    requires Chain(q) && q != []
    ensures Chain(q[1..]) && q[0] !in q[1..] && q[0].next == First(q[1..])
  {
  }

  // ---- the condition variable ----

  class Cond {
    var oldest: Record?
    var newest: Record?
    ghost var queue: seq<Record>

    ghost predicate Valid()
      reads this, queue
    {
      Chain(queue) && oldest == First(queue) && newest == Last(queue)
    }

    // condvar_wait(): the new waiter goes to the end.
    method Enqueue(wr: Record)
      requires Valid() && wr !in queue && wr.next == null && !wr.sent
      modifies this, queue
      ensures Valid() && queue == old(queue) + [wr]
    {
      if oldest == null {
        oldest := wr;
      } else {
        newest.next := wr;
      }
      newest := wr;
      queue := queue + [wr];
    }

    // condvar_wake_one(): the oldest waiter goes to the mutex.
    method WakeOne(m: Morpher)
      requires Valid()
      modifies this, m, queue
      ensures Valid()
      ensures if old(queue) == [] then queue == [] && m.log == old(m.log)
              else queue == old(queue)[1..] && m.log == old(m.log) + [old(queue)[0]]
    {
      var wr := oldest;
      if wr != null {
        oldest := wr.next;
        if wr.next == null {
          newest := null;
        }
        queue := queue[1..];
        m.SendLock(wr);
      }
    }

    // The oldest record is taken out.
    method RemoveFirst()
      requires Valid() && queue != []
      modifies this
      ensures Valid() && queue == old(queue)[1..]
    {
      TailChain(queue);
      assert queue[1..] == [] || queue[1..][|queue| - 2] == queue[|queue| - 1];
      oldest := oldest.next;
      if oldest == null {
        newest := null;
      }
      queue := queue[1..];
    }

    // The record before wr, if wr is in the list but not first.
    method Before(wr: Record) returns (p: Record?, ghost i: nat)
      requires Valid() && wr != oldest
      ensures p == null ==> wr !in queue
      ensures p != null ==> i + 1 < |queue| && queue[i] == p && queue[i + 1] == wr
    {
      p := oldest;
      i := 0;
      while p != null
        invariant 0 <= i <= |queue| && p == if i < |queue| then queue[i] else null
        invariant forall j | 0 <= j <= i && j < |queue| :: queue[j] != wr
        decreases |queue| - i
      {
        if p.next == wr {
          return;
        }
        p := p.next;
        i := i + 1;
      }
    }

    // condvar_wait() after a timeout: the record is taken out, wherever it is in the list.
    method Remove(wr: Record) returns (found: bool)
      requires Valid()
      modifies this, queue
      ensures Valid() && (found <==> wr in old(queue))
      ensures !found ==> queue == old(queue)
      ensures found ==>
                exists k | 0 <= k < |old(queue)| ::
                  old(queue)[k] == wr && queue == old(queue)[..k] + old(queue)[k + 1..]
    {
      ghost var q := queue;
      found := true;
      if wr == oldest {
        RemoveFirst();
        assert q[0] == wr && queue == q[..0] + q[1..];
        return;
      }
      var p, i := Before(wr);
      if p == null {
        found := false;
      } else {
        Unlink(p, wr, i);
        assert q[i + 1] == wr && queue == q[..i + 1] + q[i + 1 + 1..];
      }
    }

    // Takes out the record after p, which is at place i.
    method Unlink(p: Record, wr: Record, ghost i: nat)
      requires Valid() && i + 1 < |queue| && queue[i] == p && queue[i + 1] == wr
      modifies this, p
      ensures Valid() && queue == old(queue)[..i + 1] + old(queue)[i + 2..]
    {
      assert i + 2 < |queue| ==> wr.next == queue[i + 2];
      p.next := wr.next;
      if p.next == null {
        newest := p;
      }
      ghost var q := queue;
      assert p.next == null <==> i + 2 == |q|;
      queue := queue[..i + 1] + queue[i + 2..];
      assert forall j | 0 <= j < |queue| :: queue[j] == if j <= i then q[j] else q[j + 1];
    }

    /** condvar_wake_all(): every waiter goes to the mutex once, grouped by CPU. */
    method WakeAll(m: Morpher)
      requires Valid()
      modifies this, m, queue
      ensures Valid() && queue == [] && m.log == old(m.log) + Grouped(old(queue))
    {
      var wr := oldest;
      ghost var q, all := queue, set r | r in queue;
      oldest, newest, queue := null, null, [];
      SendAll(m, wr, q, all);
    }
  }
}
