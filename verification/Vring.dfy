/**
  The virtio split ring of drivers/virtio-vring.cc (section 2.4 of VIRTIO 1.0): a free
  list threaded through the descriptor array, free-running 16-bit counters, and a used
  ring that is read in two stages, once for the buffer and once to recycle it.
 */
module Vring {
  import opened Arith
  import opened Wrap

  const WRAP := 0x1_0000          // 16-bit counters

  datatype Option<T> = None | Some(value: T)

  ghost predicate Distinct(s: seq<nat>) {
    forall i, j | 0 <= i < j < |s| :: s[i] != s[j]
  }

  // Cutting a list without repetitions gives two that share nothing.
  lemma DistinctCut(s: seq<nat>, n: nat)
    requires Distinct(s) && n <= |s|
    ensures Distinct(s[..n]) && Distinct(s[n..])
    ensures forall x :: x in s <==> x in s[..n] || x in s[n..]
    ensures forall x :: !(x in s[..n] && x in s[n..])
  {
    assert s == s[..n] + s[n..];
  }

  lemma DistinctConcat(a: seq<nat>, b: seq<nat>)
    requires Distinct(a) && Distinct(b) && forall x :: !(x in a && x in b)
    ensures Distinct(a + b)
  {
    forall i, j | 0 <= i < j < |a + b| ensures (a + b)[i] != (a + b)[j] {
      if i < |a| <= j {
        assert a[i] in a && b[j - |a|] in b;
      }
    }
  }

  lemma {:induction false} DistinctBound(s: seq<nat>, n: nat)
    requires Distinct(s) && forall i | 0 <= i < |s| :: s[i] < n
    ensures |s| <= n
    decreases n
  {
    if |s| > 0 {
      if i :| 0 <= i < |s| && s[i] == n - 1 {
        DistinctBound(s[..i] + s[i + 1..], n - 1);
      } else {
        assert s[0] < n;
        DistinctBound(s, n - 1);
      }
    }
  }

  // ---- who has which descriptor ----

  /** The descriptors as the driver and a spec-abiding host see them: the free list, the
      chain of each head that is out, and where that head is: posted in the avail ring,
      taken by the host, or done, in the used ring. */
  datatype Ring = Ring(free: seq<nat>, chains: map<nat, seq<nat>>, posted: seq<nat>, inflight: set<nat>, done: seq<nat>)

  ghost predicate ChainsOk(chains: map<nat, seq<nat>>, free: seq<nat>, num: nat) {
    && (forall h | h in chains :: |chains[h]| > 0 && chains[h][0] == h && Distinct(chains[h]))
    && (forall h, d | h in chains && d in chains[h] :: d < num)
    && (forall h, d | h in chains && d in chains[h] :: d !in free)
    && (forall g, h, d | g in chains && h in chains && d in chains[g] && d in chains[h] :: g == h)
  }

  ghost predicate HeadsOk(r: Ring) {
    && Distinct(r.posted) && Distinct(r.done)
    && (forall h | h in r.posted :: h !in r.inflight && h !in r.done)
    && (forall h | h in r.inflight :: h !in r.done)
    && (forall h :: h in r.chains <==> h in r.posted || h in r.inflight || h in r.done)
  }

  /** Every descriptor is in exactly one place. */
  ghost predicate Partition(r: Ring, num: nat) {
    && Distinct(r.free) && (forall d | d in r.free :: d < num)
    && ChainsOk(r.chains, r.free, num)
    && (forall d: nat {:trigger InChain(r.chains, d)} | d < num && d !in r.free :: InChain(r.chains, d))
    && HeadsOk(r)
  }

  ghost predicate InChain(chains: map<nat, seq<nat>>, d: nat) {
    exists h :: h in chains && d in chains[h]
  }

  lemma ListBound(s: seq<nat>, n: nat)
    requires Distinct(s) && forall d | d in s :: d < n
    ensures |s| <= n
  {
    assert forall i | 0 <= i < |s| :: s[i] in s;
    DistinctBound(s, n);
  }

  lemma HeadBound(chains: map<nat, seq<nat>>, free: seq<nat>, num: nat, h: nat)
    requires ChainsOk(chains, free, num) && h in chains
    ensures h < num && h !in free
  {
    assert chains[h][0] in chains[h];
  }

  lemma PartitionBounds(r: Ring, num: nat)
    requires Partition(r, num)
    ensures |r.free| <= num && |r.posted| <= num && |r.done| <= num
    ensures forall h | h in r.chains :: h < num && h !in r.free
  {
    forall h | h in r.chains ensures h < num && h !in r.free {
      HeadBound(r.chains, r.free, num, h);
    }
    ListBound(r.free, num);
    ListBound(r.posted, num);
    ListBound(r.done, num);
  }

  // ---- the operations on the partition ----

  function Post(r: Ring, n: nat): Ring
    requires 0 < n <= |r.free|
  {
    var h := r.free[0];
    r.(free := r.free[n..], chains := r.chains[h := r.free[..n]], posted := r.posted + [h])
  }

  function Take(r: Ring): Ring
    requires r.posted != []
  {
    r.(posted := r.posted[1..], inflight := r.inflight + {r.posted[0]})
  }

  function Return(r: Ring, h: nat): Ring {
    r.(inflight := r.inflight - {h}, done := r.done + [h])
  }

  function Recycle(r: Ring): Ring
    requires r.done != [] && r.done[0] in r.chains
  {
    var h := r.done[0];
    r.(free := r.chains[h] + r.free, chains := r.chains - {h}, done := r.done[1..])
  }

  lemma PostChains(r: Ring, num: nat, n: nat)
    requires Partition(r, num) && 0 < n <= |r.free|
    ensures ChainsOk(Post(r, n).chains, Post(r, n).free, num)
  {
    var h0, p := r.free[0], Post(r, n);
    DistinctCut(r.free, n);
    forall h, d | h in p.chains && d in p.chains[h] ensures d < num && d !in p.free {
      assert h == h0 || (h in r.chains && d in r.chains[h]);
    }
    forall g, h, d | g in p.chains && h in p.chains && d in p.chains[g] && d in p.chains[h] ensures g == h {
      assert g == h0 || (g in r.chains && d in r.chains[g]);
      assert h == h0 || (h in r.chains && d in r.chains[h]);
    }
  }

  lemma PostHeads(r: Ring, num: nat, n: nat)
    requires Partition(r, num) && 0 < n <= |r.free|
    ensures HeadsOk(Post(r, n))
  {
    PartitionBounds(r, num);
    assert r.free[0] in r.free;
  }

  /** A head that is out is never handed out again: it is not on the free list. */
  lemma PostPartition(r: Ring, num: nat, n: nat)
    requires Partition(r, num) && 0 < n <= |r.free|
    ensures Partition(Post(r, n), num)
    ensures r.free[0] !in r.chains
  {
    var p := Post(r, n);
    PostChains(r, num, n);
    PostHeads(r, num, n);
    PartitionBounds(r, num);
    DistinctCut(r.free, n);
    assert r.free[0] in r.free;
    forall d: nat | d < num && d !in p.free ensures InChain(p.chains, d) {
      if d in r.free {
        assert d in p.chains[r.free[0]];
      } else {
        assert InChain(r.chains, d);
      }
    }
  }

  lemma TakePartition(r: Ring, num: nat)
    requires Partition(r, num) && r.posted != []
    ensures Partition(Take(r), num)
  {
    assert r.posted[0] in r.posted;
    var p := Take(r);
    assert forall h :: h in r.posted <==> h == r.posted[0] || h in p.posted;
  }

  lemma ReturnPartition(r: Ring, num: nat, h: nat)
    requires Partition(r, num) && h in r.inflight
    ensures Partition(Return(r, h), num)
  {
  }

  lemma RecyclePartition(r: Ring, num: nat)
    requires Partition(r, num) && r.done != []
    ensures r.done[0] in r.chains && Partition(Recycle(r), num)
  {
    var h := r.done[0];
    assert h in r.done;
    var p := Recycle(r);
    assert forall d | d in r.chains[h] :: d !in r.free;
    DistinctConcat(r.chains[h], r.free);
    assert forall g :: g in r.done <==> g == h || g in p.done;
    forall d: nat | d < num && d !in p.free ensures InChain(p.chains, d) {
      assert InChain(r.chains, d);
      var g :| g in r.chains && d in r.chains[g];
      assert g in p.chains && d in p.chains[g];
    }
  }

  // ---- the links in the descriptor array ----

  datatype Desc = Desc(next: nat, more: bool, write: bool, paddr: nat, len: nat)
  datatype Sg = Sg(paddr: nat, len: nat, write: bool)
  datatype UsedElem = UsedElem(id: nat, len: nat)

  ghost predicate FreeLinked(ds: seq<Desc>, head: nat, free: seq<nat>) {
    && (free != [] ==> head == free[0])
    && (forall j | 0 <= j < |free| :: free[j] < |ds|)
    && (forall j | 0 <= j < |free| - 1 :: ds[free[j]].next == free[j + 1])
  }

  ghost predicate ChainLinked(ds: seq<Desc>, c: seq<nat>) {
    && (forall j | 0 <= j < |c| :: c[j] < |ds| && (ds[c[j]].more <==> j < |c| - 1))
    && (forall j | 0 <= j < |c| - 1 :: ds[c[j]].next == c[j + 1])
  }

  ghost predicate Linked(ds: seq<Desc>, head: nat, r: Ring) {
    FreeLinked(ds, head, r.free) && forall h | h in r.chains :: ChainLinked(ds, r.chains[h])
  }

  // Descriptor d as add_buf() fills it from the i-th of n segments.
  predicate Filled(was: Desc, now: Desc, sg: Sg, last: bool) {
    now == Desc(was.next, !last, sg.write, sg.paddr, sg.len)
  }

  // ds is was with the first k of the free descriptors filled, the last of them closed if closed.
  ghost predicate FilledUpTo(was: seq<Desc>, ds: seq<Desc>, free: seq<nat>, sgs: seq<Sg>, k: nat, closed: bool) {
    && |ds| == |was| && k <= |sgs| <= |free| && (forall j | 0 <= j < |free| :: free[j] < |ds|)
    && (forall d | 0 <= d < |ds| && d !in free[..k] :: ds[d] == was[d])
    && (forall j | 0 <= j < k :: Filled(was[free[j]], ds[free[j]], sgs[j], closed && j == k - 1))
  }

  lemma FillOne(was: seq<Desc>, ds: seq<Desc>, free: seq<nat>, sgs: seq<Sg>, k: nat)
    requires FilledUpTo(was, ds, free, sgs, k, false) && k < |sgs| && Distinct(free)
    ensures var d := free[k];
            FilledUpTo(was, ds[d := Desc(ds[d].next, true, sgs[k].write, sgs[k].paddr, sgs[k].len)],
                       free, sgs, k + 1, false)
  {
    assert free[..k + 1] == free[..k] + [free[k]];
  }

  lemma CloseLast(was: seq<Desc>, ds: seq<Desc>, free: seq<nat>, sgs: seq<Sg>, k: nat)
    requires FilledUpTo(was, ds, free, sgs, k, false) && 0 < k <= |sgs| && Distinct(free)
    ensures var d := free[k - 1]; FilledUpTo(was, ds[d := ds[d].(more := false)], free, sgs, k, true)
  {
    assert free[k - 1] in free[..k];
  }

  // A chain whose descriptors are as they were.
  lemma StillLinked(was: seq<Desc>, ds: seq<Desc>, c: seq<nat>)
    requires ChainLinked(was, c) && |ds| == |was| && forall d | d in c && d < |ds| :: ds[d] == was[d]
    ensures ChainLinked(ds, c)
  {
    assert forall j | 0 <= j < |c| :: c[j] in c;
  }

  lemma PostFree(was: seq<Desc>, ds: seq<Desc>, head: nat, free: seq<nat>, sgs: seq<Sg>)
    requires Distinct(free) && FreeLinked(was, head, free) && 0 < |sgs| && FilledUpTo(was, ds, free, sgs, |sgs|, true)
    ensures FreeLinked(ds, was[free[|sgs| - 1]].next, free[|sgs|..])
  {
    var n := |sgs|;
    DistinctCut(free, n);
    forall j | n <= j < |free| ensures ds[free[j]] == was[free[j]] {
      assert free[j] == free[n..][j - n];
      assert free[j] in free[n..];
    }
  }

  lemma PostChain(was: seq<Desc>, ds: seq<Desc>, head: nat, free: seq<nat>, sgs: seq<Sg>)
    requires FreeLinked(was, head, free) && 0 < |sgs| && FilledUpTo(was, ds, free, sgs, |sgs|, true)
    ensures ChainLinked(ds, free[..|sgs|])
  {
  }

  lemma PostLinked(was: seq<Desc>, ds: seq<Desc>, head: nat, r: Ring, sgs: seq<Sg>, num: nat)
    requires Partition(r, num) && Linked(was, head, r) && 0 < |sgs|
    requires FilledUpTo(was, ds, r.free, sgs, |sgs|, true)
    ensures Linked(ds, was[r.free[|sgs| - 1]].next, Post(r, |sgs|))
  {
    var n, p := |sgs|, Post(r, |sgs|);
    PostFree(was, ds, head, r.free, sgs);
    PostChain(was, ds, head, r.free, sgs);
    DistinctCut(r.free, n);
    forall h | h in p.chains ensures ChainLinked(ds, p.chains[h]) {
      if h != r.free[0] {
        StillLinked(was, ds, r.chains[h]);
      }
    }
  }

  lemma RecycleLinked(ds: seq<Desc>, head: nat, r: Ring, num: nat)
    requires Partition(r, num) && Linked(ds, head, r) && r.done != [] && r.done[0] in r.chains
    ensures var c := r.chains[r.done[0]];
            var d := c[|c| - 1];
            d < |ds| && Linked(ds[d := ds[d].(next := head)], r.done[0], Recycle(r))
  {
    var h, p := r.done[0], Recycle(r);
    var c := r.chains[h];
    var d := c[|c| - 1];
    var ds' := ds[d := ds[d].(next := head)];
    assert d in c;
    forall j | 0 <= j < |r.free| ensures r.free[j] != d {
      assert r.free[j] in r.free;
    }
    forall g | g in p.chains ensures ChainLinked(ds', p.chains[g]) {
      StillLinked(ds, ds', r.chains[g]);
    }
  }

  // ---- a ring buffer indexed by free-running counters ----

  // Two 16-bit counters less than 2^16 apart are equal only if they are.
  lemma WrapEqual(a: nat, b: nat)
    requires a <= b < a + WRAP
    ensures a % WRAP == b % WRAP <==> a == b
    ensures (b % WRAP - a % WRAP) % WRAP == b - a
  {
  }

  // ---- the whole state of a queue, as a value ----

  /** The fields of the queue, and with them what they stand for: who has which descriptor,
      what the used ring holds, the cookies not yet given back, and the counters without
      wrap-around: heads posted and returned, how many of the returned ones the upper layer
      has finished with, and how many had been posted at the last kick. */
  datatype View = View(
    num: nat, desc: seq<Desc>, cookie: seq<Option<nat>>, avail: seq<nat>, used: seq<UsedElem>,
    availHead: nat, availCount: nat, availIdx: nat, usedIdx: nat, hostHead: nat, guestHead: nat, added: nat,
    ring: Ring, log: seq<UsedElem>, owed: map<nat, nat>, posts: nat, rets: nat, finished: nat, kicked: nat)

  ghost predicate Shapes(v: View) {
    && 0 < v.num <= 0x8000
    && |v.desc| == v.num && |v.cookie| == v.num && |v.avail| == v.num && |v.used| == v.num
  }

  ghost predicate Counters(v: View) {
    && |v.ring.done| == |v.log| <= v.rets && |v.ring.posted| <= v.posts && v.finished <= |v.log|
    && v.kicked <= v.posts && v.added == (v.posts - v.kicked) % WRAP
    && v.availIdx == v.posts % WRAP && v.usedIdx == v.rets % WRAP
    && v.guestHead == (v.rets - |v.log|) % WRAP && v.hostHead == (v.rets - |v.log| + v.finished) % WRAP
  }

  // What the 16-bit counters and the two rings say is what has happened.
  ghost predicate RingsOk(v: View) {
    && |v.ring.done| == |v.log| <= v.rets && |v.ring.posted| <= v.posts
    && Holds(v.avail, v.posts - |v.ring.posted|, v.ring.posted)
    && Holds(v.used, v.rets - |v.log|, v.log)
    && (forall j | 0 <= j < |v.log| :: v.log[j].id == v.ring.done[j])
  }

  ghost predicate CookiesOk(v: View) {
    && (forall h | h in v.owed :: h in v.ring.chains)
    && (forall h | h in v.ring.chains :: h < |v.cookie| && v.cookie[h] == if h in v.owed then Some(v.owed[h]) else None)
  }

  ghost predicate Ok(v: View) {
    && Shapes(v) && Counters(v) && RingsOk(v) && CookiesOk(v)
    && Partition(v.ring, v.num) && |v.ring.free| == v.availCount && Linked(v.desc, v.availHead, v.ring)
  }

  // ---- what each operation does to it ----

  function HostTakes(v: View): View
    requires v.ring.posted != []
  {
    v.(ring := Take(v.ring))
  }

  function HostReturns(v: View, head: nat, len: nat): View
    requires v.num == |v.used| > 0
  {
    v.(used := v.used[v.usedIdx % v.num := UsedElem(head, len)], usedIdx := (v.usedIdx + 1) % WRAP,
       ring := Return(v.ring, head), log := v.log + [UsedElem(head, len)], rets := v.rets + 1)
  }

  // get_buf_elem(): the next entry of the used ring, and the cookie of its head, taken out
  function Fetch(v: View): View
    requires v.finished < |v.log| && v.log[v.finished].id < |v.cookie|
  {
    var h := v.log[v.finished].id;
    v.(cookie := v.cookie[h := None], owed := v.owed - {h})
  }

  // get_buf_finalize()
  function Finalize(v: View): View {
    v.(hostHead := (v.hostHead + 1) % WRAP, finished := v.finished + 1)
  }

  // one round of get_buf_gc()
  function GcOne(v: View): View
    requires v.ring.done != [] && v.ring.done[0] in v.ring.chains && v.log != [] && v.finished > 0
    requires var c := v.ring.chains[v.ring.done[0]]; c != [] && c[|c| - 1] < |v.desc|
  {
    var h := v.ring.done[0];
    var c := v.ring.chains[h];
    var d := c[|c| - 1];
    v.(desc := v.desc[d := v.desc[d].(next := v.availHead)], availHead := h, availCount := v.availCount + |c|,
       guestHead := (v.guestHead + 1) % WRAP,
       ring := Recycle(v.ring), log := v.log[1..], owed := v.owed - {h}, finished := v.finished - 1)
  }

  // the successful part of add_buf(), which has made the descriptors ds
  function Posted(v: View, ds: seq<Desc>, ck: nat, n: nat): View
    requires 0 < n <= |v.ring.free| && v.ring.free[0] < |v.cookie| && v.ring.free[n - 1] < |v.desc|
    requires |v.avail| == v.num > 0 && n <= v.availCount
  {
    var h := v.ring.free[0];
    v.(desc := ds, cookie := v.cookie[h := Some(ck)], added := (v.added + 1) % WRAP, availCount := v.availCount - n,
       avail := v.avail[v.availIdx % v.num := h], availIdx := (v.availIdx + 1) % WRAP,
       availHead := v.desc[v.ring.free[n - 1]].next,
       ring := Post(v.ring, n), owed := v.owed[h := ck], posts := v.posts + 1)
  }

  // The ring sizes the device may give: they divide the range of the counters.
  ghost predicate RingSize(n: nat) {
    0 < n <= 0x8000 && WRAP % n == 0
  }

  lemma AvailPopped(v: View)
    requires RingsOk(v) && v.ring.posted != []
    ensures Holds(v.avail, v.posts - |v.ring.posted| + 1, v.ring.posted[1..])
    ensures v.avail[(v.posts - |v.ring.posted|) % |v.avail|] == v.ring.posted[0]
  {
    HoldsPop(v.avail, v.posts - |v.ring.posted|, v.ring.posted);
  }

  lemma TakenRest(v: View, r: View)
    requires Shapes(v) && Counters(v) && RingsOk(v) && CookiesOk(v) && v.ring.posted != [] && r == HostTakes(v)
    ensures Shapes(r) && Counters(r) && RingsOk(r) && CookiesOk(r)
    ensures v.avail[(v.posts - |v.ring.posted|) % |v.avail|] == v.ring.posted[0]
  {
    AvailPopped(v);
  }

  lemma HostTakesOk(v: View)
    requires Ok(v) && v.ring.posted != []
    ensures Ok(HostTakes(v)) && v.avail[(v.posts - |v.ring.posted|) % |v.avail|] == v.ring.posted[0]
  {
    TakePartition(v.ring, v.num);
    TakenRest(v, HostTakes(v));
  }

  lemma UsedPushed(v: View, r: View, head: nat, len: nat)
    requires Shapes(v) && RingsOk(v) && RingSize(v.num) && |v.log| < v.num && v.usedIdx == v.rets % WRAP
    requires r == HostReturns(v, head, len)
    ensures RingsOk(r)
  {
    PushAt(v.used, v.rets, v.log, v.usedIdx, UsedElem(head, len), WRAP);
  }

  lemma WrapNext(n: nat)
    ensures (n % WRAP + 1) % WRAP == (n + 1) % WRAP
  {
    ShiftMod(n - n % WRAP, n % WRAP + 1, WRAP);
  }

  // The 16-bit counters follow the full ones: the used ring written, read, the available ring written.
  lemma CountReturn(v: View, r: View)
    requires Counters(v)
    requires r.ring.posted == v.ring.posted && |r.ring.done| == |r.log| == |v.log| + 1 && r.finished == v.finished
    requires r.guestHead == v.guestHead && r.hostHead == v.hostHead
    requires r.availIdx == v.availIdx && r.posts == v.posts && r.usedIdx == (v.usedIdx + 1) % WRAP
    requires r.rets == v.rets + 1
    requires r.kicked == v.kicked && r.added == v.added
    ensures Counters(r)
  {
    WrapNext(v.rets);
  }

  lemma CountGc(v: View, r: View)
    requires Counters(v) && v.finished > 0
    requires r.ring.posted == v.ring.posted && |r.ring.done| == |r.log| == |v.log| - 1 && r.finished == v.finished - 1
    requires r.guestHead == (v.guestHead + 1) % WRAP && r.hostHead == v.hostHead
    requires r.availIdx == v.availIdx && r.usedIdx == v.usedIdx && r.posts == v.posts && r.rets == v.rets
    requires r.kicked == v.kicked && r.added == v.added
    ensures Counters(r)
  {
    WrapNext(v.rets - |v.log|);
  }

  lemma CountPost(v: View, r: View)
    requires Counters(v)
    requires |r.ring.posted| == |v.ring.posted| + 1 && r.ring.done == v.ring.done && r.log == v.log
    requires r.finished == v.finished && r.guestHead == v.guestHead && r.hostHead == v.hostHead
    requires r.availIdx == (v.availIdx + 1) % WRAP && r.posts == v.posts + 1 && r.usedIdx == v.usedIdx
    requires r.rets == v.rets
    requires r.kicked == v.kicked && r.added == (v.added + 1) % WRAP
    ensures Counters(r)
  {
    WrapNext(v.posts);
    WrapNext(v.posts - v.kicked);
  }

  lemma ReturnedRings(v: View, r: View, head: nat, len: nat)
    requires Shapes(v) && Counters(v) && RingsOk(v) && RingSize(v.num) && |v.log| < v.num
    requires r == HostReturns(v, head, len)
    ensures Counters(r) && RingsOk(r)
  {
    UsedPushed(v, r, head, len);
    CountReturn(v, r);
  }

  lemma HostReturnsOk(v: View, r: View, head: nat, len: nat)
    requires Ok(v) && RingSize(v.num) && head in v.ring.inflight && r == HostReturns(v, head, len)
    ensures Ok(r)
  {
    ReturnPartition(v.ring, v.num, head);
    PartitionBounds(r.ring, v.num);
    ReturnedRings(v, r, head, len);
  }

  lemma FetchHead(v: View)
    requires Ok(v) && v.finished < |v.log|
    ensures v.log[v.finished].id in v.ring.chains && v.log[v.finished].id < |v.cookie|
  {
    PartitionBounds(v.ring, v.num);
    assert v.ring.done[v.finished] in v.ring.done;
  }

  lemma FetchCookies(v: View, r: View)
    requires CookiesOk(v) && v.finished < |v.log| && v.log[v.finished].id < |v.cookie| && r == Fetch(v)
    ensures CookiesOk(r)
  {
  }

  lemma FetchRest(v: View, r: View)
    requires Shapes(v) && Counters(v) && RingsOk(v) && |r.cookie| == |v.cookie|
    requires r == v.(cookie := r.cookie, owed := r.owed)
    ensures Shapes(r) && Counters(r) && RingsOk(r)
  {
  }

  lemma FetchOk(v: View)
    requires Ok(v) && v.finished < |v.log|
    ensures v.log[v.finished].id in v.ring.chains && v.log[v.finished].id < |v.cookie| && Ok(Fetch(v))
  {
    FetchHead(v);
    var r := Fetch(v);
    FetchCookies(v, r);
    FetchRest(v, r);
    assert r.ring == v.ring && r.num == v.num && r.desc == v.desc && r.availHead == v.availHead;
  }

  lemma CountFinish(v: View, r: View)
    requires Counters(v) && v.finished < |v.log| && r == Finalize(v)
    ensures Counters(r)
  {
    WrapNext(v.rets - |v.log| + v.finished);
  }

  lemma FinalizeOk(v: View)
    requires Ok(v) && v.finished < |v.log|
    ensures Ok(Finalize(v))
  {
    CountFinish(v, Finalize(v));
  }

  lemma UsedPopped(v: View)
    requires Shapes(v) && RingsOk(v) && RingSize(v.num) && v.guestHead == (v.rets - |v.log|) % WRAP && v.log != []
    ensures Holds(v.used, v.rets - |v.log[1..]|, v.log[1..]) && v.used[v.guestHead % v.num].id == v.ring.done[0]
  {
    PopAt(v.used, v.rets - |v.log|, v.log, v.guestHead, WRAP);
  }

  // The head of the oldest entry, and its chain.
  lemma GcHead(v: View)
    requires Ok(v) && v.finished > 0
    ensures v.ring.done != [] && v.ring.done[0] in v.ring.chains && v.log != []
    ensures var c := v.ring.chains[v.ring.done[0]]; c != [] && c[|c| - 1] < |v.desc|
  {
    var h := v.ring.done[0];
    assert h in v.ring.done;
    var c := v.ring.chains[h];
    assert c[|c| - 1] in c;
  }

  ghost predicate IsGc(v: View, r: View) {
    && v.finished > 0 && v.ring.done != [] && v.ring.done[0] in v.ring.chains && v.log != []
    && (var c := v.ring.chains[v.ring.done[0]]; c != [] && c[|c| - 1] < |v.desc|)
    && r == GcOne(v)
  }

  lemma GcRings(v: View, r: View)
    requires Shapes(v) && Counters(v) && RingsOk(v) && RingSize(v.num) && IsGc(v, r)
    ensures RingsOk(r) && Counters(r) && v.used[v.guestHead % v.num].id == v.ring.done[0]
  {
    UsedPopped(v);
    CountGc(v, r);
  }

  lemma GcCookies(v: View, r: View)
    requires CookiesOk(v) && IsGc(v, r)
    ensures CookiesOk(r)
  {
  }

  lemma GcOneOk(v: View)
    requires Ok(v) && RingSize(v.num) && v.finished > 0
    ensures v.ring.done != [] && v.ring.done[0] in v.ring.chains && v.log != []
    ensures var c := v.ring.chains[v.ring.done[0]]; c != [] && c[|c| - 1] < |v.desc|
    ensures Ok(GcOne(v)) && v.used[v.guestHead % v.num].id == v.ring.done[0]
  {
    GcHead(v);
    RecyclePartition(v.ring, v.num);
    RecycleLinked(v.desc, v.availHead, v.ring, v.num);
    GcRings(v, GcOne(v));
    GcCookies(v, GcOne(v));
  }

  lemma AvailPushed(v: View, v': View, ds: seq<Desc>, ck: nat, n: nat)
    requires Shapes(v) && RingsOk(v) && RingSize(v.num) && |v.ring.posted| < v.num && v.availIdx == v.posts % WRAP
    requires 0 < n <= |v.ring.free| && v.ring.free[0] < |v.cookie| && v.ring.free[n - 1] < |v.desc| && n <= v.availCount
    requires v' == Posted(v, ds, ck, n)
    ensures RingsOk(v')
  {
    PushAt(v.avail, v.posts, v.ring.posted, v.availIdx, v.ring.free[0], WRAP);
  }

  lemma PostedCookies(v: View, r: View, ds: seq<Desc>, ck: nat, n: nat)
    requires CookiesOk(v) && 0 < n <= |v.ring.free| && n <= v.availCount && v.ring.free[n - 1] < |v.desc|
    requires |v.avail| == v.num > 0 && v.ring.free[0] < |v.cookie| && r == Posted(v, ds, ck, n)
    ensures CookiesOk(r)
  {
  }

  lemma PostedParts(v: View, r: View, ds: seq<Desc>, ck: nat, sgs: seq<Sg>)
    requires Ok(v) && 0 < |sgs| <= v.availCount && FilledUpTo(v.desc, ds, v.ring.free, sgs, |sgs|, true)
    requires v.ring.free[0] < v.num && v.ring.free[|sgs| - 1] < v.num && r == Posted(v, ds, ck, |sgs|)
    ensures Partition(r.ring, v.num) && Linked(ds, r.availHead, r.ring) && CookiesOk(r) && |v.ring.posted| < v.num
    ensures v.ring.free[0] !in v.ring.chains
  {
    PostPartition(v.ring, v.num, |sgs|);
    PostLinked(v.desc, ds, v.availHead, v.ring, sgs, v.num);
    PartitionBounds(r.ring, v.num);
    PostedCookies(v, r, ds, ck, |sgs|);
  }

  lemma CountPosted(v: View, r: View, ds: seq<Desc>, ck: nat, n: nat)
    requires Counters(v) && 0 < n <= |v.ring.free| && n <= v.availCount && v.ring.free[0] < |v.cookie|
    requires v.ring.free[n - 1] < |v.desc|
    requires |v.avail| == v.num > 0 && r == Posted(v, ds, ck, n)
    ensures Counters(r)
  {
    CountPost(v, r);
  }

  lemma PostedOk(v: View, ds: seq<Desc>, ck: nat, sgs: seq<Sg>)
    requires Ok(v) && RingSize(v.num) && 0 < |sgs| <= v.availCount
    requires FilledUpTo(v.desc, ds, v.ring.free, sgs, |sgs|, true)
    ensures v.ring.free[0] < v.num && v.ring.free[|sgs| - 1] < v.num && v.ring.free[0] !in v.ring.chains
    ensures Ok(Posted(v, ds, ck, |sgs|))
  {
    assert v.ring.free[0] in v.ring.free && v.ring.free[|sgs| - 1] in v.ring.free;
    var r := Posted(v, ds, ck, |sgs|);
    PostedParts(v, r, ds, ck, sgs);
    AvailPushed(v, r, ds, ck, |sgs|);
    CountPosted(v, r, ds, ck, |sgs|);
  }

  // ---- recycling everything the upper layer has finished with ----

  ghost function Gc(v: View): (r: View)
    requires Ok(v) && RingSize(v.num) && v.finished > 0
    ensures Ok(r) && r.num == v.num && r.finished == v.finished - 1
  {
    GcOneOk(v);
    GcOne(v)
  }

  // What a round changes in memory.
  lemma GcFields(v: View, r: View)
    requires Ok(v) && RingSize(v.num) && v.finished > 0 && r == Gc(v)
    ensures v.ring.done != [] && v.ring.done[0] in v.ring.chains
    ensures var h, c := v.ring.done[0], v.ring.chains[v.ring.done[0]];
            && c != [] && c[|c| - 1] < |v.desc|
            && r == v.(desc := v.desc[c[|c| - 1] := v.desc[c[|c| - 1]].(next := v.availHead)], availHead := h,
                       availCount := v.availCount + |c|, guestHead := (v.guestHead + 1) % WRAP,
                       ring := r.ring, log := r.log, owed := r.owed, finished := r.finished)
  {
    GcOneOk(v);
  }

  ghost function Collect(v: View): (r: View)
    requires Ok(v) && RingSize(v.num)
    ensures Ok(r) && r.finished == 0 && r.num == v.num
    decreases v.finished
  {
    if v.finished == 0 then v else Collect(Gc(v))
  }

  lemma NothingFinished(v: View)
    requires Counters(v) && v.num < WRAP && |v.log| <= v.num
    ensures v.guestHead == v.hostHead <==> v.finished == 0
  {
    WrapEqual(v.rets - |v.log|, v.rets - |v.log| + v.finished);
  }

  // The descriptors in the chains of the given heads.
  ghost function Lengths(chains: map<nat, seq<nat>>, heads: seq<nat>): (n: nat)
    requires forall h | h in heads :: h in chains && |chains[h]| > 0
    ensures n >= |heads|
  {
    if heads == [] then 0 else |chains[heads[0]]| + Lengths(chains, heads[1..])
  }

  lemma {:induction false} LengthsKeep(chains: map<nat, seq<nat>>, fewer: map<nat, seq<nat>>, heads: seq<nat>)
    requires forall h | h in heads :: h in fewer && h in chains && |chains[h]| > 0 && fewer[h] == chains[h]
    ensures Lengths(fewer, heads) == Lengths(chains, heads)
  {
    if heads != [] {
      assert heads[0] in heads;
      assert forall h | h in heads[1..] :: h in heads;
      LengthsKeep(chains, fewer, heads[1..]);
    }
  }

  lemma LengthsFirst(chains: map<nat, seq<nat>>, done: seq<nat>, n: nat)
    requires 0 < n <= |done| && Distinct(done) && forall h | h in done[..n] :: h in chains && |chains[h]| > 0
    ensures var fewer := chains - {done[0]};
            && (forall h | h in done[1..][..n - 1] :: h in fewer && |fewer[h]| > 0)
            && Lengths(chains, done[..n]) == |chains[done[0]]| + Lengths(fewer, done[1..][..n - 1])
  {
    assert done[..n][1..] == done[1..][..n - 1];
    forall h | h in done[1..][..n - 1] ensures h in done[..n] && h != done[0] {
      var j :| 0 <= j < n - 1 && done[1..][..n - 1][j] == h;
      assert done[..n][j + 1] == h;
    }
    LengthsKeep(chains, chains - {done[0]}, done[1..][..n - 1]);
  }

  lemma DoneHeads(v: View)
    requires Ok(v)
    ensures forall h | h in v.ring.done[..v.finished] :: h in v.ring.chains && |v.ring.chains[h]| > 0
  {
    forall h | h in v.ring.done[..v.finished] ensures h in v.ring.chains && |v.ring.chains[h]| > 0 {
      assert h in v.ring.done;
    }
  }

  lemma GcRing(v: View, r: View)
    requires Ok(v) && RingSize(v.num) && v.finished > 0 && r == Gc(v)
    ensures v.ring.done[0] in v.ring.chains && r.availCount == v.availCount + |v.ring.chains[v.ring.done[0]]|
    ensures r.ring.posted == v.ring.posted && r.ring.inflight == v.ring.inflight
    ensures r.ring.done == v.ring.done[1..] && r.ring.chains == v.ring.chains - {v.ring.done[0]} && r.log == v.log[1..]
    ensures r.availIdx == v.availIdx && r.posts == v.posts && r.cookie == v.cookie
  {
    GcOneOk(v);
  }

  lemma CountFirst(v: View, g: View)
    requires Ok(v) && RingSize(v.num) && v.finished > 0 && g == Gc(v)
    requires forall h | h in v.ring.done[..v.finished] :: h in v.ring.chains && |v.ring.chains[h]| > 0
    ensures g.finished <= |g.ring.done|
    ensures forall h | h in g.ring.done[..g.finished] :: h in g.ring.chains && |g.ring.chains[h]| > 0
    ensures v.availCount + Lengths(v.ring.chains, v.ring.done[..v.finished]) ==
            g.availCount + Lengths(g.ring.chains, g.ring.done[..g.finished])
  {
    GcRing(v, g);
    LengthsFirst(v.ring.chains, v.ring.done, v.finished);
  }

  lemma {:induction false} CollectCount(v: View)
    requires Ok(v) && RingSize(v.num)
    requires forall h | h in v.ring.done[..v.finished] :: h in v.ring.chains && |v.ring.chains[h]| > 0
    ensures Collect(v).availCount == v.availCount + Lengths(v.ring.chains, v.ring.done[..v.finished])
    decreases v.finished
  {
    if v.finished > 0 {
      var g := Gc(v);
      CountFirst(v, g);
      CollectCount(g);
    }
  }

  lemma {:induction false} CollectKeeps(v: View)
    requires Ok(v) && RingSize(v.num)
    ensures Collect(v).ring.posted == v.ring.posted && Collect(v).ring.inflight == v.ring.inflight
    ensures Collect(v).ring.done == v.ring.done[v.finished..] && Collect(v).log == v.log[v.finished..]
    ensures Collect(v).availIdx == v.availIdx && Collect(v).posts == v.posts && Collect(v).cookie == v.cookie
    decreases v.finished
  {
    if v.finished > 0 {
      GcRing(v, Gc(v));
      CollectKeeps(Gc(v));
    }
  }

  /** Exactly the chains of the finished heads come back to the free list; what is posted,
      in the host's hands or returned and not finished stays as it was. */
  lemma CollectFrees(v: View)
    requires Ok(v) && RingSize(v.num)
    ensures forall h | h in v.ring.done[..v.finished] :: h in v.ring.chains && |v.ring.chains[h]| > 0
    ensures Collect(v).availCount == v.availCount + Lengths(v.ring.chains, v.ring.done[..v.finished])
    ensures Collect(v).ring.posted == v.ring.posted && Collect(v).ring.inflight == v.ring.inflight
    ensures Collect(v).ring.done == v.ring.done[v.finished..] && Collect(v).log == v.log[v.finished..]
    ensures Collect(v).availIdx == v.availIdx && Collect(v).posts == v.posts && Collect(v).cookie == v.cookie
  {
    DoneHeads(v);
    CollectCount(v);
    CollectKeeps(v);
  }

  // ---- room, and kicking ----

  /** The free descriptors plus one for each entry to be recycled never promise more
      than recycling will give. */
  lemma RoomIsReal(v: View)
    requires Ok(v) && RingSize(v.num)
    ensures v.availCount + v.finished <= Collect(v).availCount <= v.num
  {
    CollectFrees(v);
    PartitionBounds(Collect(v).ring, v.num);
  }

  lemma RoomCount(v: View)
    requires Counters(v) && v.availCount + v.finished < WRAP
    ensures (v.availCount + v.hostHead - v.guestHead) % WRAP == v.availCount + v.finished
  {
    WrapEqual(v.rets - |v.log|, v.rets - |v.log| + v.finished);
  }

  // used_ring_is_half_empty() compares without reducing to 16 bits, so that it says only
  // whether the host's counter has wrapped where the driver's has not.
  lemma HalfEmptyMeansWrapped(v: View)
    requires Ok(v) && RingSize(v.num)
    ensures v.hostHead - v.usedIdx > v.num / 2
       <==> (v.rets - |v.log| + v.finished) / WRAP < v.rets / WRAP
  {
    PartitionBounds(v.ring, v.num);
    Straddle(v.rets - |v.log| + v.finished, v.rets, v.num);
  }

  lemma Straddle(a: nat, b: nat, num: nat)
    requires a <= b <= a + num && num <= 0x8000
    ensures a % WRAP - b % WRAP > num / 2 <==> a / WRAP < b / WRAP
  {
  }

  // What kick() reads of the device: whether the event index is negotiated, the index, the no-notify flag.
  datatype Device = Device(eventIdx: bool, event: nat, silent: bool)

  predicate Kicks(v: View, dev: Device) {
    if dev.eventIdx then (v.availIdx - dev.event - 1) % WRAP < v.added else !dev.silent
  }

  function Kicked(v: View, dev: Device): View {
    if Kicks(v, dev) then v.(added := 0, kicked := v.posts) else v
  }

  lemma KickedOk(v: View, dev: Device)
    requires Ok(v)
    ensures Ok(Kicked(v, dev))
  {
  }

  // The host asked to be told about one of the entries from..to (section 2.4.7.2 of VIRTIO 1.0).
  ghost predicate Asked(from: nat, to: nat, event: nat) {
    exists k: nat :: from <= k < to && k % WRAP == event
  }

  lemma BackDistance(posts: nat, event: nat)
    requires event < WRAP
    ensures (posts % WRAP - event - 1) % WRAP == (posts - 1 - event) % WRAP
  {
  }

  lemma BackEntry(posts: nat, event: nat, back: nat)
    requires event < WRAP && back == (posts - 1 - event) % WRAP && back < posts
    ensures (posts - 1 - back) % WRAP == event
  {
  }

  lemma BackExact(posts: nat, k: nat)
    requires k < posts <= k + WRAP
    ensures (posts - 1 - k % WRAP) % WRAP == posts - 1 - k
  {
  }

  // Counting back from the last of the entries finds the one asked about.
  lemma AskedBack(posts: nat, n: nat, event: nat)
    requires event < WRAP && n <= posts && n <= WRAP
    ensures (posts - 1 - event) % WRAP < n <==> Asked(posts - n, posts, event)
  {
    var back := (posts - 1 - event) % WRAP;
    if back < n {
      BackEntry(posts, event, back);
      assert posts - n <= posts - 1 - back < posts;
    }
    if k: nat :| posts - n <= k < posts && k % WRAP == event {
      BackExact(posts, k);
    }
  }

  // Among 2^16 entries there is one of each number.
  lemma AskedLong(from: nat, to: nat, event: nat)
    requires from + WRAP <= to && event < WRAP
    ensures Asked(from, to, event)
  {
    BackDistance(to, event);
    AskedBack(to, WRAP, event);
    var k: nat :| to - WRAP <= k < to && k % WRAP == event;
    assert from <= k;
  }

  /** With the event index, as long as fewer than 2^16 entries were added since the last
      kick, the device is kicked exactly when the entry it asked about is among them.
      After 2^16 or more it is always among them, and the device is kicked if and only if
      it is among the last of them: the count of the additions has wrapped. */
  lemma KickIsExact(v: View, dev: Device)
    requires Counters(v) && dev.eventIdx && dev.event < WRAP
    ensures v.posts - v.kicked < WRAP ==> (Kicks(v, dev) <==> Asked(v.kicked, v.posts, dev.event))
    ensures v.posts - v.kicked >= WRAP ==>
              && Asked(v.kicked, v.posts, dev.event)
              && (Kicks(v, dev) <==> Asked(v.posts - (v.posts - v.kicked) % WRAP, v.posts, dev.event))
  {
    BackDistance(v.posts, dev.event);
    AskedBack(v.posts, v.added, dev.event);
    if v.posts - v.kicked >= WRAP {
      AskedLong(v.kicked, v.posts, dev.event);
    }
  }

  // ---- the result of add_buf(), and what get_buf_elem() reads ----

  /** The segments are in the chain of a free head, in order: one that is not posted, with the
      host, or returned and not yet recycled. It is the newest of the posted ones, owing the
      cookie; all other descriptors and cookies are as they were. */
  ghost predicate Adds(v: View, r: View, ck: nat, sgs: seq<Sg>) {
    && 0 < |sgs| <= |v.ring.free| && |sgs| <= v.availCount && |v.avail| == v.num > 0
    && FilledUpTo(v.desc, r.desc, v.ring.free, sgs, |sgs|, true)
    && v.ring.free[0] < |v.cookie| && v.ring.free[0] !in v.ring.chains
    && r == Posted(v, r.desc, ck, |sgs|)
  }

  lemma FreeHead(v: View)
    requires Ok(v) && v.availCount > 0
    ensures v.availHead == v.ring.free[0] < v.num
  {
    assert v.ring.free[0] in v.ring.free;
  }

  lemma NothingReturned(v: View)
    requires Ok(v) && RingSize(v.num)
    ensures v.hostHead == v.usedIdx <==> v.finished == |v.log|
    ensures v.finished < |v.log| ==> v.used[v.hostHead % v.num] == v.log[v.finished]
  {
    var first := v.rets - |v.log|;
    PartitionBounds(v.ring, v.num);
    WrapEqual(first + v.finished, v.rets);
    WrapIndex(first + v.finished, v.num, WRAP);
    if v.finished < |v.log| {
      assert v.used[(first + v.finished) % |v.used|] == v.log[v.finished];
    }
  }

  // ---- a new queue ----

  ghost predicate Fresh(v: View) {
    && 0 < v.num <= 0x8000
    && |v.desc| == v.num && |v.cookie| == v.num && |v.avail| == v.num && |v.used| == v.num
    && (forall i | 0 <= i < v.num :: v.desc[i].next == if i + 1 < v.num then i + 1 else 0)
    && v.availHead == 0 && v.availCount == v.num && v.availIdx == 0 && v.usedIdx == 0 && v.hostHead == 0
    && v.guestHead == 0 && v.added == 0 && v.ring == Ring(seq(v.num, i => i), map[], [], {}, [])
    && v.log == [] && v.owed == map[] && v.posts == 0 && v.rets == 0 && v.finished == 0 && v.kicked == 0
  }

  lemma FreshOk(v: View)
    requires Fresh(v)
    ensures Ok(v)
  {
    forall d: nat | d < v.num ensures d in v.ring.free {
      assert v.ring.free[d] == d;
    }
    assert Linked(v.desc, v.availHead, v.ring);
    assert Partition(v.ring, v.num);
  }

  // ---- the driver's object ----

  // ---- an input for which the counters have wrapped ----

  // A ring of one descriptor after 2^16 postings, all returned, the last one unread, and no kick.
  function LongRun(): View {
    var e := UsedElem(0, 0);
    View(1, [Desc(0, false, false, 0, 0)], [Some(0)], [0], [e], 0, 0, 0, 0, WRAP - 1, WRAP - 1, 0,
         Ring([], map[0 := [0]], [], {}, [0]), [e], map[0 := 0], WRAP, WRAP, 0, 0)
  }

  lemma LongRunOk()
    ensures Ok(LongRun()) && RingSize(LongRun().num)
  {
    OneChain(0);
  }

  lemma OneChain(h: nat)
    requires h == 0
    ensures Partition(Ring([], map[h := [h]], [], {}, [h]), 1)
  {
    assert h in map[h := [h]] && h in [h];
    assert InChain(map[h := [h]], h);
  }

  /** Each entry was added since the last kick, so the one asked about was, and the host is not kicked. */
  lemma KickMissed()
    ensures var v, dev := LongRun(), Device(true, 0, false);
            Ok(v) && Asked(v.kicked, v.posts, dev.event) && !Kicks(v, dev)
  {
    LongRunOk();
    KickIsExact(LongRun(), Device(true, 0, false));
  }

  /** The one entry of the used ring is unread, and the ring is called half empty. */
  lemma FullCalledHalfEmpty()
    ensures var v := LongRun();
            Ok(v) && |v.log| == v.num && v.finished == 0 && v.hostHead - v.usedIdx > v.num / 2
  {
    LongRunOk();
  }

  class VirtQueue {
    const num: nat
    const desc: array<Desc>
    const cookie: array<Option<nat>>
    const availRing: array<nat>
    const usedRing: array<UsedElem>
    var availHead: nat
    var availCount: nat
    var availIdx: nat
    var usedIdx: nat
    var hostHead: nat
    var guestHead: nat
    var addedSinceKick: nat
    var usedEvent: nat                  // shared with the host, which interrupts when it returns that entry
    ghost var view: View

    ghost predicate Reflects()
      reads this, desc, cookie, availRing, usedRing
    {
      && view.num == num && view.desc == desc[..] && view.cookie == cookie[..]
      && view.avail == availRing[..] && view.used == usedRing[..]
      && view.availHead == availHead && view.availCount == availCount && view.availIdx == availIdx
      && view.usedIdx == usedIdx && view.hostHead == hostHead && view.guestHead == guestHead
      && view.added == addedSinceKick
    }

    ghost predicate Valid()
      reads this, desc, cookie, availRing, usedRing
    {
      RingSize(num) && Reflects() && Ok(view)
    }

    constructor (n: nat)
      requires RingSize(n)
      ensures Valid() && Fresh(view) && num == n
      ensures fresh(desc) && fresh(cookie) && fresh(availRing) && fresh(usedRing)
    {
      var d := new Desc[n];
      for i := 0 to n
        invariant forall j | 0 <= j < i :: d[j].next == j + 1
      {
        d[i] := Desc(i + 1, false, false, 0, 0);
      }
      d[n - 1] := d[n - 1].(next := 0);
      var c := new Option<nat>[n];
      var a := new nat[n](_ => 0);
      var u := new UsedElem[n](_ => UsedElem(0, 0));
      num, desc, cookie, availRing, usedRing := n, d, c, a, u;
      availHead, availCount, availIdx, usedIdx, hostHead, guestHead, addedSinceKick := 0, n, 0, 0, 0, 0, 0;
      usedEvent := 0;
      view := View(n, d[..], c[..], a[..], u[..], 0, n, 0, 0, 0, 0, 0,
                   Ring(seq(n, i => i), map[], [], {}, []), [], map[], 0, 0, 0, 0);
      new;
      FreshOk(view);
    }

    // The host takes a posted head, and later returns it.
    ghost method HostTake()
      requires Valid() && view.ring.posted != []
      modifies this`view
      ensures Valid() && view == HostTakes(old(view))
    {
      HostTakesOk(view);
      view := HostTakes(view);
    }

    method HostReturn(head: nat, len: nat)
      requires Valid() && head in view.ring.inflight
      modifies this, usedRing
      ensures Valid() && view == HostReturns(old(view), head, len)
    {
      HostReturnsOk(view, HostReturns(view, head, len), head, len);
      usedRing[usedIdx % num] := UsedElem(head, len);
      usedIdx := (usedIdx + 1) % WRAP;
      view := HostReturns(view, head, len);
    }

    method GetBufFinalize(interruptOn: bool)
      requires Valid() && view.finished < |view.log|
      modifies this
      ensures Valid() && view == Finalize(old(view))
      ensures usedEvent == if interruptOn then (view.rets - |view.log| + view.finished) % WRAP else old(usedEvent)
    {
      FinalizeOk(view);
      hostHead := (hostHead + 1) % WRAP;
      view := Finalize(view);
      if interruptOn {
        usedEvent := hostHead;
      }
    }

    // The last descriptor of the chain at idx, and how many there are.
    method WalkChain(idx: nat, ghost c: seq<nat>) returns (last: nat, n: nat)
      requires c != [] && c[0] == idx && ChainLinked(desc[..], c)
      ensures last == c[|c| - 1] && n == |c|
    {
      last, n := idx, 1;
      while desc[last].more
        invariant 0 < n <= |c| && last == c[n - 1] && last < desc.Length
        decreases |c| - n
      {
        last := desc[last].next;
        n := n + 1;
      }
    }

    // The oldest entry of the used ring that was not recycled, and the end and length of its chain.
    method OldestUsed() returns (head: nat, last: nat, n: nat)
      requires Valid() && view.finished > 0
      ensures view.ring.done != [] && head == view.ring.done[0] && head in view.ring.chains
      ensures var c := view.ring.chains[head]; c != [] && last == c[|c| - 1] && last < desc.Length && n == |c|
    {
      GcOneOk(view);
      head := usedRing[guestHead % num].id;
      last, n := WalkChain(head, view.ring.chains[head]);
    }

    // Gives the chain from head to last, n descriptors long, back to the free list.
    method Relink(head: nat, last: nat, n: nat, ghost r: View)
      requires Reflects() && last < desc.Length
      requires r == view.(desc := view.desc[last := view.desc[last].(next := view.availHead)], availHead := head,
                          availCount := view.availCount + n, guestHead := (view.guestHead + 1) % WRAP,
                          ring := r.ring, log := r.log, owed := r.owed, finished := r.finished)
      modifies desc, this`guestHead, this`availCount, this`availHead, this`view
      ensures Reflects() && view == r
    {
      guestHead := (guestHead + 1) % WRAP;
      availCount := availCount + n;
      desc[last] := desc[last].(next := availHead);
      availHead := head;
      view := r;
    }

    method GcRound()
      requires Valid() && view.finished > 0
      modifies this, desc
      ensures Valid() && view == Gc(old(view))
    {
      ghost var r := Gc(view);
      var head, last, n := OldestUsed();
      GcFields(view, r);
      Relink(head, last, n, r);
    }

    method GetBufGc()
      requires Valid()
      modifies this, desc
      ensures Valid() && view == Collect(old(view))
    {
      PartitionBounds(view.ring, num);
      NothingFinished(view);
      while guestHead != hostHead
        invariant Valid() && Collect(view) == Collect(old(view))
        invariant guestHead == hostHead <==> view.finished == 0
        decreases view.finished
      {
        GcRound();
        PartitionBounds(view.ring, num);
        NothingFinished(view);
      }
    }

    // Kicks the device unless it asked not to be; what dev holds is in the memory shared with it.
    method Kick(dev: Device) returns (kicked: bool)
      requires Valid()
      modifies this`addedSinceKick, this`view
      ensures Valid() && view == Kicked(old(view), dev)
      ensures kicked <==> Kicks(old(view), dev)
    {
      KickedOk(view, dev);
      kicked := true;
      if dev.eventIdx {
        kicked := (availIdx - dev.event - 1) % WRAP < addedSinceKick;
      } else if dev.silent {
        return false;
      }
      view := Kicked(view, dev);
      if kicked {
        addedSinceKick := 0;
      }
    }

    // Fills the first free descriptors from the segments; the next free one after them.
    method FillChain(sgs: seq<Sg>, ghost free: seq<nat>) returns (idx: nat)
      requires 0 < |sgs| <= |free| && Distinct(free) && FreeLinked(desc[..], availHead, free)
      modifies desc
      ensures FilledUpTo(old(desc[..]), desc[..], free, sgs, |sgs|, true)
      ensures idx == old(desc[..])[free[|sgs| - 1]].next
    {
      ghost var was := desc[..];
      idx := availHead;
      var prev := 0;
      for i := 0 to |sgs|
        invariant FilledUpTo(was, desc[..], free, sgs, i, false)
        invariant i < |free| && i < |sgs| ==> idx == free[i]
        invariant i > 0 ==> prev == free[i - 1] && idx == was[free[i - 1]].next
      {
        FillOne(was, desc[..], free, sgs, i);
        prev := idx;
        desc[idx] := Desc(desc[idx].next, true, sgs[i].write, sgs[i].paddr, sgs[i].len);
        idx := desc[idx].next;
      }
      CloseLast(was, desc[..], free, sgs, |sgs|);
      desc[prev] := desc[prev].(more := false);
    }

    // The fields are those of the view, but for the descriptors.
    ghost predicate ReflectsBut(ds: seq<Desc>)
      reads this, desc, cookie, availRing, usedRing
    {
      && view.num == num && desc[..] == ds && view.cookie == cookie[..]
      && view.avail == availRing[..] && view.used == usedRing[..]
      && view.availHead == availHead && view.availCount == availCount && view.availIdx == availIdx
      && view.usedIdx == usedIdx && view.hostHead == hostHead && view.guestHead == guestHead
      && view.added == addedSinceKick
    }

    // The bookkeeping of add_buf() after the descriptors are filled.
    method Publish(ck: nat, n: nat, next: nat)
      requires ReflectsBut(desc[..]) && num == |view.avail| > 0 && 0 < n <= |view.ring.free| && n <= availCount
      requires view.ring.free[0] == availHead < |view.cookie| && view.ring.free[n - 1] < |view.desc|
      requires next == view.desc[view.ring.free[n - 1]].next
      modifies this, cookie, availRing
      ensures Reflects() && view == Posted(old(view), desc[..], ck, n)
    {
      ghost var v := view;
      cookie[availHead] := Some(ck);
      addedSinceKick := (addedSinceKick + 1) % WRAP;
      availCount := availCount - n;
      availRing[availIdx % num] := availHead;
      availIdx := (availIdx + 1) % WRAP;
      availHead := next;
      view := Posted(v, desc[..], ck, n);
    }

    method PostChain(ck: nat, sgs: seq<Sg>)
      requires Valid() && 0 < |sgs| <= availCount
      modifies this, desc, cookie, availRing
      ensures Valid() && Adds(old(view), view, ck, sgs)
    {
      ghost var v := view;
      FreeHead(v);
      var next := FillChain(sgs, v.ring.free);
      ghost var ds := desc[..];
      PostedOk(v, ds, ck, sgs);
      Publish(ck, |sgs|, next);
    }

    method AddBuf(ck: nat, sgs: seq<Sg>, dev: Device) returns (ok: bool)
      requires Valid() && sgs != []
      modifies this, desc, cookie, availRing
      ensures Valid() && (ok <==> |sgs| <= Collect(old(view)).availCount)
      ensures !ok ==> view == Kicked(Collect(old(view)), dev)
      ensures ok ==> Adds(Collect(old(view)), view, ck, sgs)
    {
      GetBufGc();
      if availCount < |sgs| {
        var _ := Kick(dev);
        return false;
      }
      PostChain(ck, sgs);
      return true;
    }

    method GetBufElem() returns (ck: Option<nat>, len: nat)
      requires Valid()
      modifies this`view, cookie
      ensures Valid()
      ensures old(view.finished) == old(|view.log|) ==> ck == None && view == old(view)
      ensures old(view.finished) < old(|view.log|) ==>
                var e := old(view).log[old(view).finished];
                && len == e.len && ck == (if e.id in old(view).owed then Some(old(view).owed[e.id]) else None)
                && e.id < |old(view).cookie| && view == Fetch(old(view))
    {
      ck, len := None, 0;
      NothingReturned(view);
      if hostHead == usedIdx {
        return;
      }
      FetchOk(view);
      var elem := usedRing[hostHead % num];
      len, ck := elem.len, cookie[elem.id];
      cookie[elem.id] := None;
      view := Fetch(view);
    }

    method EffectiveAvailCount() returns (n: nat)
      requires Valid() && availCount + view.finished <= num
      ensures n == availCount + view.finished
    {
      RoomCount(view);
      n := (availCount + hostHead - guestHead) % WRAP;
    }

    method AvailRingHasRoom(n: nat) returns (room: bool)
      requires Valid()
      ensures room <==> n <= availCount + view.finished
      ensures room ==> n <= Collect(view).availCount
    {
      RoomIsReal(view);
      var count := EffectiveAvailCount();
      room := count >= n;
    }
  }
}
