/**
  The page ranges of core/mempool.cc: a set of free ranges ordered by address, kept
  coalesced, and the pages that CPUs keep for themselves. Addresses are page numbers.
 */
module PageRanges {
  import opened Arith

  const PAGE := 0x1000

  datatype Option<T> = None | Some(value: T)

  // Pages start..start + size.
  datatype Range = Range(start: nat, size: nat) {
    function End(): nat { start + size }
  }

  // ---- the set of ranges ----

  /** In order, none empty, and never two that touch: they would have been merged. */
  ghost predicate Normal(rs: seq<Range>) {
    && (forall i | 0 <= i < |rs| :: rs[i].size > 0)
    && (forall i, j | 0 <= i < j < |rs| :: rs[i].End() < rs[j].start)
  }

  predicate Covers(r: Range, p: nat) {
    r.start <= p < r.End()
  }

  ghost predicate Has(rs: seq<Range>, p: nat) {
    exists i :: 0 <= i < |rs| && Covers(rs[i], p)
  }

  lemma HasFirst(rs: seq<Range>, p: nat)
    requires rs != []
    ensures Has(rs, p) <==> Covers(rs[0], p) || Has(rs[1..], p)
  {
    if Has(rs, p) && !Covers(rs[0], p) {
      var i :| 0 <= i < |rs| && Covers(rs[i], p);
      assert Covers(rs[1..][i - 1], p);
    }
    if Has(rs[1..], p) {
      var i :| 0 <= i < |rs[1..]| && Covers(rs[1..][i], p);
      assert Covers(rs[i + 1], p);
    }
  }

  lemma NormalRest(rs: seq<Range>)
    requires Normal(rs) && rs != []
    ensures Normal(rs[1..]) && forall p: nat | Has(rs[1..], p) :: p > rs[0].End()
  {
  }

  // The least page of a set of ranges is where the first starts; the first free one after it is where it ends.
  lemma FirstDecided(a: seq<Range>, b: seq<Range>)
    requires Normal(a) && Normal(b) && a != [] && forall p :: Has(a, p) <==> Has(b, p)
    ensures b != [] && a[0].start >= b[0].start && (a[0].start == b[0].start ==> a[0].size <= b[0].size)
  {
    HasFirst(a, a[0].start);
    assert Has(b, a[0].start);
    var i :| 0 <= i < |b| && Covers(b[i], a[0].start);
    if a[0].start == b[0].start && a[0].size > b[0].size {
      var e := b[0].End();
      HasFirst(a, e);
      HasFirst(b, e);
      NormalRest(b);
    }
  }

  /** The form is unique: ranges with the same pages are the same ranges. */
  lemma {:induction false} Canonical(a: seq<Range>, b: seq<Range>)
    requires Normal(a) && Normal(b) && forall p :: Has(a, p) <==> Has(b, p)
    ensures a == b
    decreases |a|
  {
    if a == [] {
      if b != [] {
        HasFirst(b, b[0].start);
      }
    } else {
      FirstDecided(a, b);
      FirstDecided(b, a);
      assert a[0] == b[0];
      NormalRest(a);
      NormalRest(b);
      forall p ensures Has(a[1..], p) <==> Has(b[1..], p) {
        HasFirst(a, p);
        HasFirst(b, p);
        assert Has(a, p) <==> Has(b, p);
      }
      Canonical(a[1..], b[1..]);
      assert a == [a[0]] + a[1..] && b == [b[0]] + b[1..];
    }
  }

  // ---- taking pages out, and putting them back ----

  ghost predicate Free(rs: seq<Range>, r: Range) {
    forall p | Covers(r, p) :: Has(rs, p)
  }

  ghost predicate Apart(rs: seq<Range>, r: Range) {
    forall p | Covers(r, p) :: !Has(rs, p)
  }

  /** n is m without the pages of r. */
  ghost predicate Removed(m: seq<Range>, n: seq<Range>, r: Range) {
    forall p :: Has(n, p) <==> Has(m, p) && !Covers(r, p)
  }

  ghost predicate Added(m: seq<Range>, n: seq<Range>, r: Range) {
    forall p :: Has(n, p) <==> Has(m, p) || Covers(r, p)
  }

  // The last n pages of range k.
  function TakeEnd(rs: seq<Range>, k: nat, n: nat): seq<Range>
    requires k < |rs| && n <= rs[k].size
  {
    if n == rs[k].size then rs[..k] + rs[k + 1..] else rs[k := Range(rs[k].start, rs[k].size - n)]
  }

  // Pages in the ranges of a Normal list are in one range only.
  lemma OnlyIn(rs: seq<Range>, k: nat, p: nat)
    requires Normal(rs) && k < |rs| && Covers(rs[k], p)
    ensures forall i | 0 <= i < |rs| && Covers(rs[i], p) :: i == k
  {
  }

  lemma CutPages(rs: seq<Range>, k: nat, p: nat)
    requires Normal(rs) && k < |rs|
    ensures Has(rs[..k] + rs[k + 1..], p) <==> Has(rs, p) && !Covers(rs[k], p)
  {
    var r := rs[..k] + rs[k + 1..];
    assert forall j | 0 <= j < |r| :: r[j] == rs[if j < k then j else j + 1];
    if Has(rs, p) && !Covers(rs[k], p) {
      var i :| 0 <= i < |rs| && Covers(rs[i], p);
      assert Covers(r[if i > k then i - 1 else i], p);
    }
    if Covers(rs[k], p) {
      OnlyIn(rs, k, p);
    }
  }

  lemma ShrinkPages(rs: seq<Range>, k: nat, r: Range, p: nat)
    requires Normal(rs) && k < |rs| && r.start == rs[k].start && r.size <= rs[k].size
    ensures Has(rs[k := r], p) <==> Has(rs, p) && !(r.End() <= p < rs[k].End())
  {
    if Has(rs, p) && !(r.End() <= p < rs[k].End()) {
      var i :| 0 <= i < |rs| && Covers(rs[i], p);
      assert Covers(rs[k := r][i], p);
    }
    if Has(rs[k := r], p) {
      var i :| 0 <= i < |rs| && Covers(rs[k := r][i], p);
      assert Covers(rs[i], p);
      OnlyIn(rs, i, p);
    }
  }

  lemma TakeEndPages(rs: seq<Range>, k: nat, n: nat, p: nat)
    requires Normal(rs) && k < |rs| && 0 < n <= rs[k].size
    ensures Has(TakeEnd(rs, k, n), p) <==> Has(rs, p) && !Covers(Range(rs[k].End() - n, n), p)
  {
    if n == rs[k].size {
      CutPages(rs, k, p);
    } else {
      ShrinkPages(rs, k, Range(rs[k].start, rs[k].size - n), p);
    }
  }

  lemma TakeEndOk(rs: seq<Range>, k: nat, n: nat)
    requires Normal(rs) && k < |rs| && 0 < n <= rs[k].size
    ensures Normal(TakeEnd(rs, k, n)) && Removed(rs, TakeEnd(rs, k, n), Range(rs[k].End() - n, n))
    ensures Free(rs, Range(rs[k].End() - n, n))
  {
    forall p ensures Has(TakeEnd(rs, k, n), p) <==> Has(rs, p) && !Covers(Range(rs[k].End() - n, n), p) {
      TakeEndPages(rs, k, n, p);
    }
    forall p | Covers(Range(rs[k].End() - n, n), p) ensures Has(rs, p) {
      assert Covers(rs[k], p);
    }
  }

  // ---- merging ----

  // Where a range goes: after those that start before it.
  function Place(rs: seq<Range>, start: nat): (k: nat)
    ensures k <= |rs| && (forall j | 0 <= j < k :: rs[j].start < start) && (k < |rs| ==> rs[k].start >= start)
  {
    if rs == [] || rs[0].start >= start then 0 else 1 + Place(rs[1..], start)
  }

  // In order, but neighbours may touch, at the places k - 1 and k only if at all.
  ghost predicate Almost(rs: seq<Range>, k: nat) {
    && (forall i | 0 <= i < |rs| :: rs[i].size > 0)
    && (forall i, j | 0 <= i < j < |rs| :: rs[i].End() <= rs[j].start)
    && (forall i, j | 0 <= i < j < |rs| && i != k && j != k :: rs[i].End() < rs[j].start)
  }

  lemma ApartBefore(rs: seq<Range>, r: Range, j: nat)
    requires Normal(rs) && r.size > 0 && Apart(rs, r) && j < |rs| && rs[j].start < r.start
    ensures rs[j].End() <= r.start
  {
    if rs[j].End() > r.start {
      assert Covers(r, r.start) && Covers(rs[j], r.start);
    }
  }

  lemma ApartAfter(rs: seq<Range>, r: Range, j: nat)
    requires Normal(rs) && r.size > 0 && Apart(rs, r) && j < |rs| && rs[j].start >= r.start
    ensures r.End() <= rs[j].start
  {
    if rs[j].start < r.End() {
      assert Covers(r, rs[j].start) && Covers(rs[j], rs[j].start);
    }
  }

  function Inserted(rs: seq<Range>, k: nat, r: Range): seq<Range>
    requires k <= |rs|
  {
    rs[..k] + [r] + rs[k..]
  }

  lemma InsertedPages(rs: seq<Range>, k: nat, r: Range, p: nat)
    requires k <= |rs|
    ensures Has(Inserted(rs, k, r), p) <==> Has(rs, p) || Covers(r, p)
  {
    var n := Inserted(rs, k, r);
    assert forall i | 0 <= i < |n| :: n[i] == if i < k then rs[i] else if i == k then r else rs[i - 1];
    if Has(rs, p) {
      var i :| 0 <= i < |rs| && Covers(rs[i], p);
      assert Covers(n[if i < k then i else i + 1], p);
    }
    if Covers(r, p) {
      assert Covers(n[k], p);
    }
  }

  lemma InsertedAlmost(rs: seq<Range>, k: nat, r: Range)
    requires Normal(rs) && r.size > 0 && k <= |rs|
    requires (forall j | 0 <= j < k :: rs[j].End() <= r.start) && (forall j | k <= j < |rs| :: r.End() <= rs[j].start)
    ensures Almost(Inserted(rs, k, r), k)
  {
    var n := Inserted(rs, k, r);
    assert forall i | 0 <= i < |n| :: n[i] == if i < k then rs[i] else if i == k then r else rs[i - 1];
    forall i, j | 0 <= i < j < |n| ensures n[i].End() <= n[j].start && (i != k && j != k ==> n[i].End() < n[j].start) {
      var a, b := if i < k then i else i - 1, if j < k then j else j - 1;
      assert i != k && j != k ==> 0 <= a < b < |rs| && n[i] == rs[a] && n[j] == rs[b];
    }
  }

  lemma InsertAlmost(rs: seq<Range>, r: Range)
    requires Normal(rs) && r.size > 0 && Apart(rs, r)
    ensures var n := Inserted(rs, Place(rs, r.start), r); Almost(n, Place(rs, r.start)) && Added(rs, n, r)
  {
    var k := Place(rs, r.start);
    forall j | 0 <= j < k ensures rs[j].End() <= r.start {
      ApartBefore(rs, r, j);
    }
    forall j | k <= j < |rs| ensures r.End() <= rs[j].start {
      assert rs[j].start >= rs[k].start;
      ApartAfter(rs, r, j);
    }
    InsertedAlmost(rs, k, r);
    forall p ensures Has(Inserted(rs, k, r), p) <==> Has(rs, p) || Covers(r, p) {
      InsertedPages(rs, k, r, p);
    }
  }

  // Two neighbours that touch, as one.
  function Joined(rs: seq<Range>, k: nat): seq<Range>
    requires k + 1 < |rs|
  {
    rs[..k] + [Range(rs[k].start, rs[k].size + rs[k + 1].size)] + rs[k + 2..]
  }

  lemma JoinedPages(rs: seq<Range>, k: nat, p: nat)
    requires k + 1 < |rs| && rs[k].End() == rs[k + 1].start
    ensures Has(Joined(rs, k), p) <==> Has(rs, p)
  {
    var n := Joined(rs, k);
    assert forall i | 0 <= i < |n| && i != k :: n[i] == rs[if i < k then i else i + 1];
    if Has(rs, p) {
      var i :| 0 <= i < |rs| && Covers(rs[i], p);
      assert Covers(n[if i <= k then i else i - 1], p);
    }
    if Has(n, p) {
      var i :| 0 <= i < |n| && Covers(n[i], p);
      assert Covers(rs[if i < k then i else if i == k then (if p < rs[k + 1].start then k else k + 1) else i + 1], p);
    }
  }

  // Nothing touches place k from before.
  ghost predicate Half(rs: seq<Range>, k: nat) {
    k < |rs| && Almost(rs, k) && (k > 0 ==> rs[k - 1].End() < rs[k].start)
  }

  lemma JoinBefore(rs: seq<Range>, k: nat)
    requires 0 < k < |rs| && Almost(rs, k) && rs[k - 1].End() == rs[k].start
    ensures Half(Joined(rs, k - 1), k - 1)
  {
    var n := Joined(rs, k - 1);
    assert forall i | 0 <= i < |n| && i != k - 1 :: n[i] == rs[if i < k - 1 then i else i + 1];
  }

  lemma JoinAfter(rs: seq<Range>, k: nat)
    requires k + 1 < |rs| && Half(rs, k) && rs[k].End() == rs[k + 1].start
    ensures Normal(Joined(rs, k))
  {
    var n := Joined(rs, k);
    assert forall i | 0 <= i < |n| && i != k :: n[i] == rs[if i < k then i else i + 1];
  }

  lemma HalfNormal(rs: seq<Range>, k: nat)
    requires Half(rs, k) && (k + 1 < |rs| ==> rs[k].End() < rs[k + 1].start)
    ensures Normal(rs)
  {
  }

  // ---- the allocator's ranges ----

  ghost predicate SamePages(m: seq<Range>, n: seq<Range>) {
    forall p :: Has(n, p) <==> Has(m, p)
  }

  lemma JoinedSame(rs: seq<Range>, k: nat)
    requires k + 1 < |rs| && rs[k].End() == rs[k + 1].start
    ensures SamePages(rs, Joined(rs, k))
  {
    forall p ensures Has(Joined(rs, k), p) <==> Has(rs, p) {
      JoinedPages(rs, k, p);
    }
  }

  class FreeRanges {
    var ranges: seq<Range>

    ghost predicate Valid()
      reads this
    {
      Normal(ranges)
    }

    constructor ()
      ensures Valid() && ranges == []
    {
      ranges := [];
    }

    // merge() of neighbours a and a + 1: the place that is left to look at.
    method Merge(a: nat) returns (k: nat)
      requires a + 1 < |ranges|
      modifies this
      ensures if old(ranges[a].End() == ranges[a + 1].start) then ranges == Joined(old(ranges), a) && k == a
              else ranges == old(ranges) && k == a + 1
    {
      if ranges[a].End() == ranges[a + 1].start {
        ranges := ranges[..a] + [Range(ranges[a].start, ranges[a].size + ranges[a + 1].size)] + ranges[a + 2..];
        k := a;
      } else {
        k := a + 1;
      }
    }

    method MergeBefore(i: nat) returns (k: nat)
      requires i < |ranges| && Almost(ranges, i)
      modifies this
      ensures Half(ranges, k) && SamePages(old(ranges), ranges)
    {
      k := i;
      if i != 0 {
        if ranges[i - 1].End() == ranges[i].start {
          JoinBefore(ranges, i);
          JoinedSame(ranges, i - 1);
        }
        k := Merge(i - 1);
      }
    }

    method MergeAfter(i: nat)
      requires Half(ranges, i)
      modifies this
      ensures Normal(ranges) && SamePages(old(ranges), ranges)
    {
      if i + 1 < |ranges| {
        if ranges[i].End() == ranges[i + 1].start {
          JoinAfter(ranges, i);
          JoinedSame(ranges, i);
        } else {
          HalfNormal(ranges, i);
        }
        var _ := Merge(i);
      } else {
        HalfNormal(ranges, i);
      }
    }

    /** free_page_range_locked(): the pages are free, and the ranges are merged again. */
    method FreePageRange(r: Range)
      requires Valid() && r.size > 0 && Apart(ranges, r)
      modifies this
      ensures Valid() && Added(old(ranges), ranges, r)
    {
      var i := Place(ranges, r.start);
      InsertAlmost(ranges, r);
      ranges := Inserted(ranges, i, r);
      i := MergeBefore(i);
      MergeAfter(i);
    }

    /** malloc_large(): the last pages of the first range that is large enough, one more than asked
        for; it aborts (None) only if that many pages are nowhere free in a row. */
    method MallocLarge(size: nat) returns (obj: Option<nat>)
      requires Valid()
      modifies this
      ensures Valid() && (obj == None ==> ranges == old(ranges))
      ensures obj == None <==> forall h: nat :: !Free(old(ranges), Range(h, LargePages(size)))
      ensures obj.Some? ==> obj.value > 0 && var r := Range(obj.value - 1, LargePages(size));
                            Free(old(ranges), r) && Removed(old(ranges), ranges, r)
    {
      var n := LargePages(size);
      var i := 0;
      while i < |ranges|
        invariant i <= |ranges| && ranges == old(ranges) && forall j | 0 <= j < i :: ranges[j].size < n
      {
        if ranges[i].size >= n {
          TakeEndOk(ranges, i, n);
          var h := ranges[i].End() - n;
          ranges := TakeEnd(ranges, i, n);
          return Some(h + 1);
        }
        i := i + 1;
      }
      forall h: nat ensures !Free(ranges, Range(h, n)) {
        if Free(ranges, Range(h, n)) {
          FreeInOne(ranges, Range(h, n));
        }
      }
      obj := None;
    }

    // The last aligned block of range i: what is after it goes back.
    method TakeBlock(i: nat, n: nat) returns (ret: nat)
      requires Valid() && n > 0 && i < |ranges| && HasBlock(ranges[i], n)
      modifies this
      ensures Valid() && ret % n == 0 && Free(old(ranges), Range(ret, n)) && Removed(old(ranges), ranges, Range(ret, n))
    {
      var r := ranges[i];
      ret := LastBlock(r, n);
      LastBlockOk(r, n);
      TakeEndOk(ranges, i, r.End() - ret);
      HugeFree(ranges, i, n);
      ranges := TakeEnd(ranges, i, r.End() - ret);
      var endsize := r.End() - ret - n;
      if endsize > 0 {
        FreePageRange(Range(ret + n, endsize));
      }
    }

    /** alloc_huge_page(): n pages at a multiple of n, the last such in the first range that has one;
        it aborts (None) only if there are none. */
    method AllocHugePage(n: nat) returns (page: Option<nat>)
      requires Valid() && n > 0
      modifies this
      ensures Valid() && (page == None ==> ranges == old(ranges))
      ensures page == None <==> forall h: nat | h % n == 0 :: !Free(old(ranges), Range(h, n))
      ensures page.Some? ==> page.value % n == 0 && Free(old(ranges), Range(page.value, n))
                             && Removed(old(ranges), ranges, Range(page.value, n))
    {
      var i := 0;
      while i < |ranges|
        invariant i <= |ranges| && ranges == old(ranges) && forall j | 0 <= j < i :: !HasBlock(ranges[j], n)
      {
        if HasBlock(ranges[i], n) {
          var ret := TakeBlock(i, n);
          return Some(ret);
        }
        i := i + 1;
      }
      NoBlock(ranges, n);
      page := None;
    }
  }

  lemma NoBlock(rs: seq<Range>, n: nat)
    requires Normal(rs) && n > 0 && forall j | 0 <= j < |rs| :: !HasBlock(rs[j], n)
    ensures forall h: nat | h % n == 0 :: !Free(rs, Range(h, n))
  {
    forall h: nat | h % n == 0 ensures !Free(rs, Range(h, n)) {
      if Free(rs, Range(h, n)) {
        FreeInOne(rs, Range(h, n));
        var j :| 0 <= j < |rs| && rs[j].start <= h && h + n <= rs[j].End();
        BlockFits(rs[j], n, h);
      }
    }
  }

  // The start of the last block of n pages at a multiple of n in a range that is as large.
  function LastBlock(r: Range, n: nat): nat
    requires 0 < n <= r.size
  {
    r.End() - n - (r.End() - n) % n
  }

  predicate HasBlock(r: Range, n: nat)
    requires n > 0
  {
    r.size >= n && LastBlock(r, n) >= r.start
  }

  lemma LastBlockOk(r: Range, n: nat)
    requires n > 0 && HasBlock(r, n)
    ensures LastBlock(r, n) % n == 0 && LastBlock(r, n) + n <= r.End()
  {
    DivMod(LastBlock(r, n), n, 0, (r.End() - n) / n);
  }

  lemma BlockFits(r: Range, n: nat, h: nat)
    requires n > 0 && h % n == 0 && r.start <= h && h + n <= r.End()
    ensures HasBlock(r, n)
  {
    var x := r.End() - n;
    DivMod(LastBlock(r, n), n, 0, x / n);
    if LastBlock(r, n) < h {
      Gap(n, LastBlock(r, n), h);
    }
  }

  lemma HugeFree(rs: seq<Range>, k: nat, n: nat)
    requires Normal(rs) && k < |rs| && n > 0 && HasBlock(rs[k], n)
    ensures Free(rs, Range(LastBlock(rs[k], n), n))
  {
    LastBlockOk(rs[k], n);
    forall p | Covers(Range(LastBlock(rs[k], n), n), p) ensures Has(rs, p) {
      assert Covers(rs[k], p);
    }
  }

  /** Freeing what was just allocated gives back the same ranges. */
  lemma FreeRestores(a: seq<Range>, b: seq<Range>, c: seq<Range>, r: Range)
    requires Normal(a) && Normal(c) && Free(a, r) && Removed(a, b, r) && Added(b, c, r)
    ensures c == a
  {
    Canonical(c, a);
  }

  // malloc_large() and free_large(), one after the other.
  method MallocFree(fr: FreeRanges, size: nat)
    requires fr.Valid()
    modifies fr
    ensures fr.Valid() && fr.ranges == old(fr.ranges)
  {
    ghost var was := fr.ranges;
    var obj := fr.MallocLarge(size);
    if obj.Some? {
      var r := Range(obj.value - 1, LargePages(size));
      ghost var now := fr.ranges;
      fr.FreePageRange(r);
      FreeRestores(was, now, fr.ranges, r);
    }
  }

  // The size rounded up to pages, and one page for the header.
  function LargePages(size: nat): (n: nat)
    ensures n > 0 && (n - 1) * PAGE >= size
  {
    (size + PAGE - 1) / PAGE + 1
  }

  /** Free pages in a row are in one range, because ranges that touch are merged. */
  lemma {:induction false} FreeInOne(rs: seq<Range>, r: Range)
    requires Normal(rs) && r.size > 0 && Free(rs, r)
    ensures exists i :: 0 <= i < |rs| && rs[i].start <= r.start && r.End() <= rs[i].End()
  {
    assert Covers(r, r.start);
    var i :| 0 <= i < |rs| && Covers(rs[i], r.start);
    if rs[i].End() < r.End() {
      var e := rs[i].End();
      assert Covers(r, e);
    }
  }

  // ---- pages kept by CPUs ----

  const MAX := 512

  // Where a page is: in the free ranges, in the buffer of a CPU, or handed out.
  datatype Where = InRanges | Buffered(c: nat) | Out

  ghost predicate Distinct(b: seq<nat>) {
    forall i, j | 0 <= i < j < |b| :: b[i] != b[j]
  }

  ghost predicate RangesAgree(rs: seq<Range>, at: map<nat, Where>) {
    forall p: nat :: Has(rs, p) <==> p in at && at[p] == InRanges
  }

  ghost predicate BufferAgrees(b: seq<nat>, c: nat, at: map<nat, Where>) {
    Distinct(b) && |b| <= MAX && forall p: nat :: p in b <==> p in at && at[p] == Buffered(c)
  }

  ghost predicate BuffersAgree(bs: seq<seq<nat>>, at: map<nat, Where>) {
    && (forall c: nat | c < |bs| :: BufferAgrees(bs[c], c, at))
    && (forall p | p in at && at[p].Buffered? :: at[p].c < |bs|)
  }

  /** The allocator of single pages. Its boot pages are the keys of at, and each is in one place. */
  class Pages {
    const fr: FreeRanges
    var buffers: seq<seq<nat>>          // per CPU: free[0..nr]
    ghost var at: map<nat, Where>

    ghost predicate Valid()
      reads this, fr
    {
      fr.Valid() && RangesAgree(fr.ranges, at) && BuffersAgree(buffers, at)
    }

    constructor (cpus: nat)
      ensures Valid() && at == map[] && |buffers| == cpus && fresh(fr)
    {
      fr := new FreeRanges();
      buffers, at := seq(cpus, _ => []), map[];
    }

    // alloc_page_local(): the last page of the CPU's own.
    method AllocLocal(c: nat) returns (page: Option<nat>)
      requires Valid() && c < |buffers|
      modifies this
      ensures Valid() && |buffers| == |old(buffers)|
      ensures page == None <==> old(buffers[c]) == []
      ensures page == None ==> at == old(at) && buffers == old(buffers)
      ensures page.Some? ==>
                page.value in old(at) && old(at)[page.value] == Buffered(c) && at == old(at)[page.value := Out]
    {
      var b := buffers[c];
      if b == [] {
        return None;
      }
      var p := b[|b| - 1];
      TakeLast(buffers, c, at);
      buffers := buffers[c := b[..|b| - 1]];
      at := at[p := Out];
      page := Some(p);
    }

    // free_page_local()
    method FreeLocal(c: nat, p: nat) returns (ok: bool)
      requires Valid() && c < |buffers| && p in at && at[p] == Out
      modifies this
      ensures Valid() && |buffers| == |old(buffers)| && (ok <==> |old(buffers[c])| < MAX)
      ensures !ok ==> at == old(at) && buffers == old(buffers)
      ensures ok ==> at == old(at)[p := Buffered(c)]
    {
      ok := |buffers[c]| != MAX;
      if ok {
        PutLast(buffers, c, at, p);
        buffers := buffers[c := buffers[c] + [p]];
        at := at[p := Buffered(c)];
      }
    }

    // early_alloc_page() and each round of refill_page_buffer(): n pages from the end of the first range.
    method TakeFirst(n: nat) returns (page: nat)
      requires Valid() && fr.ranges != [] && 0 < n <= fr.ranges[0].size
      modifies this`at, fr
      ensures Valid() && at == Move(old(at), Range(page, n), Out)
      ensures forall p: nat | page <= p < page + n :: p in old(at) && old(at)[p] == InRanges
    {
      ghost var rs := fr.ranges;
      TakeEndOk(rs, 0, n);
      page := fr.ranges[0].End() - n;
      fr.ranges := TakeEnd(fr.ranges, 0, n);
      RemovedAgree(rs, fr.ranges, buffers, at, Range(page, n));
      at := Move(at, Range(page, n), Out);
      forall p: nat | page <= p < page + n ensures Has(rs, p) {
        assert Covers(Range(page, n), p);
      }
    }

    // The inner loop of refill_page_buffer(): n pages from page on, handed out to CPU c.
    method PutPages(c: nat, page: nat, n: nat)
      requires Valid() && c < |buffers| && |buffers[c]| + n <= MAX && OutFrom(at, page, n)
      modifies this
      ensures Valid() && |buffers| == |old(buffers)| && |buffers[c]| == |old(buffers[c])| + n
      ensures at == Move(old(at), Range(page, n), Buffered(c))
    {
      for j := 0 to n
        invariant Valid() && |buffers| == |old(buffers)| && |buffers[c]| == |old(buffers[c])| + j
        invariant at == Move(old(at), Range(page, j), Buffered(c)) && OutFrom(at, page + j, n - j)
      {
        PutLast(buffers, c, at, page + j);
        buffers := buffers[c := buffers[c] + [page + j]];
        at := at[page + j := Buffered(c)];
        assert at == Move(old(at), Range(page, j + 1), Buffered(c));
      }
      assert at == Move(old(at), Range(page, n), Buffered(c));
    }

    // One round of refill_page_buffer().
    method RefillOnce(c: nat, limit: nat)
      requires Valid() && c < |buffers| && |buffers[c]| < limit <= MAX && fr.ranges != []
      modifies this, fr
      ensures Valid() && |buffers| == |old(buffers)| && |old(buffers[c])| < |buffers[c]| <= limit
      ensures Fills(old(at), at, c)
    {
      assert fr.ranges[0].size > 0;
      var n := if fr.ranges[0].size < limit - |buffers[c]| then fr.ranges[0].size else limit - |buffers[c]|;
      var page := TakeFirst(n);
      PutPages(c, page, n);
    }

    /** refill_page_buffer(): it aborts (false) if no page is free; otherwise the CPU has half a
        buffer of pages, or all that were free. */
    method RefillPageBuffer(c: nat) returns (ok: bool)
      requires Valid() && c < |buffers|
      modifies this, fr
      ensures Valid() && |buffers| == |old(buffers)| && Fills(old(at), at, c) && (ok <==> old(fr.ranges) != [])
      ensures ok ==> |buffers[c]| > 0 && (|buffers[c]| >= MAX / 2 || fr.ranges == [])
    {
      if fr.ranges == [] {
        return false;
      }
      var limit := (MAX + 1) / 2;
      while |buffers[c]| < limit && fr.ranges != []
        invariant Valid() && |buffers| == |old(buffers)| && Fills(old(at), at, c)
        invariant |buffers[c]| > 0 || fr.ranges != []
        decreases limit - |buffers[c]|
      {
        RefillOnce(c, limit);
      }
      ok := true;
    }

    // One round of unfill_page_buffer(): the last page goes back to the free ranges.
    method UnfillOnce(c: nat)
      requires Valid() && c < |buffers| && buffers[c] != []
      modifies this, fr
      ensures Valid() && |buffers| == |old(buffers)| && |buffers[c]| == |old(buffers[c])| - 1 && Unfills(old(at), at, c)
    {
      var b := buffers[c];
      var p := b[|b| - 1];
      TakeLast(buffers, c, at);
      buffers := buffers[c := b[..|b| - 1]];
      at := at[p := Out];
      ghost var rs := fr.ranges;
      assert forall q: nat | Covers(Range(p, 1), q) :: q == p;
      fr.FreePageRange(Range(p, 1));
      AddedAgree(rs, fr.ranges, buffers, at, Range(p, 1));
      at := Move(at, Range(p, 1), InRanges);
    }

    method UnfillPageBuffer(c: nat)
      requires Valid() && c < |buffers|
      modifies this, fr
      ensures Valid() && |buffers| == |old(buffers)| && |buffers[c]| <= MAX / 2 && Unfills(old(at), at, c)
    {
      while |buffers[c]| > MAX / 2
        invariant Valid() && |buffers| == |old(buffers)| && Unfills(old(at), at, c)
        decreases |buffers[c]|
      {
        UnfillOnce(c);
      }
    }

    /** alloc_page() on CPU c: a page that was not handed out; it aborts (None) only if the CPU has none
        of its own and no page is in the free ranges. */
    method AllocPage(c: nat) returns (page: Option<nat>)
      requires Valid() && c < |buffers|
      modifies this, fr
      ensures Valid() && |buffers| == |old(buffers)| && at.Keys == old(at).Keys
      ensures page == None <==> old(buffers[c]) == [] && old(fr.ranges) == []
      ensures page.Some? ==> page.value in old(at) && old(at)[page.value] != Out && at[page.value] == Out
      ensures forall p | p in old(at) && Some(p) != page :: old(at)[p] == Out <==> at[p] == Out
    {
      page := AllocLocal(c);
      while page == None
        invariant Valid() && |buffers| == |old(buffers)| && at.Keys == old(at).Keys
        invariant page == None ==>
                    at == old(at) && buffers == old(buffers) && buffers[c] == [] && fr.ranges == old(fr.ranges)
        invariant page.Some? ==> page.value in old(at) && old(at)[page.value] != Out && at[page.value] == Out
        invariant page.Some? ==> !(old(buffers[c]) == [] && old(fr.ranges) == [])
        invariant forall p | p in old(at) && Some(p) != page :: old(at)[p] == Out <==> at[p] == Out
        decreases page == None
      {
        var ok := RefillPageBuffer(c);
        if !ok {
          return;
        }
        page := AllocLocal(c);
      }
    }

    /** free_page() on CPU c: the page is no longer handed out, and no other page is. */
    method FreePage(c: nat, p: nat)
      requires Valid() && c < |buffers| && p in at && at[p] == Out
      modifies this, fr
      ensures Valid() && |buffers| == |old(buffers)| && at.Keys == old(at).Keys && at[p] == Buffered(c)
      ensures forall q | q in old(at) && q != p :: old(at)[q] == Out <==> at[q] == Out
    {
      var ok := FreeLocal(c, p);
      while !ok
        invariant Valid() && |buffers| == |old(buffers)| && at.Keys == old(at).Keys
        invariant at[p] == if ok then Buffered(c) else Out
        invariant forall q | q in old(at) && q != p :: old(at)[q] == Out <==> at[q] == Out
        decreases !ok
      {
        UnfillPageBuffer(c);
        ok := FreeLocal(c, p);
      }
    }

    // malloc_large() and alloc_huge_page() hand out the pages of a range.
    method AllocLarge(size: nat) returns (obj: Option<nat>)
      requires Valid()
      modifies this, fr
      ensures Valid() && buffers == old(buffers)
      ensures obj == None ==> at == old(at)
      ensures obj.Some? ==> obj.value > 0 && var r := Range(obj.value - 1, LargePages(size));
                            && at == Move(old(at), r, Out)
                            && forall p: nat | Covers(r, p) :: p in old(at) && old(at)[p] == InRanges
    {
      ghost var rs := fr.ranges;
      obj := fr.MallocLarge(size);
      if obj.Some? {
        RemovedAgree(rs, fr.ranges, buffers, at, Range(obj.value - 1, LargePages(size)));
        at := Move(at, Range(obj.value - 1, LargePages(size)), Out);
      }
    }

    method AllocHuge(n: nat) returns (page: Option<nat>)
      requires Valid() && n > 0
      modifies this, fr
      ensures Valid() && buffers == old(buffers)
      ensures page == None ==> at == old(at)
      ensures page.Some? ==> page.value % n == 0 && var r := Range(page.value, n);
                             && at == Move(old(at), r, Out)
                             && forall p: nat | Covers(r, p) :: p in old(at) && old(at)[p] == InRanges
    {
      ghost var rs := fr.ranges;
      page := fr.AllocHugePage(n);
      if page.Some? {
        RemovedAgree(rs, fr.ranges, buffers, at, Range(page.value, n));
        at := Move(at, Range(page.value, n), Out);
      }
    }

    // free_large() and free_huge_page()
    method FreeLarge(r: Range)
      requires Valid() && r.size > 0 && forall p: nat | Covers(r, p) :: p in at && at[p] == Out
      modifies this, fr
      ensures Valid() && buffers == old(buffers) && at == Move(old(at), r, InRanges)
    {
      ghost var rs := fr.ranges;
      fr.FreePageRange(r);
      AddedAgree(rs, fr.ranges, buffers, at, r);
      at := Move(at, r, InRanges);
    }

    /** free_initial_memory_range(): exactly the whole pages of a range of bytes, but never page 0. */
    method FreeInitialMemoryRange(addr: nat, size: nat)
      requires Valid() && forall p: nat | WholePage(addr, size, p) :: p !in at
      modifies this, fr
      ensures Valid() && buffers == old(buffers)
      ensures forall p: nat :: p in at <==> p in old(at) || WholePage(addr, size, p)
      ensures forall p: nat | p in at :: at[p] == if p in old(at) then old(at)[p] else InRanges
    {
      if size == 0 {
        return;
      }
      var a, n := addr, size;
      if a == 0 {
        a, n := 1, n - 1;
      }
      var delta := AlignUp(a) - a;
      WholePages(addr, size, a, n);
      if delta > n {
        return;
      }
      a, n := a + delta, n - delta;
      n := n - n % PAGE;
      if n == 0 {
        return;
      }
      var r := Range(a / PAGE, n / PAGE);
      ghost var rs := fr.ranges;
      forall p: nat | Covers(r, p) ensures !Has(rs, p) {
        assert WholePage(addr, size, p);
      }
      fr.FreePageRange(r);
      ghost var more := map p | p in Numbers(r) :: InRanges;
      at := at + more;
      NewPages(rs, fr.ranges, buffers, old(at), r, at);
    }
  }

  // Pages handed out go to the end of a buffer, one after another.
  ghost predicate OutFrom(at: map<nat, Where>, page: nat, n: nat) {
    forall p: nat | page <= p < page + n :: p in at && at[p] == Out
  }

  // at changes only from the ranges to the buffer of c, or only back.
  ghost predicate Fills(at: map<nat, Where>, now: map<nat, Where>, c: nat) {
    now.Keys == at.Keys && forall p | p in at :: now[p] == at[p] || (at[p] == InRanges && now[p] == Buffered(c))
  }

  ghost predicate Unfills(at: map<nat, Where>, now: map<nat, Where>, c: nat) {
    now.Keys == at.Keys && forall p | p in at :: now[p] == at[p] || (at[p] == Buffered(c) && now[p] == InRanges)
  }

  // A page that lies in a range of bytes, other than page 0.
  ghost predicate WholePage(addr: nat, size: nat, p: nat) {
    p > 0 && addr <= p * PAGE && (p + 1) * PAGE <= addr + size
  }

  function AlignUp(a: nat): (r: nat)
    ensures r >= a && r % PAGE == 0 && r < a + PAGE
  {
    (a + PAGE - 1) / PAGE * PAGE
  }

  ghost function Numbers(r: Range): set<nat> {
    set p: nat | r.start <= p < r.End() && Covers(r, p)
  }

  // Leaving out byte 0 and rounding inwards gives just the whole pages.
  lemma WholePages(addr: nat, size: nat, a: nat, n: nat)
    requires size > 0 && (if addr == 0 then a == 1 && n == size - 1 else a == addr && n == size)
    ensures var d := AlignUp(a) - a;
            if d > n then forall p: nat :: !WholePage(addr, size, p)
            else
              var m := n - d - (n - d) % PAGE;
              && forall p: nat :: WholePage(addr, size, p) <==> Covers(Range((a + d) / PAGE, m / PAGE), p)
  {
  }

  lemma NewPages(rs: seq<Range>, ns: seq<Range>, bs: seq<seq<nat>>, at: map<nat, Where>, r: Range, n: map<nat, Where>)
    requires RangesAgree(rs, at) && Added(rs, ns, r) && BuffersAgree(bs, at)
    requires (forall p: nat | Covers(r, p) :: p !in at) && n == at + map p | p in Numbers(r) :: InRanges
    ensures RangesAgree(ns, n) && BuffersAgree(bs, n)
  {
    forall p: nat ensures Has(ns, p) <==> p in n && n[p] == InRanges {
      assert Has(rs, p) <==> p in at && at[p] == InRanges;
    }
    forall c: nat | c < |bs| ensures BufferAgrees(bs[c], c, n) {
      assert BufferAgrees(bs[c], c, at);
    }
  }

  ghost function Move(at: map<nat, Where>, r: Range, w: Where): map<nat, Where> {
    map p | p in at :: if Covers(r, p) then w else at[p]
  }

  lemma RemovedAgree(rs: seq<Range>, ns: seq<Range>, bs: seq<seq<nat>>, at: map<nat, Where>, r: Range)
    requires RangesAgree(rs, at) && Removed(rs, ns, r) && Free(rs, r) && BuffersAgree(bs, at)
    ensures RangesAgree(ns, Move(at, r, Out)) && BuffersAgree(bs, Move(at, r, Out))
  {
    var n := Move(at, r, Out);
    forall p: nat ensures Has(ns, p) <==> p in n && n[p] == InRanges {
      assert Has(rs, p) <==> p in at && at[p] == InRanges;
    }
    forall c: nat | c < |bs| ensures BufferAgrees(bs[c], c, n) {
      assert BufferAgrees(bs[c], c, at);
      forall p: nat ensures p in bs[c] <==> p in n && n[p] == Buffered(c) {
        if Covers(r, p) {
          assert Has(rs, p);
        }
      }
    }
  }

  lemma AddedAgree(rs: seq<Range>, ns: seq<Range>, bs: seq<seq<nat>>, at: map<nat, Where>, r: Range)
    requires RangesAgree(rs, at) && Added(rs, ns, r) && BuffersAgree(bs, at)
    requires forall p: nat | Covers(r, p) :: p in at && at[p] == Out
    ensures RangesAgree(ns, Move(at, r, InRanges)) && BuffersAgree(bs, Move(at, r, InRanges))
  {
    var n := Move(at, r, InRanges);
    forall p: nat ensures Has(ns, p) <==> p in n && n[p] == InRanges {
      assert Has(rs, p) <==> p in at && at[p] == InRanges;
    }
    forall c: nat | c < |bs| ensures BufferAgrees(bs[c], c, n) {
      assert BufferAgrees(bs[c], c, at);
    }
  }

  lemma TakeLast(bs: seq<seq<nat>>, c: nat, at: map<nat, Where>)
    requires c < |bs| && bs[c] != [] && BuffersAgree(bs, at)
    ensures var b := bs[c]; var p := b[|b| - 1];
            p in at && at[p] == Buffered(c) && BuffersAgree(bs[c := b[..|b| - 1]], at[p := Out])
  {
    var b := bs[c];
    var n, p := |b| - 1, b[|b| - 1];
    assert BufferAgrees(b, c, at) && p in b;
    var ns, nat' := bs[c := b[..n]], at[p := Out];
    assert b == b[..n] + [p];
    forall d: nat | d < |bs| ensures BufferAgrees(ns[d], d, nat') {
      assert BufferAgrees(bs[d], d, at);
    }
  }

  lemma PutLast(bs: seq<seq<nat>>, c: nat, at: map<nat, Where>, p: nat)
    requires c < |bs| && |bs[c]| < MAX && BuffersAgree(bs, at) && p in at && !at[p].Buffered?
    ensures BuffersAgree(bs[c := bs[c] + [p]], at[p := Buffered(c)])
  {
    var ns, nat' := bs[c := bs[c] + [p]], at[p := Buffered(c)];
    forall d: nat | d < |bs| ensures BufferAgrees(ns[d], d, nat') {
      assert BufferAgrees(bs[d], d, at);
    }
  }
}
