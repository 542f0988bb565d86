/**
  The list of areas and the page table together, core/mmu.cc: mapping, unmapping, protecting and
  page faults keep every mapped page inside an area, with the permissions of the area.
 */
module AddressSpace {
  import opened Arith
  import opened PageTable
  import opened PageOps
  import P = Populate
  import V = Vma

  // ---- what the two say of an address ----

  // perm_read, perm_write and perm_exec.
  function PermOf(p: nat): Perm {
    Perm(p % 2 == 1, p / 2 % 2 == 1, p / 4 % 2 == 1)
  }

  predicate Matches(x: Mapping, perm: nat) {
    var q := PermOf(perm);
    x.present == (q.read || q.write || q.exec) && x.writable == q.write && x.exec == q.exec
  }

  // A mapped address is in an area, and has its permissions.
  predicate Backed(vs: seq<V.Area>, x: Option<Mapping>, v: nat) {
    x.Some? ==> V.Lookup(vs, v).Some? && Matches(x.value, V.Lookup(vs, v).value.perm)
  }

  ghost predicate Consistent(vs: seq<V.Area>, m: Memory, root: nat) {
    forall v: nat | v < HALF :: Backed(vs, Walk(m, root, 3, v), v)
  }

  ghost predicate Ready(l: V.VmaList, pt: Tables)
    reads l, pt
  {
    l.Valid() && Sound(pt) && Consistent(l.vmas, pt.mem, pt.root)
  }

  // ---- unmapping ----

  // What has left the list has left the page table, and nothing else has.
  ghost predicate Emptied(was: seq<V.Area>, now: seq<V.Area>, m0: Memory, m: Memory, root: nat) {
    && (forall a: nat :: V.Lookup(now, a).Some? ==> V.Lookup(was, a).Some?)
    && (forall v: nat | Canonical(v) ::
          Walk(m, root, 3, v) == if V.Lookup(was, v).Some? && V.Lookup(now, v).None? then None
                                 else Walk(m0, root, 3, v))
  }

  lemma EmptiesMore(was: seq<V.Area>, vs: seq<V.Area>, now: seq<V.Area>, dead: V.Area,
                    m0: Memory, m: Memory, n: Memory, root: nat)
    requires Emptied(was, vs, m0, m, root) && V.Removed(vs, V.Some(dead), now)
    requires ChangedRange(Unpopulate, m, n, root, dead.start, dead.end)
    ensures Emptied(was, now, m0, n, root)
  {
    forall v: nat | Canonical(v)
      ensures Walk(n, root, 3, v) == if V.Lookup(was, v).Some? && V.Lookup(now, v).None? then None
                                     else Walk(m0, root, 3, v)
    {
      assert Walk(m, root, 3, v) == if V.Lookup(was, v).Some? && V.Lookup(vs, v).None? then None
                                    else Walk(m0, root, 3, v);
    }
  }

  // unpopulate().operate() on an area that is taken out.
  method Unpopulated(pt: Tables, dead: V.Option<V.Area>, ghost was: seq<V.Area>, ghost vs: seq<V.Area>,
                     ghost now: seq<V.Area>, ghost m0: Memory)
    requires Sound(pt) && Emptied(was, vs, m0, pt.mem, pt.root) && V.Removed(vs, dead, now)
    modifies pt
    ensures Sound(pt) && Emptied(was, now, m0, pt.mem, pt.root)
  {
    if dead.Some? {
      ghost var m := pt.mem;
      var d := dead.value;
      var _, _ := OperateRange(pt, Unpopulate, d.start, d.end);
      EmptiesMore(was, vs, now, d, m0, m, pt.mem, pt.root);
    }
  }

  // Exactly the addresses of a range are unmapped.
  ghost predicate Gone(m: Memory, n: Memory, root: nat, start: nat, end: nat) {
    forall v: nat | Canonical(v) ::
      Walk(n, root, 3, v) == if start <= v < end && v < HALF then None else Walk(m, root, 3, v)
  }

  lemma EvacuatedBoth(was: seq<V.Area>, now: seq<V.Area>, m0: Memory, m: Memory, root: nat, start: nat, end: nat)
    requires V.Ordered(was) && V.Marked(was, true) && Consistent(was, m0, root) && Emptied(was, now, m0, m, root)
    requires forall a: nat :: V.Lookup(now, a) == if start <= a < end then V.None else V.Lookup(was, a)
    ensures Gone(m0, m, root, start, end) && Consistent(now, m, root)
  {
    forall v: nat | Canonical(v)
      ensures Walk(m, root, 3, v) == if start <= v < end && v < HALF then None else Walk(m0, root, 3, v)
      ensures v < HALF ==> Backed(now, Walk(m, root, 3, v), v)
    {
      if v < HALF {
        assert Backed(was, Walk(m0, root, 3, v), v);
      } else {
        OutsideAll(was, v);
      }
    }
  }

  lemma OutsideAll(vs: seq<V.Area>, v: nat)
    requires V.Ordered(vs) && V.Marked(vs, true) && v >= HALF
    ensures V.Lookup(vs, v) == V.None
  {
    V.LookupNone(vs, v);
  }

  /** evacuate() and unmap(): the addresses of the range are in no area, and not in the page table
      either; all others are where they were. */
  method Evacuate(l: V.VmaList, pt: Tables, start: nat, end: nat)
    requires Ready(l, pt) && start <= end && start % SMALL == 0 && end % SMALL == 0
    modifies l, pt
    ensures V.Ordered(l.vmas) && V.Marked(l.vmas, !(start < V.EDGE < end))
    ensures Sound(pt) && Consistent(l.vmas, pt.mem, pt.root)
    ensures forall a: nat :: V.Lookup(l.vmas, a) == if start <= a < end then V.None else V.Lookup(old(l.vmas), a)
    ensures Gone(old(pt.mem), pt.mem, pt.root, start, end)
  {
    ghost var was, m0 := l.vmas, pt.mem;
    var i: nat, hi: nat := l.EqualRange(start, end);
    ghost var top := true;
    V.EvacuateStart(l.vmas, i, hi, start, end);
    while i < hi
      invariant V.Evacuating(was, l.vmas, i, hi, start, end, top)
      invariant Sound(pt) && Emptied(was, l.vmas, m0, pt.mem, pt.root)
      decreases V.ToGo(l.vmas, i, top)
    {
      ghost var vs := l.vmas;
      var dead;
      i, hi, dead, top := l.EvacuateOne(i, hi, start, end, was);
      Unpopulated(pt, dead, was, vs, l.vmas, m0);
    }
    V.EvacuateEnd(was, l.vmas, i, hi, start, end, top);
    EvacuatedBoth(was, l.vmas, m0, pt.mem, pt.root, start, end);
  }

  // ---- protecting ----

  lemma ProtectedAt(was: V.Option<V.Attr>, now: V.Option<V.Attr>, x: Option<Mapping>, perm: nat, inside: bool)
    requires x.Some? ==> was.Some? && Matches(x.value, was.value.perm)
    requires if inside && was.Some? then V.Repermed(was, now, perm) else now == was
    ensures var y := if inside then Apply(PageOps.Protect(PermOf(perm)), x) else x;
            y.Some? ==> now.Some? && Matches(y.value, now.value.perm)
  {
  }

  lemma ProtectedBoth(was: seq<V.Area>, now: seq<V.Area>, m: Memory, n: Memory, root: nat,
                      start: nat, end: nat, perm: nat)
    requires Consistent(was, m, root) && ChangedRange(PageOps.Protect(PermOf(perm)), m, n, root, start, end)
    requires forall a: nat ::
               if start <= a < end && V.Lookup(was, a).Some? then V.Repermed(V.Lookup(was, a), V.Lookup(now, a), perm)
               else V.Lookup(now, a) == V.Lookup(was, a)
    ensures Consistent(now, n, root)
  {
    forall v: nat | v < HALF ensures Backed(now, Walk(n, root, 3, v), v) {
      assert Backed(was, Walk(m, root, 3, v), v);
      ProtectedAt(V.Lookup(was, v), V.Lookup(now, v), Walk(m, root, 3, v), perm, start <= v < end);
    }
  }

  // The areas that meet a range have a permission.
  ghost predicate AllHave(vs: seq<V.Area>, start: nat, end: nat, perm: nat) {
    forall j | 0 <= j < |vs| && V.Meets(vs[j], start, end) :: vs[j].perm == perm
  }

  /** protect(): areas and page table get the permission alike. */
  method Protect(l: V.VmaList, pt: Tables, start: nat, end: nat, perm: nat) returns (ok: bool)
    requires Ready(l, pt) && start <= end <= HALF && start % SMALL == 0 && end % SMALL == 0
    modifies l, pt
    ensures Ready(l, pt)
    ensures forall a: nat ::
              if start <= a < end && V.Lookup(old(l.vmas), a).Some?
              then V.Repermed(V.Lookup(old(l.vmas), a), V.Lookup(l.vmas, a), perm)
              else V.Lookup(l.vmas, a) == V.Lookup(old(l.vmas), a)
    ensures ChangedRange(PageOps.Protect(PermOf(perm)), old(pt.mem), pt.mem, pt.root, start, end)
    ensures !ok <==> HasGap(old(pt.mem), pt.root, start, end)
    ensures SmallLeft(PageOps.Protect(PermOf(perm)), old(pt.mem), pt.mem, pt.root, start, end)
    ensures AllHave(old(l.vmas), start, end, perm) ==> l.vmas == old(l.vmas)
  {
    ghost var was, m := l.vmas, pt.mem;
    l.Protect(start, end, perm);
    var visits;
    ok, visits := OperateRange(pt, PageOps.Protect(PermOf(perm)), start, end);
    ProtectedBoth(was, l.vmas, m, pt.mem, pt.root, start, end, perm);
  }

  // ---- mapping ----

  // Where nothing was mapped, frames are.
  ghost predicate Populated(fr: P.Frames, perm: nat, m: Memory, n: Memory, root: nat, first: nat, end: nat) {
    forall v: nat | Canonical(v) ::
      Walk(n, root, 3, v) == if first <= v < end then P.Fresh(fr, PermOf(perm), InHuge(first, end, v), v)
                             else Walk(m, root, 3, v)
  }

  lemma PopulatedHas(fr: P.Frames, perm: nat, m: Memory, n: Memory, root: nat, first: nat, end: nat, v: nat)
    requires Populated(fr, perm, m, n, root, first, end) && first <= v < end && Canonical(v)
    ensures Walk(n, root, 3, v).Some?
  {
  }

  /** Where an area has come to be and nothing was mapped, populating it maps all of it, and every mapped
      page is then in an area if and only if the area was not refused, which it is at address 0. */
  lemma PopulatedBoth(fr: P.Frames, was: seq<V.Area>, now: seq<V.Area>, v: V.Area, m: Memory, n: Memory, root: nat,
                      first: nat, end: nat)
    requires Consistent(was, m, root) && V.Placed(was, now, v) && v.start <= first < end <= v.end <= HALF
    requires forall a: nat | v.start <= a < v.end :: V.Lookup(was, a) == V.None
    requires Populated(fr, v.perm, m, n, root, first, end)
    ensures Consistent(now, n, root) <==> v.start != 0
  {
    if v.start == 0 {
      assert !Backed(now, Walk(n, root, 3, first), first);
    } else {
      forall a: nat | a < HALF ensures Backed(now, Walk(n, root, 3, a), a) {
        assert Backed(was, Walk(m, root, 3, a), a);
      }
    }
  }

  lemma PlacedBoth(was: seq<V.Area>, now: seq<V.Area>, v: V.Area, m: Memory, root: nat)
    requires Consistent(was, m, root) && V.Placed(was, now, v)
    requires forall a: nat | v.start <= a < v.end :: V.Lookup(was, a) == V.None
    ensures Consistent(now, m, root)
  {
    forall a: nat | a < HALF ensures Backed(now, Walk(m, root, 3, a), a) {
      assert Backed(was, Walk(m, root, 3, a), a);
    }
  }

  lemma NoneMapped(vs: seq<V.Area>, m: Memory, root: nat, first: nat, end: nat)
    requires Consistent(vs, m, root) && end <= HALF && forall a: nat | first <= a < end :: V.Lookup(vs, a) == V.None
    ensures forall v: nat | Canonical(v) && first <= v < end :: Walk(m, root, 3, v) == None
  {
    forall v: nat | Canonical(v) && first <= v < end ensures Walk(m, root, 3, v) == None {
      assert Backed(vs, Walk(m, root, 3, v), v);
    }
  }

  lemma FilledIsPopulated(fr: P.Frames, perm: nat, m: Memory, n: Memory, root: nat, first: nat, end: nat)
    requires P.FilledRange(fr, PermOf(perm), m, n, root, first, end)
    requires forall v: nat | Canonical(v) && first <= v < end :: Walk(m, root, 3, v) == None
    ensures Populated(fr, perm, m, n, root, first, end)
  {
  }

  // populate(), of an area in which nothing is mapped: its assertion holds.
  method PopulateNew(pt: Tables, fr: P.Frames, perm: nat, first: nat, end: nat, ghost vs: seq<V.Area>)
    requires Sound(pt) && P.FramesOk(fr) && Consistent(vs, pt.mem, pt.root) && first <= end <= HALF
    requires first % SMALL == 0 && end % SMALL == 0
    requires forall a: nat | first <= a < end :: V.Lookup(vs, a) == V.None
    modifies pt
    ensures Sound(pt) && Populated(fr, perm, old(pt.mem), pt.mem, pt.root, first, end)
  {
    ghost var m := pt.mem;
    NoneMapped(vs, m, pt.root, first, end);
    P.UnmappedIsFree(m, pt.root, first, end);
    var _ := P.PopulateRange(pt, fr, PermOf(perm), first, end);
    FilledIsPopulated(fr, perm, m, pt.mem, pt.root, first, end);
  }

  lemma SameDown(x: nat)
    ensures V.AlignDown(x) == AlignDown(x, SMALL)
  {
  }

  lemma DownLe(x: nat)
    ensures AlignDown(x, SMALL) <= x && AlignDown(x, SMALL) % SMALL == 0
  {
    AlignDownIs(x, SMALL);
  }

  lemma SizeUp(size: nat)
    requires size % SMALL == 0
    ensures AlignUp(size, SMALL) == size
  {
    AlignDownIs(size + SMALL - 1, SMALL);
    if size < AlignUp(size, SMALL) {
      Gap(SMALL, size, AlignUp(size, SMALL));
    }
  }

  lemma UpBeyond(x: nat, y: nat)
    requires y % SMALL == 0 && y <= x
    ensures y <= V.AlignUp(x)
  {
    V.AlignBounds(x + V.PAGE - 1, y);
  }

  lemma AreaEnd(start: nat, size: nat, first: nat)
    requires first <= start && first % SMALL == 0 && size % SMALL == 0
    ensures first + size <= V.AlignUp(start + size)
  {
    SumMultiple(first, size, SMALL);
    UpBeyond(start + size, first + size);
  }

  // The pages populated are those of the area.
  lemma AreaPages(start: nat, size: nat, v: V.Area)
    requires size > 0 && size % SMALL == 0 && v.start == V.AlignDown(start) && v.end == V.AlignUp(start + size)
    ensures v.start == From(start) < To(start, size) <= v.end
  {
    SizeUp(size);
    SameDown(start);
    DownLe(start);
    AreaEnd(start, size, AlignDown(start, SMALL));
  }

  /** map_anon() without mmap_fixed: an area at the least free place, populated if asked for; None if there
      is no room. The populating never fails, and everything mapped is in an area then, if and only if
      the area was not refused. */
  method MapAnywhere(l: V.VmaList, pt: Tables, fr: P.Frames, hint: nat, size: nat, perm: nat, populate: bool)
    returns (start: V.Option<nat>)
    requires Ready(l, pt) && P.FramesOk(fr) && size > 0 && size % SMALL == 0
    modifies l, pt
    ensures l.Valid() && Sound(pt)
    ensures start.None? ==> l.vmas == old(l.vmas) && pt.mem == old(pt.mem)
    ensures start.Some? ==>
              && V.SearchFrom(hint) <= start.value && V.Free(old(l.vmas), start.value, size)
              && V.Placed(old(l.vmas), l.vmas, V.MakeArea(start.value, start.value + size, perm, V.Anon))
              && (if populate
                  then Populated(fr, perm, old(pt.mem), pt.mem, pt.root, From(start.value), To(start.value, size))
                  else pt.mem == old(pt.mem))
              && (Consistent(l.vmas, pt.mem, pt.root) <==> !(populate && From(start.value) == 0))
    ensures forall h: nat | V.SearchFrom(hint) <= h && V.Free(old(l.vmas), h, size) :: start.Some? && start.value <= h
  {
    ghost var was, m := l.vmas, pt.mem;
    start := l.AllocateFree(perm, V.Anon, hint, size);
    if start.None? {
      return;
    }
    ghost var v := V.MakeArea(start.value, start.value + size, perm, V.Anon);
    AreaPages(start.value, size, v);
    if populate {
      RangeAligned(start.value, size);
      PopulateNew(pt, fr, perm, From(start.value), To(start.value, size), was);
      PopulatedBoth(fr, was, l.vmas, v, m, pt.mem, pt.root, From(start.value), To(start.value, size));
    } else {
      PlacedBoth(was, l.vmas, v, m, pt.root);
    }
  }

  // allocate() and populate() where nothing is mapped.
  method PutArea(l: V.VmaList, pt: Tables, fr: P.Frames, start: nat, size: nat, perm: nat, populate: bool)
    requires Ready(l, pt) && P.FramesOk(fr) && size > 0 && size % SMALL == 0 && start % SMALL == 0
    requires start + size <= HALF && forall a: nat | start <= a < start + size :: V.Lookup(l.vmas, a) == V.None
    modifies l, pt
    ensures l.Valid() && Sound(pt)
    ensures V.Placed(old(l.vmas), l.vmas, V.Area(start, start + size, perm, V.Anon))
    ensures if populate then Populated(fr, perm, old(pt.mem), pt.mem, pt.root, start, start + size)
            else pt.mem == old(pt.mem)
    ensures Consistent(l.vmas, pt.mem, pt.root) <==> !(populate && start == 0)
    ensures start > 0 ==> V.Area(start, start + size, perm, V.Anon) in l.vmas
  {
    V.FixedArea(start, size, perm, V.Anon);
    ghost var was, m, v := l.vmas, pt.mem, V.Area(start, start + size, perm, V.Anon);
    l.InsertFree(V.MakeArea(start, start + size, perm, V.Anon));
    if populate {
      PopulateNew(pt, fr, perm, start, start + size, was);
      PopulatedBoth(fr, was, l.vmas, v, m, pt.mem, pt.root, start, start + size);
    } else {
      PlacedBoth(was, l.vmas, v, m, pt.root);
    }
  }

  lemma GoneThenPopulated(fr: P.Frames, perm: nat, m0: Memory, m: Memory, n: Memory, root: nat, start: nat, end: nat)
    requires Gone(m0, m, root, start, end) && Populated(fr, perm, m, n, root, start, end)
    ensures Populated(fr, perm, m0, n, root, start, end)
  {
    forall v: nat | Canonical(v)
      ensures Walk(n, root, 3, v) == if start <= v < end then P.Fresh(fr, PermOf(perm), InHuge(start, end, v), v)
                                     else Walk(m0, root, 3, v)
    {
      assert Walk(m, root, 3, v) == if start <= v < end && v < HALF then None else Walk(m0, root, 3, v);
    }
  }

  lemma PlacedAfter(was: seq<V.Area>, mid: seq<V.Area>, now: seq<V.Area>, v: V.Area)
    requires forall a: nat :: V.Lookup(mid, a) == if v.start <= a < v.end then V.None else V.Lookup(was, a)
    requires V.Placed(mid, now, v)
    ensures V.Placed(was, now, v)
  {
  }

  /** map_anon() with mmap_fixed: what was in the range is unmapped, and the new area is there, with new
      frames if asked for. */
  method MapFixed(l: V.VmaList, pt: Tables, fr: P.Frames, start: nat, size: nat, perm: nat, populate: bool)
    requires Ready(l, pt) && P.FramesOk(fr) && size > 0 && size % SMALL == 0 && start % SMALL == 0
    requires start + size <= HALF
    modifies l, pt
    ensures l.Valid() && Sound(pt)
    ensures V.Placed(old(l.vmas), l.vmas, V.Area(start, start + size, perm, V.Anon))
    ensures if populate then Populated(fr, perm, old(pt.mem), pt.mem, pt.root, start, start + size)
            else Gone(old(pt.mem), pt.mem, pt.root, start, start + size)
    ensures Consistent(l.vmas, pt.mem, pt.root) <==> !(populate && start == 0)
    ensures start > 0 ==> V.Area(start, start + size, perm, V.Anon) in l.vmas
  {
    ghost var was, m0, end := l.vmas, pt.mem, start + size;
    SumMultiple(start, size, SMALL);
    Evacuate(l, pt, start, start + size);
    ghost var mid, m := l.vmas, pt.mem;
    PutArea(l, pt, fr, start, size, perm, populate);
    PlacedAfter(was, mid, l.vmas, V.Area(start, end, perm, V.Anon));
    if populate {
      GoneThenPopulated(fr, perm, m0, m, pt.mem, pt.root, start, end);
    }
  }

  // ---- page faults ----

  datatype Access = Read | Write | Fetch

  datatype Outcome = Segv | Mapped | Failed

  // access_fault(): fetching an instruction is never allowed to bring a page in.
  predicate Refused(perm: nat, access: Access) {
    match access
    case Fetch => true
    case Write => !PermOf(perm).write
    case Read => !PermOf(perm).read
  }

  // vma::fault(): the huge block of the address, if it is in the area, or its page.
  predicate TakesHuge(v: V.Area, addr: nat) {
    AlignUp(v.start, HUGE) <= addr < AlignDown(v.end, HUGE)
  }

  function FaultBase(v: V.Area, addr: nat): nat {
    if TakesHuge(v, addr) then AlignDown(addr, HUGE) else AlignDown(addr, SMALL)
  }

  function FaultSize(v: V.Area, addr: nat): nat {
    if TakesHuge(v, addr) then HUGE else SMALL
  }

  // What is brought in is in the area.
  lemma FaultInside(v: V.Area, addr: nat)
    requires V.Covers(v, addr) && v.start % SMALL == 0 && v.end % SMALL == 0
    ensures var b, s := FaultBase(v, addr), FaultSize(v, addr);
            v.start <= b <= addr < b + s <= v.end && b % s == 0 && b % SMALL == 0 && s % SMALL == 0
  {
    AlignDownIs(addr, SMALL);
    AlignDownIs(addr, HUGE);
    AlignDownIs(v.start + HUGE - 1, HUGE);
    AlignDownIs(v.end, HUGE);
    HugeIsSmall(AlignDown(addr, HUGE));
    if TakesHuge(v, addr) {
      Gap(HUGE, AlignDown(addr, HUGE), AlignDown(v.end, HUGE));
    } else {
      Gap(SMALL, AlignDown(addr, SMALL), v.end);
    }
  }

  // The assertion of populate() for one page or one huge block.
  lemma HeldInOne(m: Memory, root: nat, b: nat, s: nat)
    requires (s == HUGE || s == SMALL) && b % s == 0
    ensures P.Held(m, root, b, b + s) <==> s == HUGE && P.SomeSmall(m, root, b, b + HUGE)
  {
    if s == HUGE && P.SomeSmall(m, root, b, b + HUGE) {
      assert P.HeldAt(m, root, b, b + s, b);
    }
    if P.Held(m, root, b, b + s) {
      var c: nat :| P.HeldAt(m, root, b, b + s, c);
      assert c == b;
    }
  }

  // vma_list.find().
  method Find(l: V.VmaList, addr: nat) returns (i: V.Option<nat>)
    requires l.Valid()
    ensures i.Some? ==> i.value < |l.vmas| && V.Covers(l.vmas[i.value], addr)
    ensures i.Some? ==> V.Lookup(l.vmas, addr) == V.Some(V.AttrAt(l.vmas[i.value], addr))
    ensures i.None? <==> V.Lookup(l.vmas, addr).None?
  {
    for k := 0 to |l.vmas|
      invariant forall j | 0 <= j < k :: !V.Covers(l.vmas[j], addr)
    {
      if V.Covers(l.vmas[k], addr) {
        V.LookupAt(l.vmas, k, addr);
        return V.Some(k);
      }
    }
    V.LookupNone(l.vmas, addr);
    return V.None;
  }

  lemma FaultedBoth(fr: P.Frames, vs: seq<V.Area>, i: nat, m: Memory, n: Memory, root: nat, b: nat, z: nat)
    requires Consistent(vs, m, root) && V.Ordered(vs) && i < |vs| && vs[i].start <= b <= z <= vs[i].end
    requires P.FilledRange(fr, PermOf(vs[i].perm), m, n, root, b, z)
    ensures Consistent(vs, n, root)
  {
    forall v: nat | v < HALF ensures Backed(vs, Walk(n, root, 3, v), v) {
      assert Backed(vs, Walk(m, root, 3, v), v);
      if b <= v < z {
        V.LookupAt(vs, i, v);
      }
    }
  }

  // A huge block of an area that is to be brought in has a small page already.
  ghost predicate Shattered(m: Memory, root: nat, v: V.Area, addr: nat) {
    TakesHuge(v, addr) && P.SomeSmall(m, root, AlignDown(addr, HUGE), AlignDown(addr, HUGE) + HUGE)
  }

  // populate() of one page or one huge block of an area.
  method BringPages(pt: Tables, fr: P.Frames, b: nat, s: nat, ghost vs: seq<V.Area>, ghost i: nat, perm: nat)
    returns (aborted: bool)
    requires Sound(pt) && P.FramesOk(fr) && V.Ordered(vs) && Consistent(vs, pt.mem, pt.root) && i < |vs|
    requires vs[i].start <= b && b + s <= vs[i].end <= HALF && vs[i].perm == perm
    requires (s == HUGE || s == SMALL) && b % s == 0 && b % SMALL == 0
    modifies pt
    ensures Sound(pt) && (aborted <==> s == HUGE && P.SomeSmall(old(pt.mem), pt.root, b, b + HUGE))
    ensures !aborted ==>
              && P.FilledRange(fr, PermOf(perm), old(pt.mem), pt.mem, pt.root, b, b + s)
              && Consistent(vs, pt.mem, pt.root)
  {
    ghost var m := pt.mem;
    SumMultiple(b, s, SMALL);
    HeldInOne(m, pt.root, b, s);
    aborted := P.PopulateRange(pt, fr, PermOf(perm), b, b + s);
    if !aborted {
      FaultedBoth(fr, vs, i, m, pt.mem, pt.root, b, b + s);
    }
  }

  // vma::fault().
  method BringIn(pt: Tables, fr: P.Frames, addr: nat, v: V.Area, ghost vs: seq<V.Area>, ghost i: nat)
    returns (aborted: bool)
    requires Sound(pt) && P.FramesOk(fr) && V.Ordered(vs) && V.Marked(vs, true) && Consistent(vs, pt.mem, pt.root)
    requires i < |vs| && vs[i] == v && V.Covers(v, addr)
    modifies pt
    ensures Sound(pt) && (aborted <==> Shattered(old(pt.mem), pt.root, v, addr))
    ensures !aborted ==>
              && P.FilledRange(fr, PermOf(v.perm), old(pt.mem), pt.mem, pt.root,
                               FaultBase(v, addr), FaultBase(v, addr) + FaultSize(v, addr))
              && Consistent(vs, pt.mem, pt.root) && Walk(pt.mem, pt.root, 3, addr).Some?
  {
    FaultInside(v, addr);
    aborted := BringPages(pt, fr, FaultBase(v, addr), FaultSize(v, addr), vs, i, v.perm);
    assert !aborted ==> FaultBase(v, addr) <= addr < FaultBase(v, addr) + FaultSize(v, addr);
  }

  /** vm_fault(): a signal if and only if the address is in no area or the area does not allow the access.
      Otherwise the page, or the huge block, is mapped afterwards with the permissions of the area, and
      what was mapped stays. It aborts if and only if the area is that of a file, or the assertion in
      populate() fails because a small page is mapped in that huge block. */
  method Fault(l: V.VmaList, pt: Tables, fr: P.Frames, addr: nat, access: Access)
    returns (r: Outcome, i: V.Option<nat>)
    requires Ready(l, pt) && P.FramesOk(fr)
    modifies pt
    ensures r == Segv <==> V.Lookup(l.vmas, addr).None? || Refused(V.Lookup(l.vmas, addr).value.perm, access)
    ensures r == Segv ==> pt.mem == old(pt.mem)
    ensures r != Segv ==> i.Some? && i.value < |l.vmas| && V.Covers(l.vmas[i.value], addr)
    ensures r == Failed <==>
            r != Segv && (l.vmas[i.value].backing.File? || Shattered(old(pt.mem), pt.root, l.vmas[i.value], addr))
    ensures r == Mapped ==>
              && Ready(l, pt) && Walk(pt.mem, pt.root, 3, addr).Some?
              && var v := l.vmas[i.value];
                 P.FilledRange(fr, PermOf(v.perm), old(pt.mem), pt.mem, pt.root,
                               FaultBase(v, addr), FaultBase(v, addr) + FaultSize(v, addr))
  {
    i := Find(l, addr);
    if i.None? || Refused(l.vmas[i.value].perm, access) {
      return Segv, i;
    }
    if l.vmas[i.value].backing.File? {
      return Failed, i;
    }
    var aborted := BringIn(pt, fr, addr, l.vmas[i.value], l.vmas, i.value);
    r := if aborted then Failed else Mapped;
  }

  // Areas do not overlap.
  lemma OneArea(vs: seq<V.Area>, v: V.Area, start: nat, end: nat)
    requires V.Ordered(vs) && v in vs && v.start <= start < end <= v.end
    ensures forall j | 0 <= j < |vs| && V.Meets(vs[j], start, end) :: vs[j] == v
    ensures forall j | 0 <= j < |vs| && V.Covers(vs[j], start) :: vs[j] == v
    ensures V.Lookup(vs, start) == V.Some(V.AttrAt(v, start))
  {
    var k :| 0 <= k < |vs| && vs[k] == v;
    V.LookupAt(vs, k, start);
  }

  lemma HaveIt(vs: seq<V.Area>, v: V.Area, start: nat, end: nat)
    requires V.Ordered(vs) && v in vs && v.start <= start < end <= v.end
    ensures AllHave(vs, start, end, v.perm)
  {
    OneArea(vs, v, start, end);
  }

  // A new address space, with nothing in it.
  method NewSpace() returns (l: V.VmaList, pt: Tables)
    ensures fresh(l) && fresh(pt) && Ready(l, pt)
    ensures forall a: nat :: V.Lookup(l.vmas, a) == V.None
  {
    l := new V.VmaList();
    pt := new Tables();
  }

  lemma SmallInBlock(m: Memory, n: Memory, root: nat, perm: nat, b: nat)
    requires b % HUGE == 0 && b + HUGE <= HALF && Walk(m, root, 3, b).Some?
    requires SmallLeft(PageOps.Protect(PermOf(perm)), m, n, root, b, b + SMALL)
    ensures P.SomeSmall(n, root, b, b + HUGE)
  {
    P.BlockOf(b);
    assert Canonical(b) && !InHuge(b, b + SMALL, b);
    assert Small(n, root, 3, b);
  }

  // The huge block at b in an area of its own, mapped.
  method MapBlock(fr: P.Frames, b: nat, perm: nat) returns (l: V.VmaList, pt: Tables)
    requires P.FramesOk(fr) && 0 < b && b + HUGE <= HALF && b % HUGE == 0
    ensures fresh(l) && fresh(pt) && Ready(l, pt) && V.Area(b, b + HUGE, perm, V.Anon) in l.vmas
    ensures Walk(pt.mem, pt.root, 3, b).Some?
  {
    l, pt := NewSpace();
    HugeIsSmall(b);
    ghost var m := pt.mem;
    MapFixed(l, pt, fr, b, HUGE, perm, true);
    PopulatedHas(fr, perm, m, pt.mem, pt.root, b, b + HUGE, b);
  }

  // One page of it is protected with the permission it has.
  method ShatterBlock(fr: P.Frames, b: nat, perm: nat) returns (l: V.VmaList, pt: Tables)
    requires P.FramesOk(fr) && 0 < b && b + HUGE <= HALF && b % HUGE == 0
    ensures fresh(l) && fresh(pt) && Ready(l, pt) && V.Area(b, b + HUGE, perm, V.Anon) in l.vmas
    ensures P.SomeSmall(pt.mem, pt.root, b, b + HUGE)
  {
    l, pt := MapBlock(fr, b, perm);
    ghost var m := pt.mem;
    HaveIt(l.vmas, V.Area(b, b + HUGE, perm, V.Anon), b, b + SMALL);
    HugeIsSmall(b);
    SumMultiple(b, SMALL, SMALL);
    var ok := Protect(l, pt, b, b + SMALL, perm);
    SmallInBlock(m, pt.mem, pt.root, perm, b);
  }

  lemma TakesBlock(v: V.Area, b: nat)
    requires v.start == b && v.end == b + HUGE && b % HUGE == 0
    ensures TakesHuge(v, b) && AlignDown(b, HUGE) == b
  {
    P.BlockOf(b);
    P.AlignedUp(b);
    SumMultiple(b, HUGE, HUGE);
    P.BlockOf(b + HUGE);
  }

  /** An input for which it fails: a huge page is mapped, protecting one page of it with the permission it
      has leaves the area as it is and small pages in place of the huge one, and then the block is
      faulted in again, as by a thread that found it not mapped before. */
  method FaultFails(fr: P.Frames, b: nat, perm: nat) returns (l: V.VmaList, pt: Tables, r: Outcome)
    requires P.FramesOk(fr) && 0 < b && b + HUGE <= HALF && b % HUGE == 0 && PermOf(perm).write
    ensures r == Failed
  {
    l, pt := ShatterBlock(fr, b, perm);
    ghost var v := V.Area(b, b + HUGE, perm, V.Anon);
    OneArea(l.vmas, v, b, b + SMALL);
    TakesBlock(v, b);
    var i;
    r, i := Fault(l, pt, fr, b, Write);
  }
}
