/**
  The list of virtual memory areas of core/mmu.cc: an ordered set of address intervals,
  split and erased while it is being iterated over, refined to a map from each address
  to its permission and place in a file.

  The intrusive set is a sequence in address order; an iterator is an index, which moves
  when an element is inserted or erased in front of it.
 */
module Vma {

  const PAGE := 4096
  // the marker areas at the edges of the allocatable space start at 0 and here
  const EDGE := 0x8000_0000_0000

  datatype Option<T> = None | Some(value: T)

  datatype Backing = Anon | File(file: nat, offset: nat, shared: bool)

  datatype Area = Area(start: nat, end: nat, perm: nat, backing: Backing)

  function AlignDown(a: nat): nat { a / PAGE * PAGE }
  function AlignUp(a: nat): nat { AlignDown(a + PAGE - 1) }

  // vma::vma() and vma::set() round outwards to page boundaries.
  function MakeArea(start: nat, end: nat, perm: nat, backing: Backing): Area {
    Area(AlignDown(start), AlignUp(end), perm, backing)
  }

  // ---- the map that the list stands for ----

  // The backing of address a in an area that starts at `start`: file_vma::offset().
  function BackingAt(b: Backing, start: nat, a: nat): Backing
    requires start <= a
  {
    if b.Anon? then Anon else b.(offset := b.offset + (a - start))
  }

  datatype Attr = Attr(perm: nat, backing: Backing)

  predicate Covers(v: Area, a: nat) { v.start <= a < v.end }

  function AttrAt(v: Area, a: nat): Attr
    requires Covers(v, a)
  {
    Attr(v.perm, BackingAt(v.backing, v.start, a))
  }

  function Lookup(vs: seq<Area>, a: nat): Option<Attr> {
    if |vs| == 0 then None
    else if Covers(vs[0], a) then Some(AttrAt(vs[0], a))
    else Lookup(vs[1..], a)
  }

  // ---- order ----

  ghost predicate Ordered(vs: seq<Area>) {
    && (forall i | 0 <= i < |vs| :: vs[i].start <= vs[i].end && vs[i].start % PAGE == 0 && vs[i].end % PAGE == 0)
    && (forall i, j | 0 <= i < j < |vs| :: vs[i].start < vs[j].start && vs[i].end <= vs[j].start)
  }

  // The lower marker, then non-empty areas, and the upper marker if top.
  ghost predicate Marked(vs: seq<Area>, top: bool) {
    && |vs| >= (if top then 2 else 1) && vs[0].start == vs[0].end == 0
    && (top ==> vs[|vs| - 1].start == vs[|vs| - 1].end == EDGE)
    && (forall i | 0 < i < (if top then |vs| - 1 else |vs|) :: vs[i].start < vs[i].end)
  }

  // vma::addr_compare: neither wholly before start..end nor wholly behind it
  predicate Meets(v: Area, start: nat, end: nat) { v.start < end && start < v.end }

  // contains()
  predicate Within(v: Area, start: nat, end: nat) { start <= v.start && v.end <= end }

  lemma {:induction false} LookupAt(vs: seq<Area>, i: nat, a: nat)
    requires Ordered(vs) && i < |vs| && Covers(vs[i], a)
    ensures Lookup(vs, a) == Some(AttrAt(vs[i], a))
  {
    if i > 0 {
      assert Lookup(vs, a) == Lookup(vs[1..], a);
      LookupAt(vs[1..], i - 1, a);
    }
  }

  lemma {:induction false} LookupNone(vs: seq<Area>, a: nat)
    requires forall i | 0 <= i < |vs| :: !Covers(vs[i], a)
    ensures Lookup(vs, a) == None
  {
    if |vs| > 0 {
      LookupNone(vs[1..], a);
    }
  }

  lemma LookupFind(vs: seq<Area>, a: nat) returns (i: nat)
    requires Lookup(vs, a).Some?
    ensures i < |vs| && Covers(vs[i], a) && Lookup(vs, a) == Some(AttrAt(vs[i], a))
  {
    if Covers(vs[0], a) {
      i := 0;
    } else {
      i := LookupFind(vs[1..], a);
      i := i + 1;
    }
  }

  lemma {:induction false} LookupConcat(xs: seq<Area>, ys: seq<Area>, a: nat)
    ensures Lookup(xs + ys, a) == if Lookup(xs, a).Some? then Lookup(xs, a) else Lookup(ys, a)
  {
    if |xs| == 0 {
      assert xs + ys == ys;
    } else {
      assert (xs + ys)[1..] == xs[1..] + ys;
      LookupConcat(xs[1..], ys, a);
    }
  }

  // ---- inserting, splitting, erasing ----

  // The first area that does not start before s.
  function LowerBound(vs: seq<Area>, s: nat): (k: nat)
    ensures k <= |vs|
    ensures forall j | 0 <= j < k :: vs[j].start < s
    ensures k < |vs| ==> vs[k].start >= s
  {
    if |vs| == 0 || vs[0].start >= s then 0 else 1 + LowerBound(vs[1..], s)
  }

  // set::insert(): nothing happens if an area with this start is already there.
  function Insert(vs: seq<Area>, v: Area): seq<Area> {
    var k := LowerBound(vs, v.start);
    if k < |vs| && vs[k].start == v.start then vs else vs[..k] + [v] + vs[k..]
  }

  function Erase(vs: seq<Area>, i: nat): seq<Area>
    requires i < |vs|
  {
    vs[..i] + vs[i + 1..]
  }

  predicate Inside(v: Area, edge: nat) { v.start < edge < v.end }

  // vma::split() and file_vma::split() of the area at i
  function Split(vs: seq<Area>, i: nat, edge: nat): seq<Area>
    requires i < |vs|
  {
    var v := vs[i];
    if !Inside(v, edge) then vs
    else Insert(vs[i := v.(end := edge)], MakeArea(edge, v.end, v.perm, BackingAt(v.backing, v.start, edge)))
  }

  function Upper(v: Area, edge: nat): Area
    requires Inside(v, edge)
  {
    Area(edge, v.end, v.perm, BackingAt(v.backing, v.start, edge))
  }

  lemma AlignedFixed(a: nat)
    requires a % PAGE == 0
    ensures AlignDown(a) == a && AlignUp(a) == a
  {
  }

  lemma FixedArea(start: nat, size: nat, perm: nat, backing: Backing)
    requires start % PAGE == 0 && size % PAGE == 0
    ensures (start + size) % PAGE == 0
    ensures MakeArea(start, start + size, perm, backing) == Area(start, start + size, perm, backing)
  {
    AlignedFixed(start);
    AlignedFixed(start + size);
  }

  lemma BoundIs(vs: seq<Area>, k: nat, edge: nat)
    requires k <= |vs| && (forall j | 0 <= j < k :: vs[j].start < edge) && (k < |vs| ==> vs[k].start >= edge)
    ensures LowerBound(vs, edge) == k
  {
  }

  lemma UpperIs(v: Area, edge: nat)
    requires Inside(v, edge) && edge % PAGE == 0 && v.end % PAGE == 0
    ensures MakeArea(edge, v.end, v.perm, BackingAt(v.backing, v.start, edge)) == Upper(v, edge)
  {
    AlignedFixed(edge);
    AlignedFixed(v.end);
  }

  lemma InsertUpper(w: seq<Area>, i: nat, hi: Area)
    requires i < |w| && (forall j | 0 <= j <= i :: w[j].start < hi.start) && (i + 1 < |w| ==> w[i + 1].start > hi.start)
    ensures Insert(w, hi) == w[..i + 1] + [hi] + w[i + 1..]
  {
    BoundIs(w, i + 1, hi.start);
  }

  // A split on a page boundary puts the upper part right behind the lower one.
  lemma SplitShape(vs: seq<Area>, i: nat, edge: nat)
    requires Ordered(vs) && i < |vs| && edge % PAGE == 0 && Inside(vs[i], edge)
    ensures Split(vs, i, edge) == vs[..i] + [vs[i].(end := edge)] + [Upper(vs[i], edge)] + vs[i + 1..]
    ensures Cut(vs, i, edge, Split(vs, i, edge))
  {
    var w := vs[i := vs[i].(end := edge)];
    UpperIs(vs[i], edge);
    InsertUpper(w, i, Upper(vs[i], edge));
    assert w[..i + 1] == vs[..i] + [vs[i].(end := edge)];
    assert w[i + 1..] == vs[i + 1..];
  }

  // r is vs with the area at i cut in two at edge.
  ghost predicate Cut(vs: seq<Area>, i: nat, edge: nat, r: seq<Area>) {
    && i < |vs| && |r| == |vs| + 1 && Inside(vs[i], edge)
    && r[i] == vs[i].(end := edge) && r[i + 1] == Upper(vs[i], edge)
    && (forall j | 0 <= j < i :: r[j] == vs[j]) && (forall j | i + 1 < j < |r| :: r[j] == vs[j - 1])
  }

  lemma CutOrdered(vs: seq<Area>, i: nat, edge: nat, r: seq<Area>)
    requires Ordered(vs) && edge % PAGE == 0 && Cut(vs, i, edge, r)
    ensures Ordered(r)
  {
    forall j, k | 0 <= j < k < |r| ensures r[j].start < r[k].start && r[j].end <= r[k].start {
      var j', k' := if j <= i then j else j - 1, if k <= i then k else k - 1;
      assert j' == k' || (vs[j'].start < vs[k'].start && vs[j'].end <= vs[k'].start);
    }
  }

  lemma SplitOrdered(vs: seq<Area>, i: nat, edge: nat)
    requires Ordered(vs) && i < |vs| && edge % PAGE == 0
    ensures Ordered(Split(vs, i, edge))
  {
    if Inside(vs[i], edge) {
      SplitShape(vs, i, edge);
      CutOrdered(vs, i, edge, Split(vs, i, edge));
    }
  }

  lemma SplitLookup(vs: seq<Area>, i: nat, edge: nat, a: nat)
    requires Ordered(vs) && i < |vs| && edge % PAGE == 0
    ensures Lookup(Split(vs, i, edge), a) == Lookup(vs, a)
  {
    if Inside(vs[i], edge) {
      SplitShape(vs, i, edge);
      var v := vs[i];
      var lo, hi := v.(end := edge), Upper(v, edge);
      assert vs == vs[..i] + [v] + vs[i + 1..];
      LookupConcat(vs[..i] + [v], vs[i + 1..], a);
      LookupConcat(vs[..i], [v], a);
      LookupConcat(vs[..i] + [lo] + [hi], vs[i + 1..], a);
      LookupConcat(vs[..i] + [lo], [hi], a);
      LookupConcat(vs[..i], [lo], a);
    }
  }

  lemma AlignBounds(a: nat, m: nat)
    requires m % PAGE == 0 && m <= a
    ensures m <= AlignDown(a) <= a && (a % PAGE != 0 ==> AlignDown(a) < a)
  {
  }

  lemma UnalignedPlace(w: seq<Area>, i: nat, s: nat)
    requires i < |w| && (forall j | 0 <= j < i :: w[j].start < w[i].start) && w[i].start <= s
    requires i + 1 < |w| ==> s < w[i + 1].start
    ensures LowerBound(w, s) == if s == w[i].start then i else i + 1
  {
  }

  lemma UnalignedInsert(w: seq<Area>, i: nat, hi: Area)
    requires i < |w| && (forall j | 0 <= j < i :: w[j].start < w[i].start) && w[i].start <= hi.start
    requires i + 1 < |w| ==> hi.start < w[i + 1].start
    ensures Insert(w, hi) == if hi.start == w[i].start then w else w[..i + 1] + [hi] + w[i + 1..]
  {
    UnalignedPlace(w, i, hi.start);
  }

  lemma InsertedBoth(vs: seq<Area>, i: nat, lo: Area, hi: Area)
    requires i < |vs| && (forall j | 0 <= j < i :: vs[j].start < vs[i].start) && vs[i].start == lo.start <= hi.start
    requires i + 1 < |vs| ==> hi.start < vs[i + 1].start
    ensures Insert(vs[i := lo], hi) == if hi.start == lo.start then vs[..i] + [lo] + vs[i + 1..]
                                       else vs[..i] + [lo] + [hi] + vs[i + 1..]
  {
    var w := vs[i := lo];
    UnalignedInsert(w, i, hi);
    assert w == vs[..i] + [lo] + vs[i + 1..];
    assert w[..i + 1] == vs[..i] + [lo];
  }

  // Off a page boundary, the new area starts at the page below the edge.
  lemma UnalignedShape(vs: seq<Area>, i: nat, edge: nat)
    requires Ordered(vs) && i < |vs| && Inside(vs[i], edge) && edge % PAGE != 0
    ensures var v := vs[i]; var lo := v.(end := edge);
            var hi := MakeArea(edge, v.end, v.perm, BackingAt(v.backing, v.start, edge));
            Split(vs, i, edge) == if AlignDown(edge) == v.start then vs[..i] + [lo] + vs[i + 1..]
                                  else vs[..i] + [lo] + [hi] + vs[i + 1..]
  {
    var v := vs[i];
    AlignBounds(edge, v.start);
    InsertedBoth(vs, i, v.(end := edge), MakeArea(edge, v.end, v.perm, BackingAt(v.backing, v.start, edge)));
  }

  /** split() keeps every attribute exactly if the edge is page-aligned, or the area is
      anonymous and the page of the edge is not its first: else the upper part is lost, or
      its file offsets shift. */
  lemma SplitExact(vs: seq<Area>, i: nat, edge: nat)
    requires Ordered(vs) && i < |vs| && Inside(vs[i], edge)
    ensures (forall a: nat :: Lookup(Split(vs, i, edge), a) == Lookup(vs, a))
            <==> (edge % PAGE == 0 || (vs[i].backing.Anon? && AlignDown(edge) != vs[i].start))
  {
    forall a: nat
      ensures edge % PAGE == 0 ==> Lookup(Split(vs, i, edge), a) == Lookup(vs, a)
      ensures edge % PAGE != 0 ==> UnalignedAt(vs[i], edge, a, Lookup(vs, a), Lookup(Split(vs, i, edge), a))
    {
      if edge % PAGE == 0 {
        SplitLookup(vs, i, edge, a);
      } else {
        UnalignedLookup(vs, i, edge, a);
      }
    }
    SplitDecides(vs, i, edge, Split(vs, i, edge));
  }

  // What the lookup of a becomes by an unaligned split of v.
  predicate UnalignedAt(v: Area, edge: nat, a: nat, was: Option<Attr>, now: Option<Attr>)
    requires Inside(v, edge)
  {
    if !(edge <= a < v.end) then now == was
    else
      && was == Some(AttrAt(v, a))
      && now == if AlignDown(edge) == v.start then None
                else if AlignDown(edge) > a then now
                else Some(Attr(v.perm, BackingAt(BackingAt(v.backing, v.start, edge), AlignDown(edge), a)))
  }

  lemma SplitDecides(vs: seq<Area>, i: nat, edge: nat, r: seq<Area>)
    requires Ordered(vs) && i < |vs| && Inside(vs[i], edge)
    requires edge % PAGE == 0 ==> forall a: nat :: Lookup(r, a) == Lookup(vs, a)
    requires edge % PAGE != 0 ==> forall a: nat :: UnalignedAt(vs[i], edge, a, Lookup(vs, a), Lookup(r, a))
    ensures (forall a: nat :: Lookup(r, a) == Lookup(vs, a))
            <==> (edge % PAGE == 0 || (vs[i].backing.Anon? && AlignDown(edge) != vs[i].start))
  {
    AlignBounds(edge, vs[i].start);
    if edge % PAGE != 0 {
      assert UnalignedAt(vs[i], edge, edge, Lookup(vs, edge), Lookup(r, edge));
      if vs[i].backing.Anon? && AlignDown(edge) != vs[i].start {
        forall a: nat ensures Lookup(r, a) == Lookup(vs, a) {
          assert UnalignedAt(vs[i], edge, a, Lookup(vs, a), Lookup(r, a));
        }
      } else {
        assert Lookup(r, edge) != Lookup(vs, edge);
      }
    }
  }

  lemma UnalignedLookup(vs: seq<Area>, i: nat, edge: nat, a: nat)
    requires Ordered(vs) && i < |vs| && Inside(vs[i], edge) && edge % PAGE != 0
    ensures UnalignedAt(vs[i], edge, a, Lookup(vs, a), Lookup(Split(vs, i, edge), a))
  {
    var v := vs[i];
    var lo := v.(end := edge);
    var hi := MakeArea(edge, v.end, v.perm, BackingAt(v.backing, v.start, edge));
    UnalignedShape(vs, i, edge);
    AlignedFixed(v.end);
    AlignBounds(edge, v.start);
    assert vs == vs[..i] + [v] + vs[i + 1..];
    LookupConcat(vs[..i] + [v], vs[i + 1..], a);
    LookupConcat(vs[..i], [v], a);
    LookupConcat(vs[..i] + [lo] + [hi], vs[i + 1..], a);
    LookupConcat(vs[..i] + [lo], [hi], a);
    LookupConcat(vs[..i] + [lo], vs[i + 1..], a);
    LookupConcat(vs[..i], [lo], a);
    if Covers(v, a) {
      LookupNone(vs[..i], a);
      LookupNone(vs[i + 1..], a);
    }
  }

  lemma EraseOrdered(vs: seq<Area>, i: nat)
    requires Ordered(vs) && i < |vs|
    ensures Ordered(Erase(vs, i))
  {
  }

  lemma EraseLookup(vs: seq<Area>, i: nat, a: nat)
    requires Ordered(vs) && i < |vs|
    ensures Lookup(Erase(vs, i), a) == if Covers(vs[i], a) then None else Lookup(vs, a)
  {
    var es := Erase(vs, i);
    if Covers(vs[i], a) {
      assert forall j | 0 <= j < |es| :: !Covers(es[j], a);
      LookupNone(es, a);
    } else {
      assert vs == vs[..i] + [vs[i]] + vs[i + 1..];
      LookupConcat(vs[..i] + [vs[i]], vs[i + 1..], a);
      LookupConcat(vs[..i], [vs[i]], a);
      LookupConcat(vs[..i], vs[i + 1..], a);
    }
  }

  // ---- what the loops over a range keep ----

  // The areas from lo to hi are the ones still to be visited.
  ghost predicate Visiting(vs: seq<Area>, i: nat, hi: nat, start: nat, end: nat, top: bool) {
    && Ordered(vs) && Marked(vs, top) && 1 <= i <= hi <= |vs|
    && start % PAGE == 0 && end % PAGE == 0
    && (forall j | hi <= j < |vs| :: end <= vs[j].start)
  }

  // r is vs after vs[i].split(edge), which changes no attribute.
  ghost predicate SplitDone(vs: seq<Area>, i: nat, edge: nat, r: seq<Area>) {
    && i < |vs| && (if Inside(vs[i], edge) then Cut(vs, i, edge, r) else r == vs)
    && Ordered(r) && (forall a: nat :: Lookup(r, a) == Lookup(vs, a))
  }

  lemma CutMarked(vs: seq<Area>, i: nat, edge: nat, r: seq<Area>, top: bool)
    requires Marked(vs, top) && i >= 1 && Cut(vs, i, edge, r)
    ensures Marked(r, top)
  {
    forall j | 0 < j < (if top then |r| - 1 else |r|) ensures r[j].start < r[j].end {
      assert j > i + 1 ==> r[j] == vs[j - 1];
    }
  }

  lemma CutBehind(vs: seq<Area>, i: nat, hi: nat, edge: nat, r: seq<Area>, end: nat)
    requires Cut(vs, i, edge, r) && i < hi <= |vs| && forall j | hi <= j < |vs| :: end <= vs[j].start
    ensures forall j | hi + 1 <= j < |r| :: end <= r[j].start
  {
    forall j | hi + 1 <= j < |r| ensures end <= r[j].start {
      assert r[j] == vs[j - 1];
    }
  }

  lemma SplitVisiting(vs: seq<Area>, i: nat, hi: nat, start: nat, end: nat, top: bool, edge: nat, r: seq<Area>)
    requires Visiting(vs, i, hi, start, end, top) && i < hi && SplitDone(vs, i, edge, r)
    ensures Visiting(r, i, hi + |r| - |vs|, start, end, top)
    ensures i < hi + |r| - |vs| && forall j | 0 <= j < i :: r[j] == vs[j]
  {
    if Inside(vs[i], edge) {
      CutMarked(vs, i, edge, r, top);
      CutBehind(vs, i, hi, edge, r, end);
    }
  }

  ghost predicate Clear(vs: seq<Area>, i: nat, start: nat, end: nat)
    requires i <= |vs|
  {
    forall j | 0 <= j < i :: !Meets(vs[j], start, end)
  }

  ghost predicate SameOutside(vs: seq<Area>, us: seq<Area>, start: nat, end: nat) {
    forall a: nat | !(start <= a < end) :: Lookup(us, a) == Lookup(vs, a)
  }

  // r is vs after both splits of the area at i: what is left at i is inside the range or clear of it.
  ghost predicate SplitTwice(vs: seq<Area>, i: nat, hi: nat, start: nat, end: nat, r: seq<Area>) {
    && i < |vs| && i < hi + |r| - |vs| && Visiting(r, i, hi + |r| - |vs|, start, end, true)
    && (forall j | 0 <= j < i :: r[j] == vs[j])
    && r[i].start == vs[i].start && r[i].perm == vs[i].perm
    && (Within(r[i], start, end) || !Meets(r[i], start, end))
    && (forall a: nat :: Lookup(r, a) == Lookup(vs, a))
  }

  lemma SplitBoth(vs: seq<Area>, i: nat, hi: nat, start: nat, end: nat, q: seq<Area>, r: seq<Area>)
    requires Visiting(vs, i, hi, start, end, true) && i < hi
    requires SplitDone(vs, i, end, q) && SplitDone(q, i, start, r)
    ensures SplitTwice(vs, i, hi, start, end, r)
  {
    SplitVisiting(vs, i, hi, start, end, true, end, q);
    SplitVisiting(q, i, hi + |q| - |vs|, start, end, true, start, r);
  }

  lemma EraseVisiting(vs: seq<Area>, i: nat, hi: nat, start: nat, end: nat)
    requires Visiting(vs, i, hi, start, end, true) && i < hi && Within(vs[i], start, end)
    ensures var r, top := Erase(vs, i), i != |vs| - 1;
            && Visiting(r, i, hi - 1, start, end, top)
            && (forall j | 0 <= j < i :: r[j] == vs[j])
            && SameOutside(vs, r, start, end)
            && (!top ==> i == |r| && vs[i].start == EDGE)
  {
    var r := Erase(vs, i);
    EraseOrdered(vs, i);
    forall a: nat | !(start <= a < end) ensures Lookup(r, a) == Lookup(vs, a) {
      EraseLookup(vs, i, a);
    }
  }

  // evacuate() has visited the areas before i.
  ghost predicate Evacuating(was: seq<Area>, vs: seq<Area>, i: nat, hi: nat, start: nat, end: nat, top: bool) {
    && Visiting(vs, i, hi, start, end, top) && Clear(vs, i, start, end) && SameOutside(was, vs, start, end)
    && (if top then i < hi == |vs| ==> start < EDGE < end else start < EDGE < end && i == |vs|)
  }

  // How far the visit still has to go.
  ghost function ToGo(vs: seq<Area>, i: nat, top: bool): int {
    if i < |vs| && top then 1 + EDGE - vs[i].start else 0
  }

  lemma EvacuateErase(was: seq<Area>, vs: seq<Area>, i: nat, hi: nat, start: nat, end: nat, r: seq<Area>)
    requires Evacuating(was, vs, i, hi, start, end, true) && i < hi && SplitTwice(vs, i, hi, start, end, r)
    requires Within(r[i], start, end)
    ensures Evacuating(was, Erase(r, i), i, hi + |r| - |vs| - 1, start, end, i != |r| - 1)
    ensures 0 <= ToGo(Erase(r, i), i, i != |r| - 1) < ToGo(vs, i, true)
  {
    EraseVisiting(r, i, hi + |r| - |vs|, start, end);
  }

  lemma EvacuateSkip(was: seq<Area>, vs: seq<Area>, i: nat, hi: nat, start: nat, end: nat, r: seq<Area>)
    requires Evacuating(was, vs, i, hi, start, end, true) && i < hi && SplitTwice(vs, i, hi, start, end, r)
    requires !Within(r[i], start, end)
    ensures Evacuating(was, r, i + 1, hi + |r| - |vs|, start, end, true)
    ensures 0 <= ToGo(r, i + 1, true) < ToGo(vs, i, true)
  {
  }

  lemma EvacuateStart(vs: seq<Area>, lo: nat, hi: nat, start: nat, end: nat)
    requires Visiting(vs, lo, hi, start, end, true)
    requires (forall j | 0 <= j < lo :: vs[j].end <= start) && (forall j | lo <= j < hi :: Meets(vs[j], start, end))
    ensures Evacuating(vs, vs, lo, hi, start, end, true)
  {
  }

  // ---- protect() ----

  // protect() leaves a alone, or gives it the new permission.
  predicate Repermed(was: Option<Attr>, now: Option<Attr>, perm: nat) {
    was.Some? && now == Some(was.value.(perm := perm))
  }

  ghost predicate Protecting(was: seq<Area>, vs: seq<Area>, i: nat, hi: nat, start: nat, end: nat, perm: nat) {
    && Visiting(vs, i, hi, start, end, true)
    && (forall j | 0 <= j < i :: Meets(vs[j], start, end) ==> vs[j].perm == perm)
    && (forall a: nat :: Lookup(vs, a) == Lookup(was, a)
                         || (start <= a < end && Repermed(Lookup(was, a), Lookup(vs, a), perm)))
  }

  lemma PermLookup(vs: seq<Area>, i: nat, perm: nat, a: nat)
    requires Ordered(vs) && i < |vs|
    ensures Lookup(vs[i := vs[i].(perm := perm)], a) ==
            if Covers(vs[i], a) then Some(AttrAt(vs[i], a).(perm := perm)) else Lookup(vs, a)
  {
    var w := vs[i].(perm := perm);
    assert vs == vs[..i] + [vs[i]] + vs[i + 1..];
    assert vs[i := w] == vs[..i] + [w] + vs[i + 1..];
    if Covers(vs[i], a) {
      LookupAt(vs[i := w], i, a);
    } else {
      LookupConcat(vs[..i] + [vs[i]], vs[i + 1..], a);
      LookupConcat(vs[..i], [vs[i]], a);
      LookupConcat(vs[..i] + [w], vs[i + 1..], a);
      LookupConcat(vs[..i], [w], a);
    }
  }

  lemma ProtectStep(was: seq<Area>, vs: seq<Area>, i: nat, hi: nat, start: nat, end: nat, perm: nat, r: seq<Area>)
    requires Protecting(was, vs, i, hi, start, end, perm) && i < hi && SplitTwice(vs, i, hi, start, end, r)
    requires Within(r[i], start, end)
    ensures Protecting(was, r[i := r[i].(perm := perm)], i + 1, hi + |r| - |vs|, start, end, perm)
  {
    var p := r[i := r[i].(perm := perm)];
    forall a: nat
      ensures Lookup(p, a) == Lookup(was, a) || (start <= a < end && Repermed(Lookup(was, a), Lookup(p, a), perm))
    {
      PermLookup(r, i, perm, a);
      if Covers(r[i], a) {
        LookupAt(r, i, a);
      }
    }
  }

  lemma ProtectEnd(was: seq<Area>, vs: seq<Area>, i: nat, hi: nat, start: nat, end: nat, perm: nat)
    requires Protecting(was, vs, i, hi, start, end, perm) && i == hi
    ensures forall a: nat ::
              if start <= a < end && Lookup(was, a).Some? then Repermed(Lookup(was, a), Lookup(vs, a), perm)
              else Lookup(vs, a) == Lookup(was, a)
  {
    forall a: nat | start <= a < end && Lookup(was, a).Some? ensures Repermed(Lookup(was, a), Lookup(vs, a), perm) {
      var j := LookupFind(vs, a);
      assert Meets(vs[j], start, end);
    }
  }

  // ---- find_hole() ----

  // size bytes at h lie below the upper marker and meet no area.
  ghost predicate Free(vs: seq<Area>, h: nat, size: nat) {
    h + size <= EDGE && forall j | 0 <= j < |vs| :: !Meets(vs[j], h, h + size)
  }

  // size bytes at h fit between areas k and k + 1.
  predicate FitsGap(vs: seq<Area>, k: nat, h: nat, size: nat) {
    k + 1 < |vs| && vs[k].end <= h && h + size <= vs[k + 1].start
  }

  lemma GapIsFree(vs: seq<Area>, k: nat, h: nat, size: nat)
    requires Ordered(vs) && Marked(vs, true) && size > 0 && FitsGap(vs, k, h, size)
    ensures Free(vs, h, size)
  {
    forall j | 0 <= j < |vs| ensures !Meets(vs[j], h, h + size) {
      assert j <= k ==> vs[j].end <= vs[k].end;
      assert j > k ==> vs[k + 1].start <= vs[j].start;
    }
  }

  lemma {:induction false} FreeHasGap(vs: seq<Area>, h: nat, size: nat, n: nat) returns (k: nat)
    requires Ordered(vs) && Marked(vs, true) && size > 0 && Free(vs, h, size)
    requires n < |vs| && h + size <= vs[n].start
    ensures FitsGap(vs, k, h, size)
    decreases n
  {
    assert !Meets(vs[n - 1], h, h + size);
    if vs[n - 1].end <= h {
      k := n - 1;
    } else {
      k := FreeHasGap(vs, h, size, n - 1);
    }
  }

  // p is the first gap that size bytes at or after start fit in, and hole where.
  ghost predicate FirstFit(vs: seq<Area>, start: nat, size: nat, p: nat, hole: Option<nat>) {
    && p < |vs| && (forall k: nat, h: nat | k < p && start <= h :: !FitsGap(vs, k, h, size))
    && (hole == None ==> p + 1 == |vs|)
    && (hole.Some? ==> start <= hole.value && FitsGap(vs, p, hole.value, size))
    && (hole.Some? ==> hole.value == start || hole.value == vs[p].end)
  }

  lemma FirstFitIsLeast(vs: seq<Area>, start: nat, size: nat, p: nat, hole: Option<nat>, h: nat)
    requires Ordered(vs) && Marked(vs, true) && size > 0 && FirstFit(vs, start, size, p, hole)
    requires start <= h && Free(vs, h, size)
    ensures hole.Some? && hole.value <= h
  {
    var k := FreeHasGap(vs, h, size, |vs| - 1);
    assert k >= p;
    assert vs[p].start <= vs[p].end && (k > p ==> vs[p].end <= vs[k].start <= vs[k].end);
  }

  // ---- inserting a new area ----

  // Where the search for a free place starts: address 0 stands for no hint.
  function SearchFrom(hint: nat): nat { if hint == 0 then 0x2000_0000_0000 else hint }

  // v has been mapped over whatever was there, unless it starts at 0, where it is left unmapped.
  ghost predicate Placed(was: seq<Area>, now: seq<Area>, v: Area) {
    forall a: nat :: Lookup(now, a) ==
                     if !Covers(v, a) then Lookup(was, a) else if v.start == 0 then None else Some(AttrAt(v, a))
  }

  lemma InsertAfter(vs: seq<Area>, v: Area, k: nat, j: nat)
    requires Ordered(vs) && k <= j < |vs| && vs[k].start >= v.start
    requires !Meets(vs[j], v.start, v.end) && vs[j].start != v.start && v.start < v.end
    ensures v.start < vs[j].start && v.end <= vs[j].start
  {
    assert vs[k].start <= vs[j].start;
  }

  lemma InsertBefore(vs: seq<Area>, v: Area, j: nat)
    requires j < |vs| && vs[j].start < v.start && !Meets(vs[j], v.start, v.end) && v.start < v.end && Ordered(vs)
    ensures vs[j].end <= v.start
  {
  }

  lemma InsertPlace(vs: seq<Area>, v: Area, k: nat)
    requires Ordered(vs) && v.start < v.end && k == LowerBound(vs, v.start)
    requires forall j | 0 <= j < |vs| :: !Meets(vs[j], v.start, v.end) && vs[j].start != v.start
    ensures forall j | 0 <= j < k :: vs[j].start < v.start && vs[j].end <= v.start
    ensures forall j | k <= j < |vs| :: v.start < vs[j].start && v.end <= vs[j].start
  {
    forall j | 0 <= j < k ensures vs[j].start < v.start && vs[j].end <= v.start {
      InsertBefore(vs, v, j);
    }
    forall j | k <= j < |vs| ensures v.start < vs[j].start && v.end <= vs[j].start {
      InsertAfter(vs, v, k, j);
    }
  }

  lemma InsertFits(vs: seq<Area>, v: Area)
    requires Ordered(vs) && v.start < v.end && v.start % PAGE == 0 && v.end % PAGE == 0
    requires forall j | 0 <= j < |vs| :: !Meets(vs[j], v.start, v.end) && vs[j].start != v.start
    ensures var k := LowerBound(vs, v.start); Insert(vs, v) == vs[..k] + [v] + vs[k..] && Ordered(Insert(vs, v))
  {
    var k := LowerBound(vs, v.start);
    InsertPlace(vs, v, k);
    InsertOrdered(vs, v, k, Insert(vs, v));
  }

  lemma InsertOrdered(vs: seq<Area>, v: Area, k: nat, r: seq<Area>)
    requires Ordered(vs) && v.start < v.end && v.start % PAGE == 0 && v.end % PAGE == 0
    requires k <= |vs| && r == vs[..k] + [v] + vs[k..]
    requires forall j | 0 <= j < k :: vs[j].start < v.start && vs[j].end <= v.start
    requires forall j | k <= j < |vs| :: v.start < vs[j].start && v.end <= vs[j].start
    ensures Ordered(r)
  {
    forall i, j | 0 <= i < j < |r| ensures r[i].start < r[j].start && r[i].end <= r[j].start {
      assert r[i] == if i < k then vs[i] else if i == k then v else vs[i - 1];
      assert r[j] == if j < k then vs[j] else if j == k then v else vs[j - 1];
    }
    forall i | 0 <= i < |r| ensures r[i].start <= r[i].end && r[i].start % PAGE == 0 && r[i].end % PAGE == 0 {
      assert r[i] == if i < k then vs[i] else if i == k then v else vs[i - 1];
    }
  }

  lemma InsertLookupAt(vs: seq<Area>, v: Area, k: nat, a: nat)
    requires k <= |vs| && Ordered(vs[..k] + [v] + vs[k..]) && Covers(v, a)
    ensures Lookup(vs[..k] + [v] + vs[k..], a) == Some(AttrAt(v, a))
  {
    assert (vs[..k] + [v] + vs[k..])[k] == v;
    LookupAt(vs[..k] + [v] + vs[k..], k, a);
  }

  lemma InsertLookupElse(vs: seq<Area>, v: Area, k: nat, a: nat)
    requires k <= |vs| && !Covers(v, a)
    ensures Lookup(vs[..k] + [v] + vs[k..], a) == Lookup(vs, a)
  {
    LookupConcat(vs[..k] + [v], vs[k..], a);
    LookupConcat(vs[..k], [v], a);
    assert vs == vs[..k] + vs[k..];
    LookupConcat(vs[..k], vs[k..], a);
  }

  lemma InsertLookup(vs: seq<Area>, v: Area, a: nat)
    requires Ordered(vs) && v.start < v.end && v.start % PAGE == 0 && v.end % PAGE == 0
    requires forall j | 0 <= j < |vs| :: !Meets(vs[j], v.start, v.end) && vs[j].start != v.start
    ensures Lookup(Insert(vs, v), a) == if Covers(v, a) then Some(AttrAt(v, a)) else Lookup(vs, a)
  {
    InsertFits(vs, v);
    var k := LowerBound(vs, v.start);
    if Covers(v, a) {
      InsertLookupAt(vs, v, k, a);
    } else {
      InsertLookupElse(vs, v, k, a);
    }
  }

  // Nothing is mapped where an area is to be.
  ghost predicate Vacant(vs: seq<Area>, v: Area) {
    v.start < v.end <= EDGE && forall a: nat | Covers(v, a) :: Lookup(vs, a) == None
  }

  lemma VacantIs(vs: seq<Area>, v: Area)
    requires v.start < v.end <= EDGE && forall j | 0 <= j < |vs| :: !Meets(vs[j], v.start, v.end)
    ensures Vacant(vs, v)
  {
    forall a: nat | Covers(v, a) ensures Lookup(vs, a) == None {
      LookupNone(vs, a);
    }
  }

  // An area is taken out, or nothing happens to any address.
  ghost predicate Removed(was: seq<Area>, dead: Option<Area>, now: seq<Area>) {
    && (dead.Some? ==> dead.value.start <= dead.value.end <= EDGE)
    && (dead.Some? ==> dead.value.start % PAGE == 0 && dead.value.end % PAGE == 0)
    && forall a: nat ::
         if dead.Some? && Covers(dead.value, a) then Lookup(was, a).Some? && Lookup(now, a) == None
         else Lookup(now, a) == Lookup(was, a)
  }

  lemma RemovedIs(was: seq<Area>, vs: seq<Area>, i: nat)
    requires Ordered(vs) && Marked(vs, true) && i < |vs| && forall a: nat :: Lookup(vs, a) == Lookup(was, a)
    ensures Removed(was, Some(vs[i]), Erase(vs, i))
  {
    forall a: nat
      ensures if Covers(vs[i], a) then Lookup(was, a).Some? && Lookup(Erase(vs, i), a) == None
              else Lookup(Erase(vs, i), a) == Lookup(was, a)
    {
      EraseLookup(vs, i, a);
      if Covers(vs[i], a) {
        LookupAt(vs, i, a);
      }
    }
  }

  class VmaList {
    var vmas: seq<Area>

    ghost predicate Valid()
      reads this
    {
      Ordered(vmas) && Marked(vmas, true)
    }

    constructor ()
      ensures Valid() && forall a: nat :: Lookup(vmas, a) == None
    {
      vmas := [Area(0, 0, 0, Anon), Area(EDGE, EDGE, 0, Anon)];
      new;
      forall a: nat ensures Lookup(vmas, a) == None {
        LookupNone(vmas, a);
      }
    }

    /** set::equal_range() with vma::addr_compare: the areas that meet start..end. */
    method EqualRange(start: nat, end: nat) returns (lo: nat, hi: nat)
      requires Valid() && start <= end
      ensures 1 <= lo <= hi <= |vmas|
      ensures forall j | 0 <= j < lo :: vmas[j].end <= start
      ensures forall j | hi <= j < |vmas| :: end <= vmas[j].start
      ensures forall j | lo <= j < hi :: Meets(vmas[j], start, end)
    {
      lo := 0;
      while lo < |vmas| && vmas[lo].end <= start
        invariant lo <= |vmas| && forall j | 0 <= j < lo :: vmas[j].end <= start
      {
        lo := lo + 1;
      }
      hi := lo;
      while hi < |vmas| && !(end <= vmas[hi].start)
        invariant lo <= hi <= |vmas| && forall j | lo <= j < hi :: vmas[j].start < end
      {
        hi := hi + 1;
      }
    }

    /** vma::split(): where edge lies inside the area at i, it is cut there. */
    method SplitArea(i: nat, edge: nat)
      requires Ordered(vmas) && i < |vmas| && edge % PAGE == 0
      modifies this
      ensures SplitDone(old(vmas), i, edge, vmas)
    {
      SplitOrdered(vmas, i, edge);
      forall a: nat ensures Lookup(Split(vmas, i, edge), a) == Lookup(vmas, a) {
        SplitLookup(vmas, i, edge, a);
      }
      if Inside(vmas[i], edge) {
        SplitShape(vmas, i, edge);
      }
      vmas := Split(vmas, i, edge);
    }

    // i->split(end); i->split(start);
    method SplitAround(i: nat, start: nat, end: nat, ghost hi: nat)
      requires Visiting(vmas, i, hi, start, end, true) && i < hi
      modifies this
      ensures SplitTwice(old(vmas), i, hi, start, end, vmas)
    {
      SplitArea(i, end);
      ghost var q := vmas;
      SplitArea(i, start);
      SplitBoth(old(vmas), i, hi, start, end, q, vmas);
    }

    // One area of the visit: split at the ends of the range, and erased if it is within.
    method EvacuateOne(i0: nat, hi0: nat, start: nat, end: nat, ghost was: seq<Area>)
      returns (i: nat, hi: nat, dead: Option<Area>, ghost top: bool)
      requires Evacuating(was, vmas, i0, hi0, start, end, true) && i0 < hi0
      modifies this
      ensures Evacuating(was, vmas, i, hi, start, end, top)
      ensures 0 <= ToGo(vmas, i, top) < ToGo(old(vmas), i0, true)
      ensures Removed(old(vmas), dead, vmas)
    {
      i, hi, dead, top := i0, hi0, None, true;
      ghost var vs := vmas;
      var n := |vmas|;
      SplitAround(i, start, end, hi);
      if Within(vmas[i], start, end) {
        EvacuateErase(was, vs, i, hi, start, end, vmas);
        hi := hi + |vmas| - n - 1;
        top := i != |vmas| - 1;
        dead := Some(vmas[i]);
        RemovedIs(vs, vmas, i);
        vmas := Erase(vmas, i);
      } else {
        EvacuateSkip(was, vs, i, hi, start, end, vmas);
        hi := hi + |vmas| - n;
        i := i + 1;
      }
    }

    /** evacuate(): exactly the addresses start..end are unmapped, although the list is
        split and erased while it is being visited.  The markers survive unless the upper
        one lies within the range, which the code does not exclude. */
    method Evacuate(start: nat, end: nat)
      requires Valid() && start <= end && start % PAGE == 0 && end % PAGE == 0
      modifies this
      ensures forall a: nat :: Lookup(vmas, a) == if start <= a < end then None else Lookup(old(vmas), a)
      ensures Ordered(vmas) && Marked(vmas, !(start < EDGE < end))
    {
      var i: nat, hi: nat := EqualRange(start, end);
      ghost var top := true;
      EvacuateStart(vmas, i, hi, start, end);
      while i < hi
        invariant Evacuating(old(vmas), vmas, i, hi, start, end, top)
        decreases ToGo(vmas, i, top)
      {
        var dead;
        i, hi, dead, top := EvacuateOne(i, hi, start, end, old(vmas));
      }
      EvacuateEnd(old(vmas), vmas, i, hi, start, end, top);
    }

    // One area of the visit: it gets the permission as far as it is in the range.
    method ProtectOne(i: nat, hi0: nat, start: nat, end: nat, perm: nat, ghost was: seq<Area>) returns (hi: nat)
      requires Protecting(was, vmas, i, hi0, start, end, perm) && i < hi0
      modifies this
      ensures Protecting(was, vmas, i + 1, hi, start, end, perm)
      ensures 0 <= ToGo(vmas, i + 1, true) < ToGo(old(vmas), i, true)
      ensures old(vmas)[i].perm == perm ==> vmas == old(vmas) && hi == hi0
    {
      hi := hi0;
      if vmas[i].perm == perm {
        return;
      }
      ghost var vs := vmas;
      var n := |vmas|;
      SplitAround(i, start, end, hi);
      hi := hi + |vmas| - n;
      if Within(vmas[i], start, end) {
        ProtectStep(was, vs, i, hi0, start, end, perm, vmas);
        vmas := vmas[i := vmas[i].(perm := perm)];
      }
    }

    /** protect(): exactly the mapped addresses of start..end get the permission; their
        place in the file, and everything outside, stays. */
    method Protect(start: nat, end: nat, perm: nat)
      requires Valid() && start <= end && start % PAGE == 0 && end % PAGE == 0
      modifies this
      ensures Valid()
      ensures forall a: nat ::
                if start <= a < end && Lookup(old(vmas), a).Some?
                then Repermed(Lookup(old(vmas), a), Lookup(vmas, a), perm)
                else Lookup(vmas, a) == Lookup(old(vmas), a)
      ensures (forall j | 0 <= j < |old(vmas)| && Meets(old(vmas)[j], start, end) :: old(vmas)[j].perm == perm) ==>
                vmas == old(vmas)
    {
      var i: nat, hi: nat := EqualRange(start, end);
      ghost var lo, top := i, hi;
      while i < hi
        invariant Protecting(old(vmas), vmas, i, hi, start, end, perm)
        invariant lo <= i
        invariant (forall j | lo <= j < top :: old(vmas)[j].perm == perm) ==> vmas == old(vmas) && hi == top
        decreases ToGo(vmas, i, true)
      {
        hi := ProtectOne(i, hi, start, end, perm, old(vmas));
        i := i + 1;
      }
      ProtectEnd(old(vmas), vmas, i, hi, start, end, perm);
    }

    /** find_hole(): the least address at or after start with size free bytes; it aborts
        (None) only if there is none. */
    method FindHole(start: nat, size: nat) returns (hole: Option<nat>)
      requires Valid() && size > 0
      ensures hole.Some? ==> start <= hole.value && Free(vmas, hole.value, size)
      ensures forall h: nat | start <= h && Free(vmas, h, size) :: hole.Some? && hole.value <= h
    {
      var p;
      p, hole := SearchGaps(start, size);
      if hole.Some? {
        GapIsFree(vmas, p, hole.value, size);
      }
      forall h: nat | start <= h && Free(vmas, h, size) ensures hole.Some? && hole.value <= h {
        FirstFitIsLeast(vmas, start, size, p, hole, h);
      }
    }

    // Its loop.
    method SearchGaps(start: nat, size: nat) returns (p: nat, hole: Option<nat>)
      requires |vmas| > 0
      ensures FirstFit(vmas, start, size, p, hole)
    {
      p := 0;
      while p + 1 < |vmas|
        invariant p < |vmas|
        invariant forall k: nat, h: nat | k < p && start <= h :: !FitsGap(vmas, k, h, size)
      {
        if start >= vmas[p].end && start + size <= vmas[p + 1].start {
          return p, Some(start);
        }
        if vmas[p].end >= start && vmas[p + 1].start - vmas[p].end >= size {
          return p, Some(vmas[p].end);
        }
        p := p + 1;
      }
      hole := None;
    }

    /** ismapped(): true exactly if every address of the range is mapped; of an empty range,
        if it lies strictly inside an area. */
    method IsMapped(addr: nat, size: nat) returns (r: bool)
      requires Valid()
      ensures size > 0 ==> (r <==> forall a: nat | addr <= a < addr + size :: Lookup(vmas, a).Some?)
      ensures size == 0 ==> (r <==> exists v :: v in vmas && Inside(v, addr))
    {
      var start, end := addr, addr + size;
      var p, hi := EqualRange(start, end);
      ghost var lo := p;
      while p < hi
        invariant lo <= p <= hi && addr <= start
        invariant if p == lo then start == addr else start < end
        invariant forall j | 0 <= j < p :: vmas[j].end <= start
        invariant forall a: nat | addr <= a < start :: Lookup(vmas, a).Some?
      {
        if vmas[p].start > start {
          NotCovered(vmas, p, start);
          return false;
        }
        forall a: nat | start <= a < vmas[p].end ensures Lookup(vmas, a).Some? {
          LookupAt(vmas, p, a);
        }
        assert vmas[p] in vmas && Meets(vmas[p], addr, end);
        start := vmas[p].end;
        if start >= end {
          return true;
        }
        p := p + 1;
      }
      if start < end {
        NotCovered(vmas, p, start);
      }
      return false;
    }

    /** allocate() with search: the area lands on the least free place at or after the
        hint, in whole pages, and nothing else changes; or the code aborts, for want of room.
        A hint inside the first page ends up at address 0, which the set refuses. */
    method AllocateFree(perm: nat, backing: Backing, hint: nat, size: nat) returns (start: Option<nat>)
      requires Valid() && size > 0 && size % PAGE == 0
      modifies this
      ensures Valid()
      ensures start == None ==> vmas == old(vmas)
      ensures start.Some? ==>
                && SearchFrom(hint) <= start.value && Free(old(vmas), start.value, size)
                && Placed(old(vmas), vmas, MakeArea(start.value, start.value + size, perm, backing))
                && Vacant(old(vmas), MakeArea(start.value, start.value + size, perm, backing))
      ensures forall h: nat | SearchFrom(hint) <= h && Free(old(vmas), h, size) :: start.Some? && start.value <= h
    {
      start := FindHole(SearchFrom(hint), size);
      if start.Some? {
        var v := MakeArea(start.value, start.value + size, perm, backing);
        PagesFree(vmas, start.value, size, v);
        VacantIs(vmas, v);
        if v.start > 0 {
          InsertValid(vmas, v);
        } else {
          InsertRefused(vmas, v);
        }
        vmas := Insert(vmas, v);
      }
    }

    /** allocate() at a fixed address: what was there is unmapped and the new area put in its
        place.  The set refuses an area that starts where a marker does, so a fixed mapping at
        address 0 only unmaps. */
    method AllocateFixed(perm: nat, backing: Backing, start: nat, size: nat)
      requires Valid() && size > 0 && size % PAGE == 0 && start % PAGE == 0
      requires start + size <= EDGE
      modifies this
      ensures Valid()
      ensures Placed(old(vmas), vmas, Area(start, start + size, perm, backing))
    {
      var v := MakeArea(start, start + size, perm, backing);
      FixedArea(start, size, perm, backing);
      Evacuate(start, start + size);
      InsertFree(v);
    }

    // vma_list.insert(), where nothing is mapped.
    method InsertFree(v: Area)
      requires Valid() && v.start < v.end <= EDGE && v.start % PAGE == 0 && v.end % PAGE == 0
      requires forall a: nat | Covers(v, a) :: Lookup(vmas, a) == None
      modifies this
      ensures Valid() && Placed(old(vmas), vmas, v) && (v.start > 0 ==> v in vmas)
    {
      Unmet(vmas, v.start, v.end);
      if v.start > 0 {
        InsertValid(vmas, v);
        InsertFits(vmas, v);
      } else {
        InsertRefused(vmas, v);
      }
      vmas := Insert(vmas, v);
    }
  }

  lemma NotCovered(vs: seq<Area>, p: nat, a: nat)
    requires Ordered(vs) && p <= |vs| && (forall j | 0 <= j < p :: vs[j].end <= a) && (p < |vs| ==> a < vs[p].start)
    ensures Lookup(vs, a) == None
  {
    forall j | 0 <= j < |vs| ensures !Covers(vs[j], a) {
      assert j > p ==> vs[p].start < vs[j].start;
    }
    LookupNone(vs, a);
  }

  // Rounding outwards to pages does not reach into a range of whole pages.
  lemma RoundOut(a: nat, b: nat, lo: nat, hi: nat)
    requires lo % PAGE == 0 && hi % PAGE == 0 && a <= b
    ensures hi <= a ==> hi <= AlignDown(a)
    ensures b <= lo ==> AlignUp(b) <= lo
  {
    if hi <= a {
      AlignBounds(a, hi);
    }
  }

  // The whole pages of a free range are free, since every area ends on a page boundary.
  lemma PagesFree(vs: seq<Area>, h: nat, size: nat, v: Area)
    requires Ordered(vs) && Marked(vs, true) && size > 0 && Free(vs, h, size)
    requires v.start == AlignDown(h) && v.end == AlignUp(h + size)
    ensures v.start < v.end <= EDGE && v.start % PAGE == 0 && v.end % PAGE == 0
    ensures forall j | 0 <= j < |vs| :: !Meets(vs[j], v.start, v.end)
  {
    forall j | 0 <= j < |vs| ensures !Meets(vs[j], v.start, v.end) {
      assert !Meets(vs[j], h, h + size);
      RoundOut(h, h + size, vs[j].start, vs[j].end);
    }
  }

  lemma InsertMarked(vs: seq<Area>, v: Area, k: nat, r: seq<Area>)
    requires Ordered(vs) && Marked(vs, true) && v.start < v.end
    requires 0 < k < |vs| && r == vs[..k] + [v] + vs[k..]
    ensures Marked(r, true)
  {
    forall i | 0 < i < |r| - 1 ensures r[i].start < r[i].end {
      assert r[i] == if i < k then vs[i] else if i == k then v else vs[i - 1];
    }
  }

  lemma InsertValid(vs: seq<Area>, v: Area)
    requires Ordered(vs) && Marked(vs, true) && v.start < v.end <= EDGE && v.start % PAGE == 0 && v.end % PAGE == 0
    requires forall j | 0 <= j < |vs| :: !Meets(vs[j], v.start, v.end)
    requires v.start > 0
    ensures Ordered(Insert(vs, v)) && Marked(Insert(vs, v), true)
    ensures Placed(vs, Insert(vs, v), v)
  {
    assert forall j | 0 <= j < |vs| :: vs[j].start != v.start;
    InsertFits(vs, v);
    InsertMarked(vs, v, LowerBound(vs, v.start), Insert(vs, v));
    forall a: nat ensures Lookup(Insert(vs, v), a) == if Covers(v, a) then Some(AttrAt(v, a)) else Lookup(vs, a) {
      InsertLookup(vs, v, a);
    }
  }

  lemma InsertRefused(vs: seq<Area>, v: Area)
    requires Ordered(vs) && Marked(vs, true) && v.start == 0
    requires forall j | 0 <= j < |vs| :: !Meets(vs[j], v.start, v.end)
    ensures Insert(vs, v) == vs && Placed(vs, vs, v)
  {
    forall a: nat | Covers(v, a) ensures Lookup(vs, a) == None {
      forall j | 0 <= j < |vs| ensures !Covers(vs[j], a) {
        assert !Meets(vs[j], v.start, v.end);
      }
      LookupNone(vs, a);
    }
  }

  lemma Unmet(vs: seq<Area>, start: nat, end: nat)
    requires Ordered(vs) && Marked(vs, true) && start < end <= EDGE
    requires forall a: nat | start <= a < end :: Lookup(vs, a) == None
    ensures forall j | 0 <= j < |vs| :: !Meets(vs[j], start, end)
  {
    forall j | 0 <= j < |vs| ensures !Meets(vs[j], start, end) {
      if Meets(vs[j], start, end) {
        var a := if start < vs[j].start then vs[j].start else start;
        LookupAt(vs, j, a);
      }
    }
  }

  lemma EvacuateEnd(was: seq<Area>, vs: seq<Area>, i: nat, hi: nat, start: nat, end: nat, top: bool)
    requires Evacuating(was, vs, i, hi, start, end, top) && i == hi
    ensures forall a: nat :: Lookup(vs, a) == if start <= a < end then None else Lookup(was, a)
    ensures Ordered(vs) && Marked(vs, !(start < EDGE < end))
  {
    forall a: nat | start <= a < end ensures Lookup(vs, a) == None {
      assert forall j | 0 <= j < |vs| :: !Covers(vs[j], a);
      LookupNone(vs, a);
    }
  }

  // ---- inputs for which the code does less than it says ----

  /** Unmapping a range around the top of the address space erases the marker there. */
  method MarkerErased() returns (l: VmaList)
    ensures fresh(l) && Ordered(l.vmas) && !l.Valid()
  {
    l := new VmaList();
    l.Evacuate(EDGE - PAGE, EDGE + PAGE);
  }

  /** A mapping at the fixed address 0 is refused, and what was there is gone. */
  method ZeroRefused(perm: nat) returns (l: VmaList)
    ensures fresh(l) && l.Valid() && forall a: nat :: Lookup(l.vmas, a) == None
  {
    l := new VmaList();
    l.AllocateFixed(perm, Anon, PAGE, PAGE);
    l.AllocateFixed(perm, Anon, 0, 2 * PAGE);
  }

  /** Splitting in the first page of an area loses what is above. */
  lemma SplitLoses(perm: nat)
    ensures var vs := [Area(PAGE, 3 * PAGE, perm, Anon)];
            && Ordered(vs) && Inside(vs[0], PAGE + 1)
            && Lookup(vs, 2 * PAGE).Some? && Lookup(Split(vs, 0, PAGE + 1), 2 * PAGE) == None
  {
    var vs := [Area(PAGE, 3 * PAGE, perm, Anon)];
    UnalignedShape(vs, 0, PAGE + 1);
    assert vs[..0] + [vs[0].(end := PAGE + 1)] + vs[1..] == [vs[0].(end := PAGE + 1)];
  }

  /** Splitting an area of a file inside a page shifts the file offsets above. */
  lemma SplitShifts(perm: nat, file: nat)
    ensures var vs := [Area(PAGE, 4 * PAGE, perm, File(file, 0, false))];
            && Ordered(vs) && Inside(vs[0], 2 * PAGE + 1)
            && Lookup(vs, 3 * PAGE) == Some(Attr(perm, File(file, 2 * PAGE, false)))
            && Lookup(Split(vs, 0, 2 * PAGE + 1), 3 * PAGE) == Some(Attr(perm, File(file, 2 * PAGE + 1, false)))
  {
    var vs := [Area(PAGE, 4 * PAGE, perm, File(file, 0, false))];
    UnalignedShape(vs, 0, 2 * PAGE + 1);
    var lo, hi := vs[0].(end := 2 * PAGE + 1), Area(2 * PAGE, 4 * PAGE, perm, File(file, PAGE + 1, false));
    assert Split(vs, 0, 2 * PAGE + 1) == [lo, hi];
    assert [lo, hi][1..] == [hi];
  }
}
