/**
  linear_map() of core/mmu.cc: a range of virtual addresses mapped at a fixed distance from
  the physical ones, with the largest pages that fit, the range first widened to multiples
  of a slop.
 */
module LinearMap {
  import opened Arith
  import opened PageTable

  // ---- the range and the blocks in it ----

  ghost predicate Commensurate(s: nat, level: nat)
    requires s > 0 && level <= 4
  {
    (s <= Step(level) ==> Step(level) % s == 0) && (Step(level) <= s ==> s % Step(level) == 0)
  }

  /** What linear_map() needs of the slop: a power of two, of at least a page. */
  ghost predicate IsSlop(s: nat) {
    s >= Step(0) && forall l: nat | l <= 4 :: Commensurate(s, l)
  }

  function Down(x: nat, s: nat): nat
    requires s > 0
  {
    x - x % s
  }

  function Up(x: nat, s: nat): nat
    requires s > 0
  {
    x - x % s + (s - 1)
  }

  // The block of v at a level lies within lo..hi.
  predicate Fits(lo: nat, hi: nat, level: nat, v: nat)
    requires level < 4
  {
    lo <= Down(v, Step(level)) && Down(v, Step(level)) + (Step(level) - 1) <= hi
  }

  // The level of the largest block of v within lo..hi that the processor has a page size for.
  function BlockLevel(lo: nat, hi: nat, nr: nat, v: nat): (l: nat)
    ensures l < 3
  {
    if nr > 2 && Fits(lo, hi, 2, v) then 2 else if nr > 1 && Fits(lo, hi, 1, v) then 1 else 0
  }

  /** Where linear_map() sends an address: the page of the largest block that fits, at the
      block's address plus delta, as far as that is a multiple of the page's size. */
  function Linear(lo: nat, hi: nat, nr: nat, delta: int, v: nat): Option<Mapping> {
    var s := Step(BlockLevel(lo, hi, nr, v));
    var b := Down(v, s);
    if b + delta < 0 then None else Some(Mapping(Down(b + delta, s) + v % s, true, true, true))
  }

  /** That is v + delta, as the caller wants, if and only if delta is a multiple of the page size used. */
  lemma LinearIsExact(lo: nat, hi: nat, nr: nat, delta: int, v: nat)
    requires lo <= v <= hi && lo % Step(0) == 0 && (hi + 1) % Step(0) == 0 && lo + delta >= 0
    ensures Linear(lo, hi, nr, delta, v) == Some(Mapping(v + delta, true, true, true))
       <==> delta % Step(BlockLevel(lo, hi, nr, v)) == 0
  {
    PageFits(lo, hi, v);
    BlockIsExact(Step(BlockLevel(lo, hi, nr, v)), v, delta);
  }

  lemma BlockIsExact(s: nat, v: nat, delta: int)
    requires s > 0 && Down(v, s) + delta >= 0
    ensures Down(Down(v, s) + delta, s) + v % s == v + delta <==> delta % s == 0
  {
    DivMod(Down(v, s), s, 0, v / s);
    ShiftMod(Down(v, s), delta, s);
  }

  // Every address of a range of whole pages has its page in the range.
  lemma PageFits(lo: nat, hi: nat, v: nat)
    requires lo <= v <= hi && lo % Step(0) == 0 && (hi + 1) % Step(0) == 0
    ensures Fits(lo, hi, 0, v)
  {
  }

  // A block that meets a range of whole blocks is inside it.
  lemma MeetsIsInside(b: nat, s: nat, lo: nat, hi: nat)
    requires s > 0 && b % s == 0 && lo % s == 0 && (hi + 1) % s == 0
    requires b <= hi && lo <= b + (s - 1)
    ensures lo <= b && b + (s - 1) <= hi
  {
    if b < lo {
      Gap(s, b, lo);
    }
    Gap(s, b, hi + 1);
  }

  lemma DownMultiple(x: nat, s: nat)
    requires s > 0
    ensures Down(x, s) % s == 0 && (Up(x, s) + 1) % s == 0 && Down(x, s) <= x <= Up(x, s)
    ensures x % s == 0 ==> Down(x, s) == x
    ensures (x + 1) % s == 0 ==> Up(x, s) == x
  {
    var q, r := x / s, x % s;
    assert x == s * q + r;
    DivMod(s * q, s, 0, q);
    assert s * (q + 1) == s * q + s;
    DivMod(s * (q + 1), s, 0, q + 1);
    if (x + 1) % s == 0 {
      var k := (x + 1) / s;
      assert x + 1 == s * k;
      if k <= q {
        MulMono(s, k, q);
      } else {
        MulMono(s, q + 1, k);
      }
    }
  }

  // Rounding does not leave the block of a larger page.
  lemma DownStays(x: nat, s: nat, b: nat, big: nat)
    requires s > 0 && big > 0 && big % s == 0 && b % big == 0 && b <= x < b + big
    ensures b <= Down(x, s) && Up(x, s) < b + big
  {
    var d := Down(x, s);
    DownMultiple(x, s);
    MultipleOf(b, big, s);
    if d < b {
      Gap(s, d, b);
    }
    Nested(b, big, d, s);
  }

  // ---- one run of linear_map() ----

  /** The widened range, the number of page sizes, the distance to the physical addresses and the slop;
      and whether large pages are and stay aligned, for which see Even. */
  datatype Span = Span(lo: nat, hi: nat, nr: nat, delta: int, slop: nat, aligned: bool)

  ghost predicate SpanOk(s: Span) {
    && 1 <= s.nr <= 3 && IsSlop(s.slop) && s.slop <= Step(s.nr - 1)
    && s.lo <= s.hi && s.lo % s.slop == 0 && (s.hi + 1) % s.slop == 0 && s.lo + s.delta >= 0
    && (s.hi < HALF || TOP - HALF <= s.lo <= s.hi < TOP)
  }

  predicate Meets(r: Role, i: nat, s: Span)
    requires r.level <= 3
  {
    EntryBase(r, i) <= s.hi && s.lo <= EntryBase(r, i) + (Step(r.level) - 1)
  }

  predicate Whole(r: Role, i: nat, s: Span)
    requires r.level <= 3
  {
    r.level < s.nr && s.lo <= EntryBase(r, i) && EntryBase(r, i) + (Step(r.level) - 1) <= s.hi
  }

  // The entry that leads to a table of this role is not mapped as one page.
  ghost predicate NotWhole(r: Role, s: Span)
    requires r.level <= 3
  {
    r.level + 1 < s.nr ==> !(s.lo <= r.base && r.base + (Step(r.level + 1) - 1) <= s.hi)
  }

  /** No page larger than the smallest is cut by the ends of the range: linear_map() would take
      it for a table. */
  ghost predicate NoneCut(m: Memory, roles: Roles, s: Span)
    requires TablesOk(m, roles)
  {
    forall f, i: nat | f in roles && i < 512 && m[f][i].Pte? && m[f][i].large && Meets(roles[f], i, s) ::
      Whole(roles[f], i, s)
  }

  // The distance is a multiple of every page size that fits somewhere in the range.
  ghost predicate FitsAllPages(s: Span) {
    forall l: nat, v: nat | l < s.nr && l < 3 && s.lo <= v <= s.hi && Fits(s.lo, s.hi, l, v) :: s.delta % Step(l) == 0
  }

  // Large pages are aligned, and those that are written will be.
  ghost predicate Even(m: Memory, roles: Roles, s: Span)
    requires TablesOk(m, roles)
  {
    s.aligned ==> LargeAligned(m, roles) && FitsAllPages(s)
  }

  lemma DownIs(v: nat, s: nat, b: nat)
    requires s > 0 && b % s == 0 && b <= v < b + s
    ensures Down(v, s) == b && v % s == v - b
  {
    var k := b / s;
    assert b == s * k;
    DivMod(v, s, v - b, k);
  }

  // If a table's range is not all to be mapped, no larger block around it is.
  lemma LargerDoesNotFit(r: Role, s: Span, v: nat, l: nat)
    requires RoleOk(r) && NotWhole(r, s) && Covers(r, v) && r.level < l < s.nr <= 3
    ensures !Fits(s.lo, s.hi, l, v)
  {
    var b := Down(v, Step(l));
    DownMultiple(v, Step(l));
    DownIs(v, Step(r.level + 1), r.base);
    if r.base < b {
      MultipleOf(b, Step(l), Step(r.level + 1));
      Gap(Step(r.level + 1), r.base, b);
    }
    Nested(b, Step(l), r.base, Step(r.level + 1));
  }

  /** A page written for an entry that is wholly in the range sends each of its addresses where it should go. */
  lemma PageIsLinear(r: Role, i: nat, s: Span, v: nat)
    requires RoleOk(r) && i < 512 && SpanOk(s) && Whole(r, i, s) && NotWhole(r, s) && InEntry(r, i, v)
    ensures EntryBase(r, i) + s.delta >= 0 && s.lo <= v <= s.hi
    ensures At(Pte(EntryBase(r, i) + s.delta, true, true, r.level > 0, true), r.level, v)
         == Linear(s.lo, s.hi, s.nr, s.delta, v)
  {
    EntryAligned(r, i);
    DownIs(v, Step(r.level), EntryBase(r, i));
    EntryInside(r, i, v);
    forall l | r.level < l < s.nr ensures !Fits(s.lo, s.hi, l, v) {
      LargerDoesNotFit(r, s, v, l);
    }
    assert BlockLevel(s.lo, s.hi, s.nr, v) == r.level;
  }

  // An entry that meets the range and is not wholly in it is larger than the slop, so it is no page of 4 KB.
  lemma CutIsLarger(r: Role, i: nat, s: Span)
    requires RoleOk(r) && i < 512 && SpanOk(s) && Meets(r, i, s) && !Whole(r, i, s)
    ensures r.level > 0 && s.slop < Step(r.level) && Step(r.level) % s.slop == 0
    ensures EntryBase(r, i) % s.slop == 0 && (EntryBase(r, i) + Step(r.level)) % s.slop == 0
  {
    var st := Step(r.level);
    EntryAligned(r, i);
    assert Commensurate(s.slop, r.level);
    if st <= s.slop {
      MultipleOf(s.lo, s.slop, st);
      MultipleOf(s.hi + 1, s.slop, st);
      MeetsIsInside(EntryBase(r, i), st, s.lo, s.hi);
      assert false;
    }
    MultipleOf(EntryBase(r, i), st, s.slop);
    SumMultiple(EntryBase(r, i), st, s.slop);
  }

  // ---- the table entries done so far ----

  // Where v goes once the entries of f below n are done.
  ghost function Goal(m0: Memory, f: nat, r: Role, s: Span, n: nat, v: nat): Option<Mapping>
    requires r.level <= 3
  {
    if s.lo <= v <= s.hi && Index(v, r.level) < n then Linear(s.lo, s.hi, s.nr, s.delta, v) else Walk(m0, f, r.level, v)
  }

  ghost predicate MappedTo(m0: Memory, m: Memory, f: nat, r: Role, s: Span, n: nat)
    requires r.level <= 3
  {
    forall v: nat | Covers(r, v) :: Walk(m, f, r.level, v) == Goal(m0, f, r, s, n, v)
  }

  function PageEntry(r: Role, i: nat, s: Span): Pte
    requires r.level <= 3 && EntryBase(r, i) + s.delta >= 0
  {
    Pte(EntryBase(r, i) + s.delta, true, true, r.level > 0, true)
  }

  lemma GoalNext(m0: Memory, f: nat, r: Role, i: nat, s: Span, v: nat)
    requires RoleOk(r) && i < 512 && Covers(r, v) && !InEntry(r, i, v)
    ensures Goal(m0, f, r, s, i + 1, v) == Goal(m0, f, r, s, i, v)
  {
    IndexIsEntry(r, v);
  }

  lemma GoalHere(m0: Memory, f: nat, r: Role, i: nat, s: Span, v: nat)
    requires RoleOk(r) && i < 512 && SpanOk(s) && Whole(r, i, s) && NotWhole(r, s) && InEntry(r, i, v)
    ensures Covers(r, v) && EntryBase(r, i) + s.delta >= 0
    ensures Goal(m0, f, r, s, i + 1, v) == At(PageEntry(r, i, s), r.level, v)
  {
    EntryInside(r, i, v);
    IndexIsEntry(r, v);
    PageIsLinear(r, i, s, v);
  }

  lemma WriteStepAt(m0: Memory, m: Memory, n: Memory, roles: Roles, f: nat, i: nat, s: Span, v: nat)
    requires WF(m, roles) && f in roles && i < 512 && SpanOk(s) && Whole(roles[f], i, s) && NotWhole(roles[f], s)
    requires EntryBase(roles[f], i) + s.delta >= 0 && n == m[f := m[f][i := PageEntry(roles[f], i, s)]]
    requires Covers(roles[f], v) && Walk(m, f, roles[f].level, v) == Goal(m0, f, roles[f], s, i, v)
    ensures Walk(n, f, roles[f].level, v) == Goal(m0, f, roles[f], s, i + 1, v)
  {
    var r, e := roles[f], PageEntry(roles[f], i, s);
    if InEntry(r, i, v) {
      WalkWritten(m, roles, f, i, e, v);
      GoalHere(m0, f, r, i, s, v);
    } else {
      WalkWrite(m, roles, f, i, e, f, v);
      GoalNext(m0, f, r, i, s, v);
    }
  }

  lemma TableStepAt(m0: Memory, m: Memory, n: Memory, roles: Roles, roles': Roles, f: nat, i: nat, s: Span, v: nat)
    requires WF(m, roles) && WF(n, roles') && f in roles && f in roles' && roles'[f] == roles[f] && i < 512 && SpanOk(s)
    requires roles[f].level > 0 && m[f][i].Pte? && !m[f][i].large && n[f] == m[f]
    requires m[f][i].addr in roles && MappedTo(m, n, m[f][i].addr, Kid(roles[f], i), s, 512)
    requires SameOutside(m, n, roles, Kid(roles[f], i))
    requires Covers(roles[f], v) && Walk(m, f, roles[f].level, v) == Goal(m0, f, roles[f], s, i, v)
    ensures Walk(n, f, roles[f].level, v) == Goal(m0, f, roles[f], s, i + 1, v)
  {
    var r := roles[f];
    IndexIsEntry(r, v);
    KidOk(r, i);
    if InEntry(r, i, v) {
      WalkInto(m, roles, f, i, v);
      WalkInto(n, roles', f, i, v);
    } else {
      WalkOutside(m, n, roles, Kid(r, i), f, v);
    }
  }

  // ---- the entries visited ----

  // What linear_map_level() is given for a table: the part of the range in it.
  ghost predicate Given(r: Role, s: Span, vstart: nat, vend: nat)
    requires r.level <= 3
  {
    && s.slop > 0 && vstart <= vend && Covers(r, vstart) && Covers(r, vend)
    && if r.level == 3 then Down(vstart, s.slop) == s.lo && Up(vend, s.slop) == s.hi
       else
         && vstart == Max(s.lo, r.base) && vstart % s.slop == 0
         && vend == Min(s.hi, r.base + Step(r.level + 1) - 1)
         && (vend + 1) % s.slop == 0
  }

  lemma IndexMono(r: Role, v: nat, w: nat)
    requires RoleOk(r) && Covers(r, v) && Covers(r, w) && v <= w && (w < HALF || TOP - HALF <= v)
    ensures Index(v, r.level) <= Index(w, r.level)
  {
    if r.level == 3 {
      IndexTop(v);
      IndexTop(w);
    } else {
      IndexAt(r.base, v, r.level);
      IndexAt(r.base, w, r.level);
    }
  }

  // An entry between those of two addresses lies between them.
  lemma EntryBetween(r: Role, v: nat, w: nat, i: nat)
    requires RoleOk(r) && Covers(r, v) && Covers(r, w) && v <= w && (w < HALF || TOP - HALF <= v)
    requires Index(v, r.level) <= i <= Index(w, r.level)
    ensures EntryBase(r, i) <= w && v <= EntryBase(r, i) + (Step(r.level) - 1)
  {
    IndexIsEntry(r, v);
    IndexIsEntry(r, w);
    var a, b := Index(v, r.level), Index(w, r.level);
    MulMono(Step(r.level), a, i);
    MulMono(Step(r.level), i, b);
    if r.level == 3 {
      IndexTop(v);
      IndexTop(w);
    }
  }

  function Max(x: nat, y: nat): nat { if x <= y then y else x }
  function Min(x: nat, y: nat): nat { if x < y then x else y }

  // From the first index to the last, the entries meet the range, and clamping gives the part in each.
  lemma VisitedMeets(r: Role, s: Span, vstart: nat, vend: nat, i: nat)
    requires RoleOk(r) && SpanOk(s) && Given(r, s, vstart, vend)
    requires Index(vstart, r.level) <= i <= Index(vend, r.level)
    ensures Meets(r, i, s)
    ensures var b, e := EntryBase(r, i), EntryBase(r, i) + (Step(r.level) - 1);
            && Max(Down(vstart, s.slop), b) == Max(s.lo, b) && Min(Up(vend, s.slop), e) == Min(s.hi, e)
  {
    DownMultiple(vstart, s.slop);
    DownMultiple(vend, s.slop);
    EntryBetween(r, vstart, vend, i);
    if r.level < 3 {
      EntryInTable(r, i);
    }
  }

  lemma EntryInTable(r: Role, i: nat)
    requires RoleOk(r) && r.level < 3 && i < 512
    ensures r.base <= EntryBase(r, i) && EntryBase(r, i) + Step(r.level) <= r.base + Step(r.level + 1)
  {
  }

  // All of the range that is in the table is between them.
  lemma VisitedIsAll(r: Role, s: Span, vstart: nat, vend: nat, v: nat)
    requires RoleOk(r) && SpanOk(s) && Given(r, s, vstart, vend) && Covers(r, v) && s.lo <= v <= s.hi
    ensures Index(vstart, r.level) <= Index(v, r.level) <= Index(vend, r.level)
  {
    if r.level == 3 {
      SameTopEntry(s, vstart, s.lo);
      SameTopEntry(s, vend, s.hi);
      IndexMono(r, s.lo, v);
      IndexMono(r, v, s.hi);
    } else {
      IndexMono(r, vstart, v);
      IndexMono(r, v, vend);
    }
  }

  lemma SameTopEntry(s: Span, x: nat, y: nat)
    requires SpanOk(s) && Canonical(x) && Canonical(y) && (x < HALF <==> y < HALF)
    requires y == Down(x, s.slop) || y == Up(x, s.slop)
    ensures Index(x, 3) == Index(y, 3)
  {
    var r := Role(3, 0);
    var i := Index(x, 3);
    IndexIsEntry(r, x);
    EntryAligned(r, i);
    assert Commensurate(s.slop, 3);
    DownStays(x, s.slop, EntryBase(r, i), Step(3));
    IndexIsEntry(r, y);
    assert InEntry(r, i, y);
  }

  // ---- the methods ----

  lemma SameOutsideTrans(m: Memory, n: Memory, o: Memory, roles: Roles, roles': Roles, k: Role)
    requires k.level <= 3 && Grown(roles, roles') && SameOutside(m, n, roles, k) && SameOutside(n, o, roles', k)
    ensures SameOutside(m, o, roles, k)
  {
  }

  // What changes at and below an entry's table changes at and below the table of the entry.
  lemma SameOutsideKid(m: Memory, n: Memory, roles: Roles, r: Role, i: nat)
    requires RoleOk(r) && 0 < r.level < 3 && i < 512 && SameOutside(m, n, roles, Kid(r, i))
    ensures SameOutside(m, n, roles, r)
  {
    KidOk(r, i);
    forall f | f in roles && !Under(roles[f], r) ensures f in m && f in n && n[f] == m[f] {
      if Under(roles[f], Kid(r, i)) {
        EntryInside(r, i, roles[f].base);
      }
    }
  }

  ghost predicate Ready(pt: Tables, f: nat, s: Span)
    reads pt
  {
    && pt.Valid() && f in pt.roles && NotWhole(pt.roles[f], s) && NoneCut(pt.mem, pt.roles, s)
    && Even(pt.mem, pt.roles, s)
  }

  // The table an entry leads to, made if there is none.
  method Enter(pt: Tables, f: nat, i: nat, ghost s: Span) returns (t: nat)
    requires Ready(pt, f, s) && SpanOk(s) && i < 512 && pt.roles[f].level > 0
    requires Meets(pt.roles[f], i, s) && !Whole(pt.roles[f], i, s)
    modifies pt
    ensures Ready(pt, f, s) && Grown(old(pt.roles), pt.roles) && pt.roles[f] == old(pt.roles[f])
    ensures t in pt.roles && pt.roles[t] == Kid(pt.roles[f], i)
    ensures pt.mem[f][i].Pte? && !pt.mem[f][i].large && pt.mem[f][i].addr == t
    ensures forall g | g in old(pt.roles) && g != f :: pt.mem[g] == old(pt.mem[g])
    ensures forall v: nat | Covers(pt.roles[f], v) ::
              Walk(pt.mem, f, pt.roles[f].level, v) == old(Walk(pt.mem, f, pt.roles[f].level, v))
  {
    var e := pt.mem[f][i];
    assert EntryOk(pt.roles, pt.roles[f], i, e);
    if e.Empty? || !e.present {
      ghost var m, roles := pt.mem, pt.roles;
      t := pt.AllocateIntermediateLevel(f, i);
      forall v: nat | Covers(roles[f], v)
        ensures Walk(pt.mem, f, roles[f].level, v) == Walk(m, f, roles[f].level, v)
      {
        AllocWalk(m, pt.mem, roles, f, i, t, f, v);
      }
    } else {
      t := e.addr;
    }
  }

  // One entry is done: from `old` on, entry i of f goes where it should.
  ghost predicate Done(m0: Memory, m: Memory, roles: Roles, pt: Tables, f: nat, s: Span, n: nat)
    requires f in roles && roles[f].level <= 3
    reads pt
  {
    && Ready(pt, f, s) && Grown(roles, pt.roles) && MappedTo(m0, pt.mem, f, roles[f], s, n)
    && (roles[f].level < 3 ==> SameOutside(m, pt.mem, roles, roles[f]))
  }

  lemma WriteEven(m: Memory, roles: Roles, f: nat, i: nat, s: Span, n: Memory)
    requires WF(m, roles) && TablesOk(n, roles) && Even(m, roles, s) && f in roles && i < 512 && Whole(roles[f], i, s)
    requires s.nr <= 3 && EntryBase(roles[f], i) + s.delta >= 0
    requires n == m[f := m[f][i := Pte(EntryBase(roles[f], i) + s.delta, true, true, roles[f].level > 0, true)]]
    ensures Even(n, roles, s)
  {
    if s.aligned {
      var r, b := roles[f], EntryBase(roles[f], i);
      EntryAligned(r, i);
      DownIs(b, Step(r.level), b);
      assert Fits(s.lo, s.hi, r.level, b);
      ShiftMod(b, s.delta, Step(r.level));
    }
  }

  method MapPage(pt: Tables, f: nat, level: nat, i: nat, addr: nat, ghost s: Span, ghost m0: Memory)
    requires Ready(pt, f, s) && SpanOk(s) && i < 512 && pt.roles[f].level == level && Whole(pt.roles[f], i, s)
    requires addr == EntryBase(pt.roles[f], i) + s.delta && MappedTo(m0, pt.mem, f, pt.roles[f], s, i)
    modifies pt
    ensures Done(m0, old(pt.mem), old(pt.roles), pt, f, s, i + 1)
  {
    ghost var r, m := pt.roles[f], pt.mem;
    pt.WriteEntry(f, i, Pte(addr, true, true, level > 0, true));
    WriteEven(m, pt.roles, f, i, s, pt.mem);
    forall v: nat | Covers(r, v) ensures Walk(pt.mem, f, r.level, v) == Goal(m0, f, r, s, i + 1, v) {
      WriteStepAt(m0, m, pt.mem, pt.roles, f, i, s, v);
    }
  }

  // The part of the range in an entry that is not mapped whole is what its table is given.
  lemma KidGiven(r: Role, i: nat, s: Span)
    requires RoleOk(r) && i < 512 && SpanOk(s) && Meets(r, i, s) && !Whole(r, i, s)
    ensures r.level > 0 && RoleOk(Kid(r, i)) && NotWhole(Kid(r, i), s)
    ensures Given(Kid(r, i), s, Max(s.lo, EntryBase(r, i)), Min(s.hi, EntryBase(r, i) + (Step(r.level) - 1)))
  {
    CutIsLarger(r, i, s);
    KidOk(r, i);
  }

  // The values that do not change from one level to the next.
  datatype Fixed = Fixed(delta: int, slop: nat, nr: nat)

  ghost predicate Describes(c: Fixed, s: Span) {
    c == Fixed(s.delta, s.slop, s.nr)
  }

  method MapTable(pt: Tables, f: nat, level: nat, i: nat, vstart1: nat, vend1: nat, base: nat, c: Fixed,
                  ghost s: Span, ghost m0: Memory)
    requires Ready(pt, f, s) && SpanOk(s) && i < 512 && pt.roles[f].level == level && Describes(c, s)
    requires Meets(pt.roles[f], i, s) && !Whole(pt.roles[f], i, s) && base == EntryBase(pt.roles[f], i)
    requires vstart1 == Max(s.lo, base) && vend1 == Min(s.hi, base + (Step(level) - 1))
    requires MappedTo(m0, pt.mem, f, pt.roles[f], s, i)
    modifies pt
    ensures Done(m0, old(pt.mem), old(pt.roles), pt, f, s, i + 1)
    decreases level, 0
  {
    ghost var r, m, roles := pt.roles[f], pt.mem, pt.roles;
    KidGiven(r, i, s);
    var t := Enter(pt, f, i, s);
    ghost var m1, roles1 := pt.mem, pt.roles;
    assert MappedTo(m0, m1, f, r, s, i);
    LinearMapLevel(pt, t, vstart1, vend1, base, level - 1, c, s);
    forall v: nat | Covers(r, v) ensures Walk(pt.mem, f, r.level, v) == Goal(m0, f, r, s, i + 1, v) {
      TableStepAt(m0, m1, pt.mem, roles1, pt.roles, f, i, s, v);
    }
    if level < 3 {
      SameOutsideKid(m1, pt.mem, roles1, r, i);
      SameOutsideTrans(m, m1, pt.mem, roles, roles1, r);
    }
  }

  lemma EntryNext(r: Role, i: nat, s: Span, vstart: nat, vend: nat)
    requires RoleOk(r) && SpanOk(s) && Given(r, s, vstart, vend)
    requires Index(vstart, r.level) <= i < Index(vend, r.level)
    ensures EntryBase(r, i + 1) == EntryBase(r, i) + Step(r.level)
  {
    if r.level == 3 {
      DownMultiple(vstart, s.slop);
      DownMultiple(vend, s.slop);
      IndexTop(vstart);
      IndexTop(vend);
    }
  }

  lemma DoneTrans(m0: Memory, m: Memory, roles: Roles, m1: Memory, roles1: Roles, pt: Tables, f: nat, s: Span, n: nat)
    requires f in roles && f in roles1 && roles1[f] == roles[f] && roles[f].level <= 3 && SpanOk(s)
    requires Grown(roles, roles1)
    requires roles[f].level < 3 ==> SameOutside(m, m1, roles, roles[f])
    requires Done(m0, m1, roles1, pt, f, s, n)
    ensures Done(m0, m, roles, pt, f, s, n)
  {
    if roles[f].level < 3 {
      SameOutsideTrans(m, m1, pt.mem, roles, roles1, roles[f]);
    }
  }

  // The clamped range of an entry: it is mapped as one page, or by the table below.
  method Clamp(vstart: nat, vend: nat, min: nat, max: nat, slop: nat) returns (vstart1: nat, vend1: nat)
    requires slop > 0
    ensures vstart1 == Max(Down(vstart, slop), min) && vend1 == Min(Up(vend, slop), max)
  {
    vstart1, vend1 := Max(Down(vstart, slop), min), Min(Up(vend, slop), max);
  }

  // The work of linear_map_level() on a table: its entries from first to last.
  ghost predicate Job(r: Role, s: Span, c: Fixed, vstart: nat, vend: nat) {
    RoleOk(r) && SpanOk(s) && Describes(c, s) && Given(r, s, vstart, vend)
  }

  ghost predicate Entries(r: Role, vstart: nat, vend: nat, first: nat, last: nat)
    requires r.level <= 3
  {
    first == Index(vstart, r.level) <= last == Index(vend, r.level)
  }

  // Its loop, at entry i.
  ghost predicate Loop(m0: Memory, roles0: Roles, pt: Tables, f: nat, s: Span, first: nat, last: nat, i: nat, virt: nat)
    requires f in roles0 && roles0[f].level <= 3
    reads pt
  {
    && Done(m0, m0, roles0, pt, f, s, i) && first <= i <= last + 1 <= 512
    && (i <= last ==> virt == EntryBase(roles0[f], i))
  }

  // One entry, of which vstart1 to vend1 is to be mapped.
  method MapOne(pt: Tables, f: nat, level: nat, i: nat, vstart1: nat, vend1: nat, virt: nat, c: Fixed,
                ghost s: Span, ghost m0: Memory)
    requires Ready(pt, f, s) && SpanOk(s) && i < 512 && pt.roles[f].level == level && Describes(c, s)
    requires Meets(pt.roles[f], i, s) && virt == EntryBase(pt.roles[f], i)
    requires vstart1 == Max(s.lo, virt) && vend1 == Min(s.hi, virt + (Step(level) - 1))
    requires MappedTo(m0, pt.mem, f, pt.roles[f], s, i)
    modifies pt
    ensures Done(m0, old(pt.mem), old(pt.roles), pt, f, s, i + 1)
    decreases level, 1
  {
    if level < c.nr && vstart1 == virt && vend1 == virt + (Step(level) - 1) {
      MapPage(pt, f, level, i, vstart1 + c.delta, s, m0);
    } else {
      MapTable(pt, f, level, i, vstart1, vend1, virt, c, s, m0);
    }
  }

  // The loop goes on to the next entry.
  lemma LoopNext(m0: Memory, roles0: Roles, m1: Memory, roles1: Roles, pt: Tables, f: nat, s: Span, c: Fixed,
                 vstart: nat, vend: nat, first: nat, last: nat, i: nat, virt: nat, next: nat)
    requires f in roles0 && f in roles1 && roles1[f] == roles0[f] && Job(roles0[f], s, c, vstart, vend)
    requires Entries(roles0[f], vstart, vend, first, last) && Grown(roles0, roles1)
    requires first <= i <= last < 512 && virt == EntryBase(roles0[f], i) && next == virt + Step(roles0[f].level)
    requires roles0[f].level < 3 ==> SameOutside(m0, m1, roles0, roles0[f])
    requires Done(m0, m1, roles1, pt, f, s, i + 1)
    ensures Loop(m0, roles0, pt, f, s, first, last, i + 1, next)
  {
    DoneTrans(m0, m0, roles0, m1, roles1, pt, f, s, i + 1);
    if i < last {
      EntryNext(roles0[f], i, s, vstart, vend);
    }
  }

  method MapEntry(pt: Tables, f: nat, vstart: nat, vend: nat, virt: nat, level: nat, i: nat, c: Fixed, ghost s: Span,
                  ghost m0: Memory, ghost roles0: Roles, ghost first: nat, ghost last: nat)
    returns (j: nat, next: nat)
    requires f in roles0 && roles0[f].level == level && Job(roles0[f], s, c, vstart, vend)
    requires Entries(roles0[f], vstart, vend, first, last)
    requires Loop(m0, roles0, pt, f, s, first, last, i, virt) && i <= last
    modifies pt
    ensures j == i + 1 && Loop(m0, roles0, pt, f, s, first, last, j, next)
    decreases level, 2
  {
    ghost var m1, roles1 := pt.mem, pt.roles;
    VisitedMeets(roles0[f], s, vstart, vend, i);
    var vstart1, vend1 := Clamp(vstart, vend, virt, virt + (Step(level) - 1), c.slop);
    MapOne(pt, f, level, i, vstart1, vend1, virt, c, s, m0);
    j, next := i + 1, virt + Step(level);
    LoopNext(m0, roles0, m1, roles1, pt, f, s, c, vstart, vend, first, last, i, virt, next);
  }

  lemma MappedStart(m: Memory, f: nat, r: Role, s: Span, vstart: nat, vend: nat)
    requires RoleOk(r) && SpanOk(s) && Given(r, s, vstart, vend)
    ensures MappedTo(m, m, f, r, s, Index(vstart, r.level))
  {
    forall v: nat | Covers(r, v) && s.lo <= v <= s.hi ensures Index(vstart, r.level) <= Index(v, r.level) {
      VisitedIsAll(r, s, vstart, vend, v);
    }
  }

  lemma MappedEnd(m0: Memory, m: Memory, f: nat, r: Role, s: Span, vstart: nat, vend: nat)
    requires RoleOk(r) && SpanOk(s) && Given(r, s, vstart, vend) && MappedTo(m0, m, f, r, s, Index(vend, r.level) + 1)
    ensures MappedTo(m0, m, f, r, s, 512)
  {
    forall v: nat | Covers(r, v) && s.lo <= v <= s.hi ensures Index(v, r.level) <= Index(vend, r.level) {
      VisitedIsAll(r, s, vstart, vend, v);
    }
  }

  // What is asked for is in one half of the address space.
  lemma GivenSides(r: Role, s: Span, vstart: nat, vend: nat)
    requires RoleOk(r) && SpanOk(s) && Given(r, s, vstart, vend)
    ensures vend < HALF || TOP - HALF <= vstart
  {
    DownMultiple(vstart, s.slop);
    DownMultiple(vend, s.slop);
  }

  // The first and the last entry, and the address of the first.
  method FirstEntry(pt: Tables, f: nat, vstart: nat, vend: nat, base: nat, level: nat, c: Fixed, ghost s: Span)
    returns (first: nat, last: nat, virt: nat)
    requires Ready(pt, f, s) && pt.roles[f] == Role(level, base) && Job(pt.roles[f], s, c, vstart, vend)
    ensures Entries(pt.roles[f], vstart, vend, first, last)
    ensures Loop(pt.mem, pt.roles, pt, f, s, first, last, first, virt)
  {
    ghost var r := pt.roles[f];
    first, last := Index(vstart, level), Index(vend, level);
    ExtendIsEntry(r, first);
    virt := Extend(base + first * Step(level));
    MappedStart(pt.mem, f, r, s, vstart, vend);
    GivenSides(r, s, vstart, vend);
    IndexMono(r, vstart, vend);
  }

  lemma LoopEnd(m0: Memory, roles: Roles, pt: Tables, f: nat, s: Span, c: Fixed, vstart: nat, vend: nat,
                first: nat, last: nat, virt: nat)
    requires f in roles && Job(roles[f], s, c, vstart, vend) && Entries(roles[f], vstart, vend, first, last)
    requires Loop(m0, roles, pt, f, s, first, last, last + 1, virt)
    ensures Done(m0, m0, roles, pt, f, s, 512)
  {
    MappedEnd(m0, pt.mem, f, roles[f], s, vstart, vend);
  }

  method MapEntries(pt: Tables, f: nat, vstart: nat, vend: nat, virt: nat, level: nat, first: nat, last: nat, c: Fixed,
                    ghost s: Span) returns (next: nat)
    requires f in pt.roles && pt.roles[f].level == level && Job(pt.roles[f], s, c, vstart, vend)
    requires Entries(pt.roles[f], vstart, vend, first, last)
    requires Loop(pt.mem, pt.roles, pt, f, s, first, last, first, virt)
    modifies pt
    ensures Loop(old(pt.mem), old(pt.roles), pt, f, s, first, last, last + 1, next)
    decreases level, 3
  {
    ghost var m, roles := pt.mem, pt.roles;
    var idx := first;
    next := virt;
    while idx <= last
      invariant Loop(m, roles, pt, f, s, first, last, idx, next)
    {
      idx, next := MapEntry(pt, f, vstart, vend, next, level, idx, c, s, m, roles, first, last);
    }
    assert idx == last + 1;
  }

  /** The part of the range in the table goes where it should, every other address of the
      table is as it was, and so is every table that is not at or below this one. */
  method LinearMapLevel(pt: Tables, f: nat, vstart: nat, vend: nat, base: nat, level: nat, c: Fixed, ghost s: Span)
    requires Ready(pt, f, s) && pt.roles[f] == Role(level, base) && Job(pt.roles[f], s, c, vstart, vend)
    modifies pt
    ensures Done(old(pt.mem), old(pt.mem), old(pt.roles), pt, f, s, 512)
    decreases level, 5
  {
    ghost var m, roles := pt.mem, pt.roles;
    var first, last, virt := FirstEntry(pt, f, vstart, vend, base, level, c, s);
    virt := MapEntries(pt, f, vstart, vend, virt, level, first, last, c, s);
    LoopEnd(m, roles, pt, f, s, c, vstart, vend, first, last, virt);
  }

  // ---- linear_map() ----

  // The range linear_map() maps: the one asked for, widened to multiples of the slop in use.
  function Widened(virt: nat, addr: nat, size: nat, slop: nat, nr: nat): Span
    requires size > 0 && slop > 0
  {
    Span(Down(virt, slop), Up(virt + size - 1, slop), nr, addr - virt, slop, false)
  }

  // What linear_map() asserts, and that the range does not leave one half of the address space.
  ghost predicate Asked(virt: nat, addr: nat, size: nat, slop: nat, nr: nat) {
    && 1 <= nr <= 3 && size > 0 && IsSlop(slop) && slop <= Step(nr - 1) && virt % slop == addr % slop
    && (virt + size <= HALF || (TOP - HALF <= virt && virt + size <= TOP))
  }

  lemma StepIsSlop(l: nat)
    requires l < 3
    ensures IsSlop(Step(l))
  {
  }

  // Widening stays in the half of the address space.
  lemma HalfStays(x: nat, slop: nat, b: nat)
    requires IsSlop(slop) && slop <= Step(2) && (b == 0 || b == TOP - HALF) && b <= x < b + HALF
    ensures b <= Down(x, slop) && Up(x, slop) < b + HALF
  {
    assert Commensurate(slop, 3);
    MultipleOf(HALF, Step(3), slop);
    assert b % HALF == 0;
    DownStays(x, slop, b, HALF);
  }

  lemma WidenedOk(virt: nat, addr: nat, size: nat, slop: nat, nr: nat)
    requires Asked(virt, addr, size, slop, nr)
    ensures SpanOk(Widened(virt, addr, size, slop, nr))
    ensures Given(Role(3, 0), Widened(virt, addr, size, slop, nr), virt, virt + size - 1)
  {
    var b := if virt < HALF then 0 else TOP - HALF;
    DownMultiple(virt, slop);
    DownMultiple(virt + size - 1, slop);
    DownMultiple(addr, slop);
    HalfStays(virt, slop, b);
    HalfStays(virt + size - 1, slop, b);
  }

  /** Every address of the range goes where Linear says, and every other address is as it was. */
  ghost predicate Linearized(m0: Memory, m: Memory, root: nat, s: Span) {
    forall v: nat | Canonical(v) ::
      Walk(m, root, 3, v) == if s.lo <= v <= s.hi then Linear(s.lo, s.hi, s.nr, s.delta, v) else Walk(m0, root, 3, v)
  }

  /** Exactly the addresses of the widened range are mapped anew; and large pages stay aligned, if they
      were and the distance is a multiple of their sizes. It ends: it is a method. */
  method LinearMap(pt: Tables, virt: nat, addr: nat, size: nat, slop: nat, nr: nat)
    requires pt.Valid() && 1 <= nr <= 3 && IsSlop(slop)
    requires Asked(virt, addr, size, Min(slop, Step(nr - 1)), nr)
    requires NoneCut(pt.mem, pt.roles, Widened(virt, addr, size, Min(slop, Step(nr - 1)), nr))
    modifies pt
    ensures pt.Valid()
    ensures Linearized(old(pt.mem), pt.mem, pt.root, Widened(virt, addr, size, Min(slop, Step(nr - 1)), nr))
    ensures old(LargeAligned(pt.mem, pt.roles)) &&
            FitsAllPages(Widened(virt, addr, size, Min(slop, Step(nr - 1)), nr)) ==>
              LargeAligned(pt.mem, pt.roles)
  {
    var sl := Min(slop, Step(nr - 1));
    ghost var m, w := pt.mem, Widened(virt, addr, size, sl, nr);
    ghost var s := w.(aligned := LargeAligned(pt.mem, pt.roles) && FitsAllPages(w));
    WidenedOk(virt, addr, size, sl, nr);
    MapSpan(pt, virt, virt + size - 1, Fixed(addr - virt, sl, nr), s);
    AllMapped(m, pt.mem, pt.root, s);
  }

  method MapSpan(pt: Tables, virt: nat, vend: nat, c: Fixed, ghost s: Span)
    requires pt.Valid() && NoneCut(pt.mem, pt.roles, s) && Even(pt.mem, pt.roles, s)
    requires Job(Role(3, 0), s, c, virt, vend)
    modifies pt
    ensures pt.Valid() && MappedTo(old(pt.mem), pt.mem, pt.root, Role(3, 0), s, 512) && Even(pt.mem, pt.roles, s)
  {
    LinearMapLevel(pt, pt.root, virt, vend, 0, 3, c, s);
  }

  lemma AllMapped(m0: Memory, m: Memory, root: nat, s: Span)
    requires MappedTo(m0, m, root, Role(3, 0), s, 512)
    ensures Linearized(m0, m, root, s)
  {
    forall v: nat | Canonical(v) ensures Walk(m, root, 3, v) == Goal(m0, root, Role(3, 0), s, 512, v) {
      assert Covers(Role(3, 0), v);
    }
  }

  // The distance v + delta is kept for every address of the range.
  ghost predicate KeepsDistance(s: Span)
    requires s.lo + s.delta >= 0
  {
    forall v: nat | s.lo <= v <= s.hi ::
      Linear(s.lo, s.hi, s.nr, s.delta, v) == Some(Mapping(v + s.delta, true, true, true))
  }

  lemma SmallerStep(delta: int, l: nat, b: nat)
    requires l <= b < 3 && delta % Step(b) == 0
    ensures delta % Step(l) == 0
  {
  }

  lemma RangeExactAt(s: Span, v: nat)
    requires SpanOk(s) && s.lo <= v <= s.hi
    ensures Linear(s.lo, s.hi, s.nr, s.delta, v) == Some(Mapping(v + s.delta, true, true, true))
       <==> s.delta % Step(BlockLevel(s.lo, s.hi, s.nr, v)) == 0
    ensures BlockLevel(s.lo, s.hi, s.nr, v) < s.nr && Fits(s.lo, s.hi, BlockLevel(s.lo, s.hi, s.nr, v), v)
    ensures forall l: nat | l < s.nr && Fits(s.lo, s.hi, l, v) :: l <= BlockLevel(s.lo, s.hi, s.nr, v)
  {
    assert Commensurate(s.slop, 0);
    MultipleOf(s.lo, s.slop, Step(0));
    MultipleOf(s.hi + 1, s.slop, Step(0));
    LinearIsExact(s.lo, s.hi, s.nr, s.delta, v);
    PageFits(s.lo, s.hi, v);
  }

  /** The whole range is mapped at the distance asked for if and only if that distance is a
      multiple of every page size that fits somewhere in the range. What linear_map() asserts
      is that it is a multiple of the slop. */
  lemma LinearRangeIsExact(s: Span)
    requires SpanOk(s)
    ensures KeepsDistance(s) <==> FitsAllPages(s)
  {
    if KeepsDistance(s) {
      forall l: nat, v: nat | l < s.nr && l < 3 && s.lo <= v <= s.hi && Fits(s.lo, s.hi, l, v)
        ensures s.delta % Step(l) == 0
      {
        RangeExactAt(s, v);
        SmallerStep(s.delta, l, BlockLevel(s.lo, s.hi, s.nr, v));
      }
    }
    if FitsAllPages(s) {
      forall v: nat | s.lo <= v <= s.hi
        ensures Linear(s.lo, s.hi, s.nr, s.delta, v) == Some(Mapping(v + s.delta, true, true, true))
      {
        RangeExactAt(s, v);
      }
    }
  }

  // A distance of 4 KB is accepted with a slop of 4 KB, and the 2 MB pages that fit do not keep it.
  lemma MisalignedExample(virt: nat, addr: nat, size: nat)
    requires virt == 0x20_0000 && addr == 0x20_1000 && size == 0x20_0000
    ensures Asked(virt, addr, size, Step(0), 2)
    ensures SpanOk(Widened(virt, addr, size, Step(0), 2)) && !KeepsDistance(Widened(virt, addr, size, Step(0), 2))
  {
    StepIsSlop(0);
    WidenedOk(virt, addr, size, Step(0), 2);
    MisalignedFails(Widened(virt, addr, size, Step(0), 2));
  }

  lemma MisalignedFails(s: Span)
    requires SpanOk(s) && s == Span(0x20_0000, 0x3f_ffff, 2, 0x1000, 0x1000, false)
    ensures !KeepsDistance(s)
  {
    LinearRangeIsExact(s);
    assert Fits(s.lo, s.hi, 1, 0x20_0000);
  }
}
