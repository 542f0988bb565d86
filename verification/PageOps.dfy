/**
  Operations on a range of pages, core/mmu.cc: the range is cut into huge and small pages,
  and each is reached by a walk that splits the huge pages in its way.
 */
module PageOps {
  import opened Arith
  import opened PageTable

  // ---- which tables the walk of an address goes through ----

  // The walk of v from table g, at level lg, comes to table f at level lf.
  ghost predicate Leads(m: Memory, g: nat, lg: nat, f: nat, lf: nat, v: nat)
    requires lf <= lg < 4
    decreases lg
  {
    if lg == lf then g == f
    else
      && g in m && |m[g]| == 512
      && var e := m[g][Index(v, lg)];
         e.Pte? && !e.large && Leads(m, e.addr, lg - 1, f, lf, v)
  }

  lemma {:induction false} LeadsWalk(m: Memory, g: nat, lg: nat, f: nat, lf: nat, v: nat)
    requires lf <= lg < 4 && Leads(m, g, lg, f, lf, v)
    ensures Walk(m, g, lg, v) == Walk(m, f, lf, v)
    decreases lg
  {
    if lg > lf {
      LeadsWalk(m, m[g][Index(v, lg)].addr, lg - 1, f, lf, v);
    }
  }

  ghost predicate SameAbove(m: Memory, n: Memory, roles: Roles, level: nat) {
    forall f | f in roles && roles[f].level > level :: f in m && f in n && n[f] == m[f]
  }

  // What changes at or below a level does not change the way to it.
  lemma {:induction false} LeadsAbove(m: Memory, n: Memory, roles: Roles, g: nat, f: nat, lf: nat, v: nat)
    requires WF(m, roles) && g in roles && Covers(roles[g], v) && lf <= roles[g].level
    requires SameAbove(m, n, roles, lf) && Leads(m, g, roles[g].level, f, lf, v)
    ensures Leads(n, g, roles[g].level, f, lf, v)
    decreases roles[g].level
  {
    var r := roles[g];
    if r.level > lf {
      var i := Index(v, r.level);
      assert EntryOk(roles, r, i, m[g][i]);
      IndexIsEntry(r, v);
      KidOk(r, i);
      LeadsAbove(m, n, roles, m[g][i].addr, f, lf, v);
    }
  }

  lemma {:induction false} LeadsDown(m: Memory, roles: Roles, g: nat, f: nat, i: nat, v: nat)
    requires WF(m, roles) && g in roles && f in roles && 0 < roles[f].level <= roles[g].level && Covers(roles[g], v)
    requires i < 512 && m[f][i].Pte? && !m[f][i].large && InEntry(roles[f], i, v)
    requires Leads(m, g, roles[g].level, f, roles[f].level, v)
    ensures Leads(m, g, roles[g].level, m[f][i].addr, roles[f].level - 1, v)
    decreases roles[g].level
  {
    var r := roles[g];
    var j := Index(v, r.level);
    IndexIsEntry(r, v);
    assert EntryOk(roles, r, j, m[g][j]);
    if r.level > roles[f].level {
      KidOk(r, j);
      LeadsDown(m, roles, m[g][j].addr, f, i, v);
    }
  }

  // ---- small pages that are missing ----

  // The walk of v from table f comes to a table of small pages, and finds nothing there.
  predicate Missing(m: Memory, f: nat, level: nat, v: nat)
    requires level < 4
    decreases level
  {
    && f in m && |m[f]| == 512
    && var e := m[f][Index(v, level)];
       if level == 0 then e.Empty? else e.Pte? && !e.large && Missing(m, e.addr, level - 1, v)
  }

  lemma {:induction false} LeadsMissing(m: Memory, g: nat, lg: nat, f: nat, lf: nat, v: nat)
    requires lf <= lg < 4 && Leads(m, g, lg, f, lf, v)
    ensures Missing(m, g, lg, v) == Missing(m, f, lf, v)
    decreases lg
  {
    if lg > lf {
      LeadsMissing(m, m[g][Index(v, lg)].addr, lg - 1, f, lf, v);
    }
  }

  lemma {:induction false} MissingIsNone(m: Memory, f: nat, level: nat, v: nat)
    requires level < 4 && Missing(m, f, level, v)
    ensures Walk(m, f, level, v) == None
    decreases level
  {
    if level > 0 {
      MissingIsNone(m, m[f][Index(v, level)].addr, level - 1, v);
    }
  }

  // The walk of v from table f comes to a table of small pages, and finds one there.
  predicate Small(m: Memory, f: nat, level: nat, v: nat)
    requires level < 4
    decreases level
  {
    && f in m && |m[f]| == 512
    && var e := m[f][Index(v, level)];
       e.Pte? && (level == 0 || (!e.large && Small(m, e.addr, level - 1, v)))
  }

  lemma {:induction false} LeadsSmall(m: Memory, g: nat, lg: nat, f: nat, lf: nat, v: nat)
    requires lf <= lg < 4 && Leads(m, g, lg, f, lf, v)
    ensures Small(m, g, lg, v) == Small(m, f, lf, v)
    decreases lg
  {
    if lg > lf {
      LeadsSmall(m, m[g][Index(v, lg)].addr, lg - 1, f, lf, v);
    }
  }

  // Small pages are still small pages.
  ghost predicate SmallKept(m: Memory, n: Memory, root: nat) {
    forall v: nat | Canonical(v) && Small(m, root, 3, v) :: Small(n, root, 3, v)
  }

  // The entries are empty, large or tables in the same places.
  ghost predicate Alike(m: Memory, n: Memory) {
    && m.Keys == n.Keys
    && forall f | f in m :: |n[f]| == |m[f]| && forall i | 0 <= i < |m[f]| :: SameKind(m[f][i], n[f][i])
  }

  predicate SameKind(d: Pte, e: Pte) {
    if d.Empty? then e.Empty? else e.Pte? && e.addr == d.addr && e.large == d.large
  }

  lemma {:induction false} AlikeMissing(m: Memory, n: Memory, f: nat, level: nat, v: nat)
    requires level < 4 && Alike(m, n)
    ensures Missing(n, f, level, v) == Missing(m, f, level, v)
    decreases level
  {
    if f in m && |m[f]| == 512 {
      var i := Index(v, level);
      assert SameKind(m[f][i], n[f][i]);
      if level > 0 && m[f][i].Pte? && !m[f][i].large {
        AlikeMissing(m, n, m[f][i].addr, level - 1, v);
      }
    }
  }

  lemma {:induction false} AlikeSmall(m: Memory, n: Memory, f: nat, level: nat, v: nat)
    requires level < 4 && Alike(m, n)
    ensures Small(n, f, level, v) == Small(m, f, level, v)
    decreases level
  {
    if f in m && |m[f]| == 512 {
      var i := Index(v, level);
      assert SameKind(m[f][i], n[f][i]);
      if level > 0 && m[f][i].Pte? && !m[f][i].large {
        AlikeSmall(m, n, m[f][i].addr, level - 1, v);
      }
    }
  }

  ghost predicate SameMissing(m: Memory, n: Memory, root: nat) {
    forall v: nat | Canonical(v) :: Missing(n, root, 3, v) == Missing(m, root, 3, v)
  }

  // Some small page from a up to z is missing from its table.
  ghost predicate SomeMissing(m: Memory, root: nat, a: nat, z: nat) {
    exists v: nat :: a <= v < z && Canonical(v) && Missing(m, root, 3, v)
  }

  // ---- splitting a large page ----

  // The j-th of the smaller pages of a large page at a level.
  function Piece(e: Pte, level: nat, j: nat): Pte
    requires 1 <= level <= 2 && e.Pte?
  {
    e.(addr := e.addr + j * Step(level - 1), large := level > 1)
  }

  function Pieces(e: Pte, level: nat): seq<Pte>
    requires 1 <= level <= 2 && e.Pte?
  {
    seq(512, j requires 0 <= j < 512 => Piece(e, level, j))
  }

  lemma PieceAligned(a: nat, level: nat, j: nat)
    requires 1 <= level <= 2 && a % Step(level) == 0
    ensures (a + j * Step(level - 1)) % Step(level - 1) == 0
  {
  }

  // An offset in a large page is one in the piece its index selects.
  lemma OffsetInPiece(v: nat, level: nat)
    requires 1 <= level <= 2
    ensures v % Step(level) == Index(v, level - 1) * Step(level - 1) + v % Step(level - 1)
  {
    var s := Step(level - 1);
    var q, r := v / s, v % s;
    var k, i := q / 512, q % 512;
    assert q == 512 * k + i && v == s * q + r && Step(level) == 512 * s;
    assert s * (512 * k + i) == 512 * s * k + s * i;
    MulMono(s, i, 511);
    DivMod(v, 512 * s, s * i + r, k);
  }

  lemma PieceAt(e: Pte, level: nat, v: nat)
    requires 1 <= level <= 2 && e.Pte? && e.addr % Step(level) == 0
    ensures At(Piece(e, level, Index(v, level - 1)), level - 1, v) == At(e, level, v)
  {
    PieceAligned(e.addr, level, Index(v, level - 1));
    OffsetInPiece(v, level);
  }

  /** A large page and the table of its pieces map every address alike, permissions included. */
  lemma {:induction false} SplitWalk(m: Memory, n: Memory, roles: Roles, f: nat, i: nat, t: nat, g: nat, v: nat)
    requires WF(m, roles) && LargeAligned(m, roles) && t !in m && f in roles && i < 512
    requires 1 <= roles[f].level <= 2 && m[f][i].Pte? && m[f][i].large
    requires n == m[t := Pieces(m[f][i], roles[f].level)][f := m[f][i := Pte(t, true, true, false, true)]]
    requires g in roles && Covers(roles[g], v)
    ensures Walk(n, g, roles[g].level, v) == Walk(m, g, roles[g].level, v)
    decreases roles[g].level
  {
    var r := roles[g];
    var j := Index(v, r.level);
    var e := m[g][j];
    assert EntryOk(roles, r, j, e);
    if g == f && j == i {
      PieceAt(e, r.level, v);
      assert n[t][Index(v, r.level - 1)] == Piece(e, r.level, Index(v, r.level - 1));
    } else if e.Pte? && !Leaf(e, r.level) {
      IndexIsEntry(r, v);
      KidOk(r, j);
      SplitWalk(m, n, roles, f, i, t, e.addr, v);
    }
  }

  // No small page is missing from a large one, nor from its pieces.
  lemma {:induction false} SplitMissing(m: Memory, n: Memory, roles: Roles, f: nat, i: nat, t: nat, g: nat, v: nat)
    requires WF(m, roles) && t !in m && f in roles && i < 512
    requires 1 <= roles[f].level <= 2 && m[f][i].Pte? && m[f][i].large
    requires n == m[t := Pieces(m[f][i], roles[f].level)][f := m[f][i := Pte(t, true, true, false, true)]]
    requires g in roles && Covers(roles[g], v)
    ensures Missing(n, g, roles[g].level, v) == Missing(m, g, roles[g].level, v)
    decreases roles[g].level
  {
    var r := roles[g];
    var j := Index(v, r.level);
    var e := m[g][j];
    assert EntryOk(roles, r, j, e);
    if g == f && j == i {
      assert n[t][Index(v, r.level - 1)] == Piece(e, r.level, Index(v, r.level - 1));
    } else if e.Pte? && !Leaf(e, r.level) {
      IndexIsEntry(r, v);
      KidOk(r, j);
      SplitMissing(m, n, roles, f, i, t, e.addr, v);
    }
  }

  // Splitting makes small pages only of the large page itself.
  lemma {:induction false} SplitSmall(m: Memory, n: Memory, roles: Roles, f: nat, i: nat, t: nat, g: nat, v: nat)
    requires WF(m, roles) && t !in m && f in roles && i < 512
    requires 1 <= roles[f].level <= 2 && m[f][i].Pte? && m[f][i].large
    requires n == m[t := Pieces(m[f][i], roles[f].level)][f := m[f][i := Pte(t, true, true, false, true)]]
    requires g in roles && Covers(roles[g], v) && (roles[f].level == 2 || !InEntry(roles[f], i, v))
    ensures Small(n, g, roles[g].level, v) == Small(m, g, roles[g].level, v)
    decreases roles[g].level
  {
    var r := roles[g];
    var j := Index(v, r.level);
    var e := m[g][j];
    IndexIsEntry(r, v);
    assert EntryOk(roles, r, j, e);
    if g == f && j == i {
      assert n[t][Index(v, 1)] == Piece(e, 2, Index(v, 1));
    } else if e.Pte? && !Leaf(e, r.level) {
      KidOk(r, j);
      SplitSmall(m, n, roles, f, i, t, e.addr, v);
    }
  }

  ghost predicate Sound(pt: Tables)
    reads pt
  {
    pt.Valid() && LargeAligned(pt.mem, pt.roles)
  }

  // The memory while the pieces are written: the first n of them.
  ghost predicate Splitting(m: Memory, now: Memory, f: nat, i: nat, t: nat, e: Pte, level: nat, n: nat)
    requires f in m && i < |m[f]| && 1 <= level <= 2 && e.Pte? && n <= 512
  {
    && t in now && |now[t]| == 512 && (forall j | 0 <= j < n :: now[t][j] == Piece(e, level, j))
    && now == m[t := now[t]][f := m[f][i := Pte(t, true, true, false, true)]]
  }

  method WritePieces(pt: Tables, f: nat, i: nat, t: nat, e: Pte, level: nat, ghost m: Memory)
    requires pt.Valid() && f in m && |m[f]| == 512 && i < 512 && 1 <= level <= 2 && e.Pte?
    requires t in pt.roles && pt.roles[t].level == level - 1 && Splitting(m, pt.mem, f, i, t, e, level, 0) && t != f
    modifies pt`mem
    ensures pt.Valid() && pt.mem == m[t := Pieces(e, level)][f := m[f][i := Pte(t, true, true, false, true)]]
  {
    for j := 0 to 512
      invariant pt.Valid() && Splitting(m, pt.mem, f, i, t, e, level, j)
    {
      pt.WriteEntry(t, j, Piece(e, level, j));
    }
    assert pt.mem[t] == Pieces(e, level);
  }

  lemma SplitAligned(m: Memory, n: Memory, roles: Roles, rs: Roles, f: nat, i: nat, t: nat)
    requires WF(m, roles) && LargeAligned(m, roles) && t !in m && f in roles && i < 512
    requires 1 <= roles[f].level <= 2 && m[f][i].Pte? && m[f][i].large && TablesOk(n, rs)
    requires n == m[t := Pieces(m[f][i], roles[f].level)][f := m[f][i := Pte(t, true, true, false, true)]]
    requires rs == roles[t := Kid(roles[f], i)]
    ensures LargeAligned(n, rs)
  {
    forall j: nat | j < 512 ensures n[t][j].large ==> n[t][j].addr % Step(roles[f].level - 1) == 0 {
      PieceAligned(m[f][i].addr, roles[f].level, j);
    }
  }

  // Every address is mapped as before, whatever table its walk starts from.
  ghost predicate SameWalks(m: Memory, n: Memory, roles: Roles)
    requires TablesOk(m, roles)
  {
    forall g, v: nat | g in roles && Covers(roles[g], v) ::
      Walk(n, g, roles[g].level, v) == Walk(m, g, roles[g].level, v)
  }

  ghost predicate SameHoles(m: Memory, n: Memory, roles: Roles)
    requires TablesOk(m, roles)
  {
    forall g, v: nat | g in roles && Covers(roles[g], v) ::
      Missing(n, g, roles[g].level, v) == Missing(m, g, roles[g].level, v)
  }

  // Small pages are where they were, but for those of entry i of table f.
  ghost predicate SameSmall(m: Memory, n: Memory, roles: Roles, f: nat, i: nat)
    requires TablesOk(m, roles) && f in roles
  {
    forall g, v: nat | g in roles && Covers(roles[g], v) :: SmallAt(m, n, roles, f, i, g, v)
  }

  ghost predicate SmallAt(m: Memory, n: Memory, roles: Roles, f: nat, i: nat, g: nat, v: nat)
    requires TablesOk(m, roles) && f in roles && g in roles
  {
    (roles[f].level == 2 || !InEntry(roles[f], i, v)) ==>
      Small(n, g, roles[g].level, v) == Small(m, g, roles[g].level, v)
  }

  lemma SplitSame(m: Memory, n: Memory, roles: Roles, f: nat, i: nat, t: nat)
    requires WF(m, roles) && LargeAligned(m, roles) && t !in m && f in roles && i < 512
    requires 1 <= roles[f].level <= 2 && m[f][i].Pte? && m[f][i].large
    requires n == m[t := Pieces(m[f][i], roles[f].level)][f := m[f][i := Pte(t, true, true, false, true)]]
    ensures SameWalks(m, n, roles) && SameHoles(m, n, roles) && SameSmall(m, n, roles, f, i)
  {
    forall g, v: nat | g in roles && Covers(roles[g], v)
      ensures Walk(n, g, roles[g].level, v) == Walk(m, g, roles[g].level, v)
      ensures Missing(n, g, roles[g].level, v) == Missing(m, g, roles[g].level, v)
      ensures SmallAt(m, n, roles, f, i, g, v)
    {
      SplitWalk(m, n, roles, f, i, t, g, v);
      SplitMissing(m, n, roles, f, i, t, g, v);
      if roles[f].level == 2 || !InEntry(roles[f], i, v) {
        SplitSmall(m, n, roles, f, i, t, g, v);
      }
    }
  }

  method SplitLargePage(pt: Tables, f: nat, i: nat, level: nat)
    requires Sound(pt) && f in pt.roles && i < 512 && pt.roles[f].level == level
    requires 1 <= level <= 2 && pt.mem[f][i].Pte? && pt.mem[f][i].large
    modifies pt
    ensures Sound(pt) && Grown(old(pt.roles), pt.roles) && SameWalks(old(pt.mem), pt.mem, old(pt.roles))
    ensures SameHoles(old(pt.mem), pt.mem, old(pt.roles)) && SameSmall(old(pt.mem), pt.mem, old(pt.roles), f, i)
    ensures pt.mem[f][i].Pte? && !pt.mem[f][i].large && SameAbove(old(pt.mem), pt.mem, old(pt.roles), level)
  {
    ghost var m, roles := pt.mem, pt.roles;
    var e := pt.mem[f][i];
    var t := pt.AllocateIntermediateLevel(f, i);
    WritePieces(pt, f, i, t, e, level, m);
    SplitSame(m, pt.mem, roles, f, i, t);
    SplitAligned(m, pt.mem, roles, pt.roles, f, i, t);
  }

  // ---- what is done to a page ----

  datatype Perm = Perm(read: bool, write: bool, exec: bool)

  datatype Op = Protect(perm: Perm) | Unpopulate

  // What the operation makes of an entry that maps a page, or of an empty one.
  function Change(op: Op, e: Pte): Pte {
    match op
    case Protect(p) =>
      if e.Empty? then e else e.(present := p.read || p.write || p.exec, writable := p.write, exec := p.exec)
    case Unpopulate => Empty
  }

  // What it means for the addresses of the page.
  function Apply(op: Op, x: Option<Mapping>): Option<Mapping> {
    match op
    case Protect(p) =>
      if x.None? then None else Some(Mapping(x.value.phys, p.read || p.write || p.exec, p.write, p.exec))
    case Unpopulate => None
  }

  /** One entry of f is changed, and with it exactly its addresses. */
  ghost predicate Changed(op: Op, m: Memory, n: Memory, roles: Roles, f: nat, i: nat)
    requires TablesOk(m, roles) && f in roles
  {
    forall v: nat | Covers(roles[f], v) ::
      Walk(n, f, roles[f].level, v)
      == if InEntry(roles[f], i, v) then Apply(op, Walk(m, f, roles[f].level, v)) else Walk(m, f, roles[f].level, v)
  }

  lemma ChangeAt(op: Op, m: Memory, roles: Roles, f: nat, i: nat, v: nat)
    requires WF(m, roles) && f in roles && i < 512 && Covers(roles[f], v)
    requires m[f][i].Empty? || Leaf(m[f][i], roles[f].level) || op.Unpopulate?
    ensures Walk(m[f := m[f][i := Change(op, m[f][i])]], f, roles[f].level, v)
         == if InEntry(roles[f], i, v) then Apply(op, Walk(m, f, roles[f].level, v)) else Walk(m, f, roles[f].level, v)
  {
    if InEntry(roles[f], i, v) {
      IndexIsEntry(roles[f], v);
      WalkWritten(m, roles, f, i, Change(op, m[f][i]), v);
    } else {
      WalkWrite(m, roles, f, i, Change(op, m[f][i]), f, v);
    }
  }

  // The entry that maps a page, small or large, is changed.
  method ChangeEntry(pt: Tables, op: Op, f: nat, i: nat)
    requires Sound(pt) && f in pt.roles && i < 512
    requires pt.mem[f][i].Empty? || Leaf(pt.mem[f][i], pt.roles[f].level) || op.Unpopulate?
    modifies pt`mem
    ensures Sound(pt) && Changed(op, old(pt.mem), pt.mem, pt.roles, f, i)
    ensures pt.mem == old(pt.mem)[f := old(pt.mem)[f][i := Change(op, old(pt.mem)[f][i])]]
  {
    ghost var m := pt.mem;
    assert EntryOk(pt.roles, pt.roles[f], i, m[f][i]);
    pt.WriteEntry(f, i, Change(op, pt.mem[f][i]));
    forall v: nat | Covers(pt.roles[f], v)
      ensures Walk(pt.mem, f, pt.roles[f].level, v)
           == if InEntry(pt.roles[f], i, v) then Apply(op, Walk(m, f, pt.roles[f].level, v))
              else Walk(m, f, pt.roles[f].level, v)
    {
      ChangeAt(op, m, pt.roles, f, i, v);
    }
  }

  // All small pages of a table are changed; full if none was empty.
  method ChangeAll(pt: Tables, op: Op, t: nat) returns (full: bool)
    requires Sound(pt) && t in pt.roles && pt.roles[t].level == 0
    modifies pt`mem
    ensures Sound(pt) && pt.mem == old(pt.mem)[t := pt.mem[t]]
    ensures forall j | 0 <= j < 512 :: pt.mem[t][j] == Change(op, old(pt.mem)[t][j])
    ensures full <==> forall j | 0 <= j < 512 :: old(pt.mem)[t][j].Pte?
  {
    ghost var m := pt.mem;
    full := true;
    for j := 0 to 512
      invariant Sound(pt) && pt.mem == m[t := pt.mem[t]]
      invariant forall k | 0 <= k < j :: pt.mem[t][k] == Change(op, m[t][k])
      invariant forall k | j <= k < 512 :: pt.mem[t][k] == m[t][k]
      invariant full <==> forall k | 0 <= k < j :: m[t][k].Pte?
    {
      assert EntryOk(pt.roles, pt.roles[t], j, m[t][j]);
      if pt.mem[t][j].Empty? {
        full := false;
      } else {
        ChangeEntry(pt, op, t, j);
      }
    }
  }

  // Changes in the table below an entry that do not reach the entry's other addresses.
  lemma BelowEntry(op: Op, m: Memory, n: Memory, roles: Roles, f: nat, i: nat, t: nat, v: nat)
    requires WF(m, roles) && f in roles && roles[f].level == 1 && i < 512 && t in roles && roles[t] == Kid(roles[f], i)
    requires t in n && n == m[t := n[t]] && Covers(roles[f], v) && !InEntry(roles[f], i, v)
    ensures Walk(n, f, 1, v) == Walk(m, f, 1, v)
  {
    KidOk(roles[f], i);
    WalkOutside(m, n, roles, Kid(roles[f], i), f, v);
  }

  lemma SmallChanged(op: Op, m: Memory, n: Memory, t: nat, v: nat)
    requires t in m && t in n && |m[t]| == |n[t]| == 512 && n[t][Index(v, 0)] == Change(op, m[t][Index(v, 0)])
    ensures Walk(n, t, 0, v) == Apply(op, Walk(m, t, 0, v))
  {
  }

  lemma KidsChanged(op: Op, m: Memory, n: Memory, roles: Roles, f: nat, i: nat, t: nat, v: nat)
    requires WF(m, roles) && WF(n, roles) && f in roles && roles[f].level == 1 && i < 512 && t in roles
    requires m[f][i].Pte? && !m[f][i].large && m[f][i].addr == t && n == m[t := n[t]] && Covers(roles[f], v)
    requires forall j | 0 <= j < 512 :: n[t][j] == Change(op, m[t][j])
    ensures Walk(n, f, 1, v) == if InEntry(roles[f], i, v) then Apply(op, Walk(m, f, 1, v)) else Walk(m, f, 1, v)
  {
    assert EntryOk(roles, roles[f], i, m[f][i]);
    if InEntry(roles[f], i, v) {
      WalkInto(m, roles, f, i, v);
      WalkInto(n, roles, f, i, v);
      SmallChanged(op, m, n, t, v);
    } else {
      BelowEntry(op, m, n, roles, f, i, t, v);
    }
  }

  // Only table f and what is below it is touched.
  ghost predicate Local(m: Memory, n: Memory, roles: Roles, f: nat)
    requires TablesOk(m, roles) && f in roles
  {
    SameAbove(m, n, roles, roles[f].level) && SameOutside(m, n, roles, roles[f])
  }

  method ProtectTable(pt: Tables, perm: Perm, f: nat, i: nat) returns (full: bool)
    requires Sound(pt) && f in pt.roles && i < 512 && pt.roles[f].level == 1
    requires pt.mem[f][i].Pte? && !pt.mem[f][i].large
    modifies pt`mem
    ensures Sound(pt) && Changed(Protect(perm), old(pt.mem), pt.mem, pt.roles, f, i)
    ensures Local(old(pt.mem), pt.mem, pt.roles, f)
    ensures full <==> forall j | 0 <= j < 512 :: old(pt.mem[pt.mem[f][i].addr][j].Pte?)
    ensures Alike(old(pt.mem), pt.mem)
  {
    ghost var m := pt.mem;
    var t := pt.mem[f][i].addr;
    assert EntryOk(pt.roles, pt.roles[f], i, m[f][i]);
    full := ChangeAll(pt, Protect(perm), t);
    forall v: nat | Covers(pt.roles[f], v)
      ensures Walk(pt.mem, f, 1, v)
           == if InEntry(pt.roles[f], i, v) then Apply(Protect(perm), Walk(m, f, 1, v)) else Walk(m, f, 1, v)
    {
      KidsChanged(Protect(perm), m, pt.mem, pt.roles, f, i, t, v);
    }
    KidUnder(pt.roles[f], i);
  }

  lemma KidUnder(r: Role, i: nat)
    requires RoleOk(r) && 0 < r.level < 3 && i < 512
    ensures Under(Kid(r, i), r) && Under(r, r)
  {
    KidOk(r, i);
    EntryInside(r, i, EntryBase(r, i));
  }

  method UnpopulateTable(pt: Tables, f: nat, i: nat)
    requires Sound(pt) && f in pt.roles && i < 512 && pt.roles[f].level == 1
    requires pt.mem[f][i].Pte? && !pt.mem[f][i].large
    modifies pt`mem
    ensures Sound(pt) && Changed(Unpopulate, old(pt.mem), pt.mem, pt.roles, f, i)
    ensures Local(old(pt.mem), pt.mem, pt.roles, f)
  {
    ghost var m := pt.mem;
    var t := pt.mem[f][i].addr;
    assert EntryOk(pt.roles, pt.roles[f], i, m[f][i]);
    ChangeEntry(pt, Unpopulate, f, i);
    ghost var m1 := pt.mem;
    var _ := ChangeAll(pt, Unpopulate, t);
    forall v: nat | Covers(pt.roles[f], v)
      ensures Walk(pt.mem, f, 1, v) == if InEntry(pt.roles[f], i, v) then None else Walk(m, f, 1, v)
    {
      if InEntry(pt.roles[f], i, v) {
        IndexIsEntry(pt.roles[f], v);
      } else {
        BelowEntry(Unpopulate, m1, pt.mem, pt.roles, f, i, t, v);
      }
    }
    KidUnder(pt.roles[f], i);
  }

  // The operation on the entry of a huge page, at level 1.
  method HugePage(pt: Tables, op: Op, f: nat, i: nat) returns (ok: bool)
    requires Sound(pt) && f in pt.roles && i < 512 && pt.roles[f].level == 1
    modifies pt`mem
    ensures Sound(pt) && Changed(op, old(pt.mem), pt.mem, pt.roles, f, i) && Local(old(pt.mem), pt.mem, pt.roles, f)
    ensures ok <==> op.Unpopulate? || HugeFull(old(pt.mem), f, i)
    ensures op.Protect? ==> Alike(old(pt.mem), pt.mem)
  {
    ok := true;
    var e := pt.mem[f][i];
    KidUnder(pt.roles[f], i);
    assert EntryOk(pt.roles, pt.roles[f], i, e);
    if e.Empty? || e.large {
      ChangeEntry(pt, op, f, i);
    } else if op.Unpopulate? {
      UnpopulateTable(pt, f, i);
    } else {
      ok := ProtectTable(pt, op.perm, f, i);
    }
  }

  // Not a table of small pages with one missing.
  ghost predicate HugeFull(m: Memory, f: nat, i: nat)
    requires f in m && i < |m[f]|
  {
    m[f][i].Pte? && !m[f][i].large && m[f][i].addr in m ==>
      forall j | 0 <= j < 512 && j < |m[m[f][i].addr]| :: m[m[f][i].addr][j].Pte?
  }

  // ---- the walk to a page ----

  ghost predicate SameRoot(m: Memory, n: Memory, root: nat) {
    forall v: nat | Canonical(v) :: Walk(n, root, 3, v) == Walk(m, root, 3, v)
  }

  // The walks of all addresses of table f go through it.
  ghost predicate OnPath(m: Memory, roles: Roles, root: nat, f: nat)
    requires TablesOk(m, roles) && f in roles
  {
    forall v: nat | Covers(roles[f], v) :: Leads(m, root, 3, f, roles[f].level, v)
  }

  ghost predicate Walking(pt: Tables, m0: Memory, f: nat, level: nat, addr: nat)
    reads pt
  {
    && Sound(pt) && f in pt.roles && pt.roles[f].level == level && Covers(pt.roles[f], addr)
    && SameRoot(m0, pt.mem, pt.root) && SameMissing(m0, pt.mem, pt.root) && OnPath(pt.mem, pt.roles, pt.root, f)
    && SmallKept(m0, pt.mem, pt.root)
  }

  // A large page has no small pages to lose when it is split.
  lemma SplitKept(m: Memory, n: Memory, roles: Roles, root: nat, f: nat, i: nat)
    requires WF(m, roles) && root in roles && roles[root] == Role(3, 0) && f in roles && i < 512
    requires 1 <= roles[f].level <= 2 && m[f][i].Pte? && m[f][i].large && OnPath(m, roles, root, f)
    requires SameSmall(m, n, roles, f, i)
    ensures SmallKept(m, n, root)
  {
    forall v: nat | Canonical(v) && Small(m, root, 3, v) ensures Small(n, root, 3, v) {
      assert Covers(roles[root], v);
      assert SmallAt(m, n, roles, f, i, root, v);
      if InEntry(roles[f], i, v) {
        EntryInside(roles[f], i, v);
        IndexIsEntry(roles[f], v);
        LeadsSmall(m, root, 3, f, roles[f].level, v);
      }
    }
  }

  lemma KeptJoin(m: Memory, m1: Memory, n: Memory, root: nat)
    requires SmallKept(m, m1, root) && SmallKept(m1, n, root)
    ensures SmallKept(m, n, root)
  {
    forall v: nat | Canonical(v) && Small(m, root, 3, v) ensures Small(n, root, 3, v) {
      assert Small(m1, root, 3, v);
    }
  }

  lemma WalkingSplit(m: Memory, n: Memory, roles: Roles, rs: Roles, root: nat, f: nat)
    requires WF(m, roles) && WF(n, rs) && Grown(roles, rs) && root in roles && roles[root] == Role(3, 0) && f in roles
    requires SameWalks(m, n, roles) && SameHoles(m, n, roles)
    requires SameAbove(m, n, roles, roles[f].level) && OnPath(m, roles, root, f)
    ensures SameRoot(m, n, root) && SameMissing(m, n, root) && OnPath(n, rs, root, f)
  {
    forall v: nat | Canonical(v)
      ensures Walk(n, root, 3, v) == Walk(m, root, 3, v) && Missing(n, root, 3, v) == Missing(m, root, 3, v)
    {
      assert Covers(roles[root], v);
    }
    forall v: nat | Covers(roles[f], v) ensures Leads(n, root, 3, f, roles[f].level, v) {
      CoversCanonical(roles[f], v);
      LeadsAbove(m, n, roles, root, f, roles[f].level, v);
    }
  }

  lemma WalkingDown(m: Memory, roles: Roles, root: nat, f: nat, i: nat)
    requires WF(m, roles) && root in roles && roles[root] == Role(3, 0) && f in roles && roles[f].level > 0 && i < 512
    requires OnPath(m, roles, root, f) && m[f][i].Pte? && !m[f][i].large
    ensures m[f][i].addr in roles && roles[m[f][i].addr] == Kid(roles[f], i) && OnPath(m, roles, root, m[f][i].addr)
  {
    var t := m[f][i].addr;
    assert EntryOk(roles, roles[f], i, m[f][i]);
    KidOk(roles[f], i);
    forall v: nat | Covers(roles[t], v) ensures Leads(m, root, 3, t, roles[f].level - 1, v) {
      EntryInside(roles[f], i, v);
      CoversCanonical(roles[f], v);
      LeadsDown(m, roles, root, f, i, v);
    }
  }

  // From the table f on to the one below for addr, splitting a large page that is in the way.
  method Descend(pt: Tables, f: nat, level: nat, addr: nat, ghost m0: Memory) returns (t: nat)
    requires Walking(pt, m0, f, level, addr) && level > 0 && pt.mem[f][Index(addr, level)].Pte?
    modifies pt
    ensures Walking(pt, m0, t, level - 1, addr)
  {
    var i := Index(addr, level);
    ghost var m, roles := pt.mem, pt.roles;
    assert EntryOk(roles, roles[f], i, m[f][i]);
    if pt.mem[f][i].large {
      SplitLargePage(pt, f, i, level);
      WalkingSplit(m, pt.mem, roles, pt.roles, pt.root, f);
      SplitKept(m, pt.mem, roles, pt.root, f, i);
      KeptJoin(m0, m, pt.mem, pt.root);
    }
    WalkingDown(pt.mem, pt.roles, pt.root, f, i);
    IndexIsEntry(pt.roles[f], addr);
    KidOk(pt.roles[f], i);
    t := pt.mem[f][i].addr;
  }

  // ---- one page, and a range of pages ----

  const SMALL := 0x1000
  const HUGE := 0x20_0000

  ghost predicate Aligned(x: nat, huge: bool) {
    if huge then x % HUGE == 0 else x % SMALL == 0
  }

  function Size(huge: bool): nat { if huge then HUGE else SMALL }

  /** Exactly the addresses from a up to z are changed. */
  ghost predicate ChangedRange(op: Op, m: Memory, n: Memory, root: nat, a: nat, z: nat) {
    forall v: nat | Canonical(v) ::
      Walk(n, root, 3, v) == if a <= v < z then Apply(op, Walk(m, root, 3, v)) else Walk(m, root, 3, v)
  }

  lemma AtRoot(op: Op, m: Memory, n: Memory, roles: Roles, root: nat, f: nat, i: nat, v: nat)
    requires WF(m, roles) && root in roles && roles[root] == Role(3, 0) && f in roles && roles[f].level < 3 && i < 512
    requires OnPath(m, roles, root, f) && Changed(op, m, n, roles, f, i) && Local(m, n, roles, f) && Canonical(v)
    ensures Walk(n, root, 3, v) == if InEntry(roles[f], i, v) then Apply(op, Walk(m, root, 3, v))
            else Walk(m, root, 3, v)
  {
    var r := roles[f];
    if Covers(r, v) {
      LeadsWalk(m, root, 3, f, r.level, v);
      LeadsAbove(m, n, roles, root, f, r.level, v);
      LeadsWalk(n, root, 3, f, r.level, v);
    } else {
      WalkOutside(m, n, roles, r, root, v);
      if InEntry(r, i, v) {
        EntryInside(r, i, v);
      }
    }
  }

  // The entry of an aligned address starts there.
  lemma EntryStarts(r: Role, addr: nat)
    requires RoleOk(r) && Covers(r, addr) && addr % Step(r.level) == 0
    ensures EntryBase(r, Index(addr, r.level)) == addr
  {
    var b := EntryBase(r, Index(addr, r.level));
    IndexIsEntry(r, addr);
    EntryAligned(r, Index(addr, r.level));
    if b < addr {
      Gap(Step(r.level), b, addr);
    }
  }

  lemma PageInEntry(r: Role, addr: nat, stop: nat)
    requires RoleOk(r) && stop < r.level && Covers(r, addr) && addr % Step(stop) == 0
    ensures var b := EntryBase(r, Index(addr, r.level)); b <= addr && addr + Step(stop) <= b + Step(r.level)
  {
    IndexIsEntry(r, addr);
    EntryAligned(r, Index(addr, r.level));
    Nested(EntryBase(r, Index(addr, r.level)), Step(r.level), addr, Step(stop));
  }

  lemma EmptyEntry(m: Memory, roles: Roles, root: nat, f: nat, i: nat, v: nat)
    requires WF(m, roles) && f in roles && i < 512 && OnPath(m, roles, root, f) && m[f][i].Empty?
    requires InEntry(roles[f], i, v)
    ensures Walk(m, root, 3, v) == None && (roles[f].level > 0 ==> !Missing(m, root, 3, v))
  {
    EntryInside(roles[f], i, v);
    IndexIsEntry(roles[f], v);
    LeadsWalk(m, root, 3, f, roles[f].level, v);
    LeadsMissing(m, root, 3, f, roles[f].level, v);
  }

  // An entry that is empty above the page's level: there is nothing to change.
  lemma NothingThere(op: Op, m: Memory, roles: Roles, root: nat, f: nat, addr: nat, stop: nat)
    requires WF(m, roles) && f in roles && stop < roles[f].level && Covers(roles[f], addr)
    requires OnPath(m, roles, root, f) && m[f][Index(addr, roles[f].level)].Empty? && addr % Step(stop) == 0
    ensures ChangedRange(op, m, m, root, addr, addr + Step(stop)) && !SomeMissing(m, root, addr, addr + Step(stop))
    ensures forall v: nat | Canonical(v) && addr <= v < addr + Step(stop) :: Walk(m, root, 3, v) == None
  {
    var i := Index(addr, roles[f].level);
    PageInEntry(roles[f], addr, stop);
    forall v: nat | Canonical(v) && addr <= v < addr + Step(stop)
      ensures Walk(m, root, 3, v) == None && !Missing(m, root, 3, v)
    {
      EmptyEntry(m, roles, root, f, i, v);
    }
  }

  // In the entry of a huge page a small page is missing if and only if its table is not full.
  lemma FullIff(m: Memory, roles: Roles, root: nat, f: nat, i: nat)
    requires WF(m, roles) && f in roles && roles[f].level == 1 && i < 512 && OnPath(m, roles, root, f)
    ensures HugeFull(m, f, i) <==> !SomeMissing(m, root, EntryBase(roles[f], i), EntryBase(roles[f], i) + Step(1))
  {
    if !HugeFull(m, f, i) {
      NotFull(m, roles, root, f, i);
    }
    forall v: nat | InEntry(roles[f], i, v) && Missing(m, root, 3, v) ensures !HugeFull(m, f, i) {
      EntryInside(roles[f], i, v);
      IndexIsEntry(roles[f], v);
      LeadsMissing(m, root, 3, f, 1, v);
      assert m[m[f][i].addr][Index(v, 0)].Empty?;
    }
  }

  lemma NotFull(m: Memory, roles: Roles, root: nat, f: nat, i: nat)
    requires WF(m, roles) && f in roles && roles[f].level == 1 && i < 512 && OnPath(m, roles, root, f)
    requires !HugeFull(m, f, i)
    ensures SomeMissing(m, root, EntryBase(roles[f], i), EntryBase(roles[f], i) + Step(1))
  {
    var r, t := roles[f], m[f][i].addr;
    var j: nat :| j < 512 && j < |m[t]| && m[t][j].Empty?;
    var v := EntryBase(r, i) + j * Step(0);
    assert EntryOk(roles, r, i, m[f][i]);
    KidOk(r, i);
    EntryInside(r, i, v);
    IndexIsEntry(r, v);
    IndexIsEntry(Kid(r, i), v);
    LeadsMissing(m, root, 3, f, 1, v);
    CoversCanonical(r, v);
    assert Missing(m, root, 3, v);
  }

  // What is reported of a page: failure, if small pages are to be protected in place of a huge page and one is missing.
  ghost predicate Reported(op: Op, huge: bool, m: Memory, root: nat, a: nat, z: nat) {
    huge && op.Protect? && SomeMissing(m, root, a, z)
  }

  // Protecting pages leaves those missing that were, and those small that were.
  ghost predicate Keeps(op: Op, m: Memory, n: Memory, root: nat) {
    op.Protect? ==> SameMissing(m, n, root) && SmallKept(m, n, root)
  }

  // Protecting small pages leaves small pages.
  ghost predicate Shatters(op: Op, huge: bool, m: Memory, n: Memory, root: nat, a: nat, z: nat) {
    op.Protect? && !huge ==>
      forall v: nat | Canonical(v) && a <= v < z && Walk(m, root, 3, v).Some? :: Small(n, root, 3, v)
  }

  lemma AlikeKeeps(m: Memory, n: Memory, root: nat)
    requires Alike(m, n)
    ensures SameMissing(m, n, root) && SmallKept(m, n, root)
  {
    forall v: nat | Canonical(v)
      ensures Missing(n, root, 3, v) == Missing(m, root, 3, v) && Small(n, root, 3, v) == Small(m, root, 3, v)
    {
      AlikeMissing(m, n, root, 3, v);
      AlikeSmall(m, n, root, 3, v);
    }
  }

  lemma MissingBefore(m0: Memory, m: Memory, root: nat, a: nat, z: nat)
    requires SameMissing(m0, m, root)
    ensures SomeMissing(m0, root, a, z) <==> SomeMissing(m, root, a, z)
  {
    if SomeMissing(m0, root, a, z) {
      var v: nat :| a <= v < z && Canonical(v) && Missing(m0, root, 3, v);
      assert Missing(m, root, 3, v);
    }
    if SomeMissing(m, root, a, z) {
      var v: nat :| a <= v < z && Canonical(v) && Missing(m, root, 3, v);
      assert Missing(m0, root, 3, v);
    }
  }

  lemma KeepsJoin(op: Op, m: Memory, m1: Memory, n: Memory, root: nat)
    requires Keeps(op, m, m1, root) && Keeps(op, m1, n, root)
    ensures Keeps(op, m, n, root)
  {
    if op.Protect? {
      forall v: nat | Canonical(v) ensures Missing(n, root, 3, v) == Missing(m, root, 3, v) {
        assert Missing(n, root, 3, v) == Missing(m1, root, 3, v);
      }
      KeptJoin(m, m1, n, root);
    }
  }

  // The operation on the entry of a page, as far as table f goes.
  method ChangePage(pt: Tables, op: Op, huge: bool, f: nat, i: nat) returns (ok: bool)
    requires Sound(pt) && f in pt.roles && i < 512 && pt.roles[f].level == (if huge then 1 else 0)
    requires OnPath(pt.mem, pt.roles, pt.root, f)
    modifies pt`mem
    ensures Sound(pt) && Changed(op, old(pt.mem), pt.mem, pt.roles, f, i) && Local(old(pt.mem), pt.mem, pt.roles, f)
    ensures Keeps(op, old(pt.mem), pt.mem, pt.root)
    ensures var b := EntryBase(pt.roles[f], i);
            && (ok <==> !Reported(op, huge, old(pt.mem), pt.root, b, b + Step(pt.roles[f].level)))
            && Shatters(op, huge, old(pt.mem), pt.mem, pt.root, b, b + Step(pt.roles[f].level))
  {
    ghost var m := pt.mem;
    ok := true;
    if huge {
      ok := HugePage(pt, op, f, i);
      FullIff(m, pt.roles, pt.root, f, i);
    } else {
      ChangeEntry(pt, op, f, i);
      assert Under(pt.roles[f], pt.roles[f]);
    }
    if op.Protect? {
      AlikeKeeps(m, pt.mem, pt.root);
      if !huge {
        PageShatters(m, pt.mem, pt.roles, pt.root, f, i);
      }
    }
  }

  lemma PageShatters(m: Memory, n: Memory, roles: Roles, root: nat, f: nat, i: nat)
    requires WF(m, roles) && f in roles && roles[f].level == 0 && i < 512 && OnPath(m, roles, root, f)
    requires SmallKept(m, n, root)
    ensures forall v: nat | Canonical(v) && InEntry(roles[f], i, v) && Walk(m, root, 3, v).Some? :: Small(n, root, 3, v)
  {
    forall v: nat | Canonical(v) && InEntry(roles[f], i, v) && Walk(m, root, 3, v).Some? ensures Small(n, root, 3, v) {
      EntryInside(roles[f], i, v);
      LeadsWalk(m, root, 3, f, 0, v);
      LeadsSmall(m, root, 3, f, 0, v);
    }
  }

  // And seen from the root.
  lemma ChangedFromRoot(op: Op, m0: Memory, m: Memory, n: Memory, roles: Roles, root: nat, f: nat, i: nat, z: nat)
    requires WF(m, roles) && root in roles && roles[root] == Role(3, 0) && f in roles && roles[f].level < 3 && i < 512
    requires OnPath(m, roles, root, f) && Changed(op, m, n, roles, f, i) && Local(m, n, roles, f)
    requires SameRoot(m0, m, root) && z == EntryBase(roles[f], i) + Step(roles[f].level)
    ensures ChangedRange(op, m0, n, root, EntryBase(roles[f], i), z)
  {
    forall v: nat | Canonical(v)
      ensures Walk(n, root, 3, v) == if EntryBase(roles[f], i) <= v < z then Apply(op, Walk(m0, root, 3, v))
              else Walk(m0, root, 3, v)
    {
      AtRoot(op, m, n, roles, root, f, i, v);
    }
  }

  method OperateEntry(pt: Tables, op: Op, huge: bool, f: nat, addr: nat, ghost m0: Memory) returns (ok: bool)
    requires Walking(pt, m0, f, if huge then 1 else 0, addr) && addr % Step(if huge then 1 else 0) == 0
    modifies pt`mem
    ensures Sound(pt) && ChangedRange(op, m0, pt.mem, pt.root, addr, addr + Step(if huge then 1 else 0))
    ensures Keeps(op, m0, pt.mem, pt.root)
    ensures ok <==> !Reported(op, huge, m0, pt.root, addr, addr + Step(if huge then 1 else 0))
    ensures Shatters(op, huge, m0, pt.mem, pt.root, addr, addr + Step(if huge then 1 else 0))
  {
    ghost var m, r := pt.mem, pt.roles[f];
    EntryStarts(r, addr);
    var i := Index(addr, if huge then 1 else 0);
    ok := ChangePage(pt, op, huge, f, i);
    MissingBefore(m0, m, pt.root, addr, addr + Step(r.level));
    KeepsJoin(op, m0, m, pt.mem, pt.root);
    ChangedFromRoot(op, m0, m, pt.mem, pt.roles, pt.root, f, i, addr + Step(r.level));
  }

  lemma WalkingStart(pt: Tables, addr: nat)
    requires Sound(pt) && Canonical(addr)
    ensures Walking(pt, pt.mem, pt.root, 3, addr)
  {
  }

  lemma NoneShatters(op: Op, huge: bool, m0: Memory, m: Memory, root: nat, a: nat, z: nat)
    requires SameRoot(m0, m, root)
    requires forall v: nat | Canonical(v) && a <= v < z :: Walk(m, root, 3, v) == None
    ensures Shatters(op, huge, m0, m, root, a, z)
  {
  }

  lemma RangeFrom(op: Op, m0: Memory, m: Memory, root: nat, a: nat, z: nat)
    requires SameRoot(m0, m, root) && ChangedRange(op, m, m, root, a, z)
    ensures ChangedRange(op, m0, m, root, a, z)
  {
  }

  method OperatePage(pt: Tables, op: Op, huge: bool, addr: nat) returns (ok: bool)
    requires Sound(pt) && Canonical(addr) && Aligned(addr, huge)
    modifies pt
    ensures Sound(pt) && ChangedRange(op, old(pt.mem), pt.mem, pt.root, addr, addr + Size(huge))
    ensures Keeps(op, old(pt.mem), pt.mem, pt.root)
    ensures ok <==> !Reported(op, huge, old(pt.mem), pt.root, addr, addr + Size(huge))
    ensures Shatters(op, huge, old(pt.mem), pt.mem, pt.root, addr, addr + Size(huge))
  {
    ghost var m := pt.mem;
    var f, level := pt.root, 3;
    var stop := if huge then 1 else 0;
    WalkingStart(pt, addr);
    while level > stop
      invariant stop <= level <= 3 && Walking(pt, m, f, level, addr)
    {
      if pt.mem[f][Index(addr, level)].Empty? {
        NothingThere(op, pt.mem, pt.roles, pt.root, f, addr, stop);
        RangeFrom(op, m, pt.mem, pt.root, addr, addr + Step(stop));
        NoneShatters(op, huge, m, pt.mem, pt.root, addr, addr + Step(stop));
        MissingBefore(m, pt.mem, pt.root, addr, addr + Step(stop));
        return true;
      }
      f := Descend(pt, f, level, addr, m);
      level := level - 1;
    }
    ok := OperateEntry(pt, op, huge, f, addr, m);
  }

  // ---- operate() ----

  function AlignDown(x: nat, s: nat): nat
    requires s > 0
  {
    x - x % s
  }

  function AlignUp(x: nat, s: nat): nat
    requires s > 0
  {
    AlignDown(x + s - 1, s)
  }

  // The range of whole pages operate() works on.
  function From(start: nat): nat {
    AlignDown(start, SMALL)
  }

  function To(start: nat, size: nat): nat {
    From(start) + AlignUp(size, SMALL)
  }

  lemma {:induction false} RangeJoin(op: Op, m: Memory, n: Memory, o: Memory, root: nat, a: nat, b: nat, c: nat)
    requires a <= b <= c && ChangedRange(op, m, n, root, a, b) && ChangedRange(op, n, o, root, b, c)
    ensures ChangedRange(op, m, o, root, a, c)
  {
    forall v: nat | Canonical(v)
      ensures Walk(o, root, 3, v) == if a <= v < c then Apply(op, Walk(m, root, 3, v)) else Walk(m, root, 3, v)
    {
      assert Walk(o, root, 3, v) == if b <= v < c then Apply(op, Walk(n, root, 3, v)) else Walk(n, root, 3, v);
    }
  }

  lemma NextPage(huge: bool, a: nat, z: nat, next: nat)
    requires Aligned(a, huge) && Aligned(z, huge) && a < z && (z <= HALF || TOP - HALF <= a < z <= TOP)
    requires next == a + Size(huge)
    ensures next <= z && Aligned(next, huge) && Canonical(a)
  {
  }

  // The pages visited are the range, one after another.
  datatype Visit = Visit(huge: bool, addr: nat)

  ghost predicate Tiles(vs: seq<Visit>, a: nat, z: nat) {
    if vs == [] then a == z
    else vs[0].addr == a && Aligned(a, vs[0].huge) && Tiles(vs[1..], a + Size(vs[0].huge), z)
  }

  lemma {:induction false} TilesJoin(vs: seq<Visit>, ws: seq<Visit>, a: nat, b: nat, c: nat)
    requires Tiles(vs, a, b) && Tiles(ws, b, c)
    ensures Tiles(vs + ws, a, c)
  {
    if vs == [] {
      assert vs + ws == ws;
    } else {
      assert (vs + ws)[1..] == vs[1..] + ws;
      TilesJoin(vs[1..], ws, a + Size(vs[0].huge), b, c);
    }
  }

  lemma {:induction false} TilesInside(vs: seq<Visit>, a: nat, z: nat, k: nat)
    requires Tiles(vs, a, z) && k < |vs|
    ensures a <= vs[k].addr && vs[k].addr + Size(vs[k].huge) <= z
    ensures k > 0 ==> a + Size(vs[0].huge) <= vs[k].addr
  {
    if k > 0 {
      TilesInside(vs[1..], a + Size(vs[0].huge), z, k - 1);
    } else if |vs| > 1 {
      TilesInside(vs[1..], a + Size(vs[0].huge), z, |vs| - 2);
    }
  }

  predicate InTile(t: Visit, v: nat) {
    t.addr <= v < t.addr + Size(t.huge)
  }

  /** Tiles cover each address of the range exactly once, and none outside it. */
  lemma {:induction false} TilesOnce(vs: seq<Visit>, a: nat, z: nat, v: nat)
    requires Tiles(vs, a, z)
    ensures a <= v < z <==> exists k: nat :: k < |vs| && InTile(vs[k], v)
    ensures forall j: nat, k: nat | j < |vs| && k < |vs| && InTile(vs[j], v) && InTile(vs[k], v) :: j == k
  {
    forall k: nat | k < |vs|
      ensures a <= vs[k].addr && vs[k].addr + Size(vs[k].huge) <= z
      ensures k > 0 ==> a + Size(vs[0].huge) <= vs[k].addr
    {
      TilesInside(vs, a, z, k);
    }
    if vs != [] {
      TilesOnce(vs[1..], a + Size(vs[0].huge), z, v);
      if a + Size(vs[0].huge) <= v < z {
        var k: nat :| k < |vs[1..]| && InTile(vs[1..][k], v);
        assert vs[k + 1] == vs[1..][k];
      }
    }
  }

  // The pages from a up to addr have been changed.
  ghost predicate Worked(op: Op, huge: bool, m: Memory, pt: Tables, a: nat, addr: nat, ok: bool)
    reads pt
  {
    && Sound(pt) && ChangedRange(op, m, pt.mem, pt.root, a, addr) && Keeps(op, m, pt.mem, pt.root)
    && (ok <==> !Reported(op, huge, m, pt.root, a, addr)) && Shatters(op, huge, m, pt.mem, pt.root, a, addr)
  }

  lemma ShattersJoin(op: Op, huge: bool, m: Memory, m1: Memory, n: Memory, root: nat, a: nat, b: nat, c: nat)
    requires a <= b <= c && ChangedRange(op, m, m1, root, a, b) && Keeps(op, m1, n, root)
    requires Shatters(op, huge, m, m1, root, a, b) && Shatters(op, huge, m1, n, root, b, c)
    ensures Shatters(op, huge, m, n, root, a, c)
  {
    if op.Protect? && !huge {
      forall v: nat | Canonical(v) && a <= v < c && Walk(m, root, 3, v).Some? ensures Small(n, root, 3, v) {
        assert v < b ==> Small(m1, root, 3, v);
      }
    }
  }

  // They have been visited, in tiles of one size.
  ghost predicate Visited(huge: bool, a: nat, addr: nat, visits: seq<Visit>) {
    Tiles(visits, a, addr) && forall k | 0 <= k < |visits| :: visits[k].huge == huge
  }

  lemma MissingJoin(m: Memory, m1: Memory, root: nat, a: nat, b: nat, c: nat)
    requires a <= b <= c && SameMissing(m, m1, root)
    ensures SomeMissing(m, root, a, c) <==> SomeMissing(m, root, a, b) || SomeMissing(m1, root, b, c)
  {
    MissingBefore(m, m1, root, b, c);
    if SomeMissing(m, root, a, c) {
      var v: nat :| a <= v < c && Canonical(v) && Missing(m, root, 3, v);
      assert (a <= v < b || b <= v < c) && Canonical(v) && Missing(m, root, 3, v);
    }
    if SomeMissing(m, root, a, b) {
      var v: nat :| a <= v < b && Canonical(v) && Missing(m, root, 3, v);
      assert a <= v < c;
    }
    if SomeMissing(m, root, b, c) {
      var v: nat :| b <= v < c && Canonical(v) && Missing(m, root, 3, v);
      assert a <= v < c;
    }
  }

  lemma VisitMemory(op: Op, huge: bool, m: Memory, m1: Memory, n: Memory, root: nat, a: nat, addr: nat, z: nat)
    requires a <= addr <= z && ChangedRange(op, m, m1, root, a, addr) && ChangedRange(op, m1, n, root, addr, z)
    requires Keeps(op, m, m1, root) && Keeps(op, m1, n, root)
    ensures ChangedRange(op, m, n, root, a, z) && Keeps(op, m, n, root)
    ensures Reported(op, huge, m, root, a, z) <==>
            Reported(op, huge, m, root, a, addr) || Reported(op, huge, m1, root, addr, z)
  {
    RangeJoin(op, m, m1, n, root, a, addr, z);
    KeepsJoin(op, m, m1, n, root);
    if op.Protect? {
      MissingJoin(m, m1, root, a, addr, z);
    }
  }

  lemma VisitTile(huge: bool, a: nat, addr: nat, next: nat, visits: seq<Visit>)
    requires Visited(huge, a, addr, visits) && Aligned(addr, huge) && next == addr + Size(huge)
    ensures Visited(huge, a, next, visits + [Visit(huge, addr)])
  {
    TilesJoin(visits, [Visit(huge, addr)], a, addr, next);
  }

  method VisitOne(pt: Tables, op: Op, huge: bool, addr: nat, ok: bool, ghost a: nat, ghost m: Memory, ghost next: nat)
    returns (ok': bool)
    requires Worked(op, huge, m, pt, a, addr, ok) && a <= addr
    requires Canonical(addr) && Aligned(addr, huge) && next == addr + Size(huge)
    modifies pt
    ensures Worked(op, huge, m, pt, a, next, ok')
  {
    ghost var m1 := pt.mem;
    var one := OperatePage(pt, op, huge, addr);
    VisitMemory(op, huge, m, m1, pt.mem, pt.root, a, addr, next);
    ShattersJoin(op, huge, m, m1, pt.mem, pt.root, a, addr, next);
    ok' := ok && one;
  }

  ghost predicate Between(huge: bool, a: nat, addr: nat, z: nat) {
    && a <= addr <= z && (z <= HALF || TOP - HALF <= a <= z <= TOP)
    && (addr < z ==> Aligned(addr, huge) && Aligned(z, huge))
  }

  method VisitNext(pt: Tables, op: Op, huge: bool, addr: nat, ok: bool, visits: seq<Visit>,
                   ghost a: nat, ghost z: nat, ghost m: Memory)
    returns (next: nat, ok': bool, visits': seq<Visit>)
    requires Between(huge, a, addr, z) && addr < z && Worked(op, huge, m, pt, a, addr, ok)
    requires Visited(huge, a, addr, visits)
    modifies pt
    ensures addr < next && Between(huge, a, next, z) && Worked(op, huge, m, pt, a, next, ok')
    ensures Visited(huge, a, next, visits')
  {
    next := addr + Size(huge);
    NextPage(huge, addr, z, next);
    ok' := VisitOne(pt, op, huge, addr, ok, a, m, next);
    VisitTile(huge, a, addr, next, visits);
    visits' := visits + [Visit(huge, addr)];
  }

  // The pages of one size from a up to z.
  method OperatePages(pt: Tables, op: Op, huge: bool, a: nat, z: nat) returns (ok: bool, visits: seq<Visit>)
    requires Sound(pt) && Between(huge, a, a, z)
    modifies pt
    ensures Worked(op, huge, old(pt.mem), pt, a, z, ok) && Visited(huge, a, z, visits)
  {
    ghost var m := pt.mem;
    var addr := a;
    ok, visits := true, [];
    while addr < z
      invariant Between(huge, a, addr, z) && Worked(op, huge, m, pt, a, addr, ok) && Visited(huge, a, addr, visits)
      decreases z - addr
    {
      addr, ok, visits := VisitNext(pt, op, huge, addr, ok, visits, a, z, m);
    }
    assert addr == z;
  }

  lemma AlignDownIs(x: nat, s: nat)
    requires s > 0
    ensures AlignDown(x, s) % s == 0 && AlignDown(x, s) <= x < AlignDown(x, s) + s
    ensures forall b: nat | b % s == 0 && b <= x :: b <= AlignDown(x, s)
  {
    var d := AlignDown(x, s);
    DivMod(d, s, 0, x / s);
    forall b: nat | b % s == 0 && b <= x ensures b <= d {
      if d < b {
        Gap(s, d, b);
      }
    }
  }

  lemma HugeIsSmall(x: nat)
    requires x % HUGE == 0
    ensures x % SMALL == 0
  {
    MultipleOf(x, HUGE, SMALL);
  }

  // Where the huge pages start and end, in every case.
  method HugeBounds(start: nat, end: nat) returns (hpStart: nat, hpEnd: nat)
    requires start <= end && start % SMALL == 0 && end % SMALL == 0
    ensures start <= hpStart <= hpEnd <= end && hpStart % SMALL == 0 && hpEnd % SMALL == 0
    ensures hpStart < hpEnd ==> hpStart % HUGE == 0 && hpEnd % HUGE == 0
    ensures forall b: nat | b % HUGE == 0 && start <= b && b + HUGE <= end :: hpStart <= b && b + HUGE <= hpEnd
  {
    hpStart := AlignUp(start, HUGE);
    hpEnd := AlignDown(end, HUGE);
    AlignDownIs(start + HUGE - 1, HUGE);
    AlignDownIs(end, HUGE);
    HugeIsSmall(hpStart);
    HugeIsSmall(hpEnd);
    ghost var up, down := hpStart, hpEnd;
    if hpStart > end {
      hpStart := end;
    }
    if hpEnd < start {
      hpEnd := end;
    }
    forall b: nat | b % HUGE == 0 && start <= b && b + HUGE <= end ensures up <= b && b + HUGE <= down {
      if b < up {
        Gap(HUGE, b, up);
      }
      SumMultiple(b, HUGE, HUGE);
    }
    if up > down && down >= start {
      Gap(HUGE, down, up);
      assert false;
    }
  }

  // An aligned huge block of the range in which small pages are mapped, and one of them is missing.
  ghost predicate GapAt(m: Memory, root: nat, first: nat, end: nat, b: nat) {
    b % HUGE == 0 && first <= b && b + HUGE <= end && SomeMissing(m, root, b, b + HUGE)
  }

  ghost predicate HasGap(m: Memory, root: nat, first: nat, end: nat) {
    exists b: nat :: GapAt(m, root, first, end, b)
  }

  lemma GapInHuge(m: Memory, root: nat, first: nat, end: nat, lo: nat, hi: nat)
    requires first <= lo <= hi <= end && (lo < hi ==> lo % HUGE == 0 && hi % HUGE == 0)
    requires forall b: nat | b % HUGE == 0 && first <= b && b + HUGE <= end :: lo <= b && b + HUGE <= hi
    ensures SomeMissing(m, root, lo, hi) <==> HasGap(m, root, first, end)
  {
    if SomeMissing(m, root, lo, hi) {
      var v: nat :| lo <= v < hi && Canonical(v) && Missing(m, root, 3, v);
      var b := AlignDown(v, HUGE);
      AlignDownIs(v, HUGE);
      Gap(HUGE, b, hi);
      assert GapAt(m, root, first, end, b);
    }
    if b: nat :| GapAt(m, root, first, end, b) {
      var v: nat :| b <= v < b + HUGE && Canonical(v) && Missing(m, root, 3, v);
      assert lo <= v < hi;
    }
  }

  // The address is in a huge page of the range.
  predicate InHuge(first: nat, end: nat, v: nat) {
    first <= AlignDown(v, HUGE) && AlignDown(v, HUGE) + HUGE <= end
  }

  lemma HugePart(first: nat, lo: nat, hi: nat, end: nat, v: nat)
    requires first <= lo <= hi <= end && (lo < hi ==> lo % HUGE == 0 && hi % HUGE == 0)
    requires forall b: nat | b % HUGE == 0 && first <= b && b + HUGE <= end :: lo <= b && b + HUGE <= hi
    ensures InHuge(first, end, v) <==> lo <= v < hi
  {
    AlignDownIs(v, HUGE);
    if lo <= v < hi {
      Gap(HUGE, AlignDown(v, HUGE), hi);
    }
  }

  // Where the range is protected in small pages, small pages are what is mapped.
  ghost predicate SmallAround(op: Op, m: Memory, n: Memory, root: nat, first: nat, lo: nat, hi: nat, end: nat) {
    op.Protect? ==>
      forall v: nat | Canonical(v) && (first <= v < lo || hi <= v < end) && Walk(m, root, 3, v).Some? ::
        Small(n, root, 3, v)
  }

  lemma AroundJoin(op: Op, m0: Memory, m1: Memory, m2: Memory, n: Memory, root: nat,
                   first: nat, lo: nat, hi: nat, end: nat)
    requires first <= lo <= hi <= end && ChangedRange(op, m0, m2, root, first, hi)
    requires Shatters(op, false, m0, m1, root, first, lo) && Shatters(op, false, m2, n, root, hi, end)
    requires Keeps(op, m1, m2, root) && Keeps(op, m2, n, root)
    ensures SmallAround(op, m0, n, root, first, lo, hi, end)
  {
    if op.Protect? {
      KeptJoin(m1, m2, n, root);
    }
  }

  // The three parts together.
  ghost predicate Joined(op: Op, m: Memory, pt: Tables, first: nat, lo: nat, hi: nat, end: nat, ok: bool)
    reads pt
  {
    && Sound(pt) && ChangedRange(op, m, pt.mem, pt.root, first, end)
    && (ok <==> !Reported(op, true, m, pt.root, lo, hi)) && SmallAround(op, m, pt.mem, pt.root, first, lo, hi, end)
  }

  method OperateParts(pt: Tables, op: Op, first: nat, lo: nat, hi: nat, end: nat) returns (ok: bool, visits: seq<Visit>)
    requires Sound(pt) && first <= lo <= hi <= end && (end <= HALF || TOP - HALF <= first <= end <= TOP)
    requires first % SMALL == 0 && lo % SMALL == 0 && hi % SMALL == 0 && end % SMALL == 0
    requires lo < hi ==> lo % HUGE == 0 && hi % HUGE == 0
    modifies pt
    ensures Joined(op, old(pt.mem), pt, first, lo, hi, end, ok) && Tiles(visits, first, end)
    ensures forall h: nat | h % HUGE == 0 && lo <= h && h + HUGE <= hi :: Visit(true, h) in visits
  {
    ghost var m0 := pt.mem;
    var a, va := OperatePages(pt, op, false, first, lo);
    ghost var m1 := pt.mem;
    var b, vb := OperatePages(pt, op, true, lo, hi);
    ghost var m2 := pt.mem;
    var c, vc := OperatePages(pt, op, false, hi, end);
    VisitMemory(op, true, m0, m1, m2, pt.root, first, lo, hi);
    VisitMemory(op, true, m0, m2, pt.mem, pt.root, first, hi, end);
    AroundJoin(op, m0, m1, m2, pt.mem, pt.root, first, lo, hi, end);
    if op.Protect? {
      MissingBefore(m0, m1, pt.root, lo, hi);
    }
    TilesJoin(va, vb, first, lo, hi);
    TilesJoin(va + vb, vc, first, hi, end);
    ok, visits := a && b && c, va + vb + vc;
    forall h: nat | h % HUGE == 0 && lo <= h && h + HUGE <= hi ensures Visit(true, h) in visits {
      HugeVisited(vb, lo, hi, h);
    }
  }

  lemma RangeAligned(start: nat, size: nat)
    ensures From(start) % SMALL == 0 && To(start, size) % SMALL == 0 && From(start) <= To(start, size)
  {
    AlignDownIs(start, SMALL);
    AlignDownIs(size + SMALL - 1, SMALL);
    SumMultiple(From(start), AlignUp(size, SMALL), SMALL);
  }

  method OperateRange(pt: Tables, op: Op, first: nat, end: nat) returns (ok: bool, visits: seq<Visit>)
    requires Sound(pt) && first <= end && (end <= HALF || TOP - HALF <= first <= end <= TOP)
    requires first % SMALL == 0 && end % SMALL == 0
    modifies pt
    ensures Sound(pt) && ChangedRange(op, old(pt.mem), pt.mem, pt.root, first, end) && Tiles(visits, first, end)
    ensures forall b: nat | b % HUGE == 0 && first <= b && b + HUGE <= end :: Visit(true, b) in visits
    ensures !ok <==> op.Protect? && HasGap(old(pt.mem), pt.root, first, end)
    ensures SmallLeft(op, old(pt.mem), pt.mem, pt.root, first, end)
  {
    var hpStart, hpEnd := HugeBounds(first, end);
    ghost var m := pt.mem;
    GapInHuge(pt.mem, pt.root, first, end, hpStart, hpEnd);
    ok, visits := OperateParts(pt, op, first, hpStart, hpEnd, end);
    AroundIsLeft(op, m, pt.mem, pt.root, first, hpStart, hpEnd, end);
  }

  // Protecting part of a huge page leaves small pages in its place.
  ghost predicate SmallLeft(op: Op, m: Memory, n: Memory, root: nat, first: nat, end: nat) {
    op.Protect? ==>
      forall v: nat | Canonical(v) && first <= v < end && !InHuge(first, end, v) && Walk(m, root, 3, v).Some? ::
        Small(n, root, 3, v)
  }

  lemma AroundIsLeft(op: Op, m: Memory, n: Memory, root: nat, first: nat, lo: nat, hi: nat, end: nat)
    requires first <= lo <= hi <= end && (lo < hi ==> lo % HUGE == 0 && hi % HUGE == 0)
    requires forall b: nat | b % HUGE == 0 && first <= b && b + HUGE <= end :: lo <= b && b + HUGE <= hi
    requires SmallAround(op, m, n, root, first, lo, hi, end)
    ensures SmallLeft(op, m, n, root, first, end)
  {
    forall v: nat ensures InHuge(first, end, v) <==> lo <= v < hi {
      HugePart(first, lo, hi, end, v);
    }
  }

  /** The whole pages of the range are visited once each, with the huge ones where they fit, and exactly
      their addresses are changed. Failure is reported if and only if small pages are protected in an
      aligned huge block of the range and one of them is missing. What is protected in small pages is
      mapped in small pages then. */
  method Operate(pt: Tables, op: Op, start: nat, size: nat) returns (ok: bool, visits: seq<Visit>)
    requires Sound(pt) && (To(start, size) <= HALF || TOP - HALF <= From(start) <= To(start, size) <= TOP)
    modifies pt
    ensures Sound(pt) && ChangedRange(op, old(pt.mem), pt.mem, pt.root, From(start), To(start, size))
    ensures Tiles(visits, From(start), To(start, size))
    ensures forall b: nat | b % HUGE == 0 && From(start) <= b && b + HUGE <= To(start, size) :: Visit(true, b) in visits
    ensures !ok <==> op.Protect? && HasGap(old(pt.mem), pt.root, From(start), To(start, size))
    ensures SmallLeft(op, old(pt.mem), pt.mem, pt.root, From(start), To(start, size))
  {
    RangeAligned(start, size);
    ok, visits := OperateRange(pt, op, From(start), To(start, size));
  }

  // Among the huge tiles is each aligned block of the range.
  lemma {:induction false} HugeVisited(vs: seq<Visit>, a: nat, z: nat, b: nat)
    requires Tiles(vs, a, z) && (forall k | 0 <= k < |vs| :: vs[k].huge) && a <= b < z && b % HUGE == 0
    ensures Visit(true, b) in vs
  {
    if vs[0].addr != b {
      assert a % HUGE == 0;
      HugeVisited(vs[1..], a + HUGE, z, b);
    }
  }

  lemma ShortHasNoGap(m: Memory, root: nat, start: nat, size: nat, b: nat)
    requires start % SMALL == 0 && size < HUGE && size % SMALL == 0
    ensures From(start) == start && To(start, size) == start + size && !GapAt(m, root, From(start), To(start, size), b)
  {
    AlignDownIs(size + SMALL - 1, SMALL);
    if size < AlignUp(size, SMALL) {
      Gap(SMALL, size, AlignUp(size, SMALL));
    }
  }

  /** An input for which a missing page is not reported: nothing is mapped in a new page table, and
      protecting a range of it that is too short for a huge page succeeds. */
  method ProtectNothing(perm: Perm, start: nat, size: nat) returns (pt: Tables, ok: bool)
    requires start % SMALL == 0 && 0 < size < HUGE && size % SMALL == 0 && start + size <= HALF
    ensures fresh(pt) && Sound(pt) && ok && forall v: nat | Canonical(v) :: Walk(pt.mem, pt.root, 3, v) == None
  {
    pt := new Tables();
    ghost var m := pt.mem;
    var visits;
    forall b: nat ensures !GapAt(m, pt.root, From(start), To(start, size), b) {
      ShortHasNoGap(m, pt.root, start, size, b);
    }
    ShortHasNoGap(m, pt.root, start, size, 0);
    ok, visits := Operate(pt, Protect(perm), start, size);
  }

  // ---- virt_to_phys_pt() ----

  /** The loop over the levels finds where the page table sends an address that it maps. */
  method VirtToPhysPt(pt: Tables, v: nat) returns (phys: nat)
    requires pt.Valid() && Canonical(v) && Walk(pt.mem, pt.root, 3, v).Some?
    ensures phys == Walk(pt.mem, pt.root, 3, v).value.phys
  {
    var level := 3;
    var f := pt.root;
    var e := pt.mem[f][Index(v, level)];
    IndexIsEntry(pt.roles[f], v);
    assert EntryOk(pt.roles, pt.roles[f], Index(v, 3), e);
    while level > 0 && !e.large
      invariant level <= 3 && f in pt.roles && pt.roles[f].level == level && Covers(pt.roles[f], v)
      invariant e == pt.mem[f][Index(v, level)] && e.Pte?
      invariant Walk(pt.mem, pt.root, 3, v) == Walk(pt.mem, f, level, v)
      decreases level
    {
      ghost var r, i := pt.roles[f], Index(v, level);
      IndexIsEntry(r, v);
      WalkInto(pt.mem, pt.roles, f, i, v);
      assert EntryOk(pt.roles, r, i, e) && e.present;
      f := e.addr;
      level := level - 1;
      e := pt.mem[f][Index(v, level)];
    }
    phys := e.addr - e.addr % Step(level) + v % Step(level);
  }
}
