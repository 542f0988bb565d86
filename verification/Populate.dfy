/**
  Populating a range of pages, core/mmu.cc: frames are put where nothing is mapped, a huge one
  wherever it fits, and tables are allocated on the way.
 */
module Populate {
  import opened Arith
  import opened PageTable
  import opened PageOps

  // ---- the pages put in ----

  // The frames the allocator gives for a page at an address: alloc_page() and alloc_huge_page().
  datatype Frames = Frames(small: nat -> nat, huge: nat -> nat)

  ghost predicate FramesOk(fr: Frames) {
    (forall b :: fr.small(b) % SMALL == 0) && (forall b :: fr.huge(b) % HUGE == 0)
  }

  function Frame(fr: Frames, huge: bool, addr: nat): nat {
    if huge then fr.huge(addr) else fr.small(addr)
  }

  // make_normal_pte() and make_large_pte().
  function NewPte(fr: Frames, perm: Perm, huge: bool, addr: nat): Pte {
    Pte(Frame(fr, huge, addr), perm.read || perm.write || perm.exec, perm.write, huge, perm.exec)
  }

  // What an address is then mapped to.
  function Fresh(fr: Frames, perm: Perm, huge: bool, v: nat): Option<Mapping> {
    Some(Mapping(Frame(fr, huge, AlignDown(v, Size(huge))) + v % Size(huge),
                 perm.read || perm.write || perm.exec, perm.write, perm.exec))
  }

  lemma NewAt(fr: Frames, perm: Perm, huge: bool, addr: nat, v: nat)
    requires FramesOk(fr) && Aligned(addr, huge) && addr <= v < addr + Size(huge)
    ensures At(NewPte(fr, perm, huge, addr), if huge then 1 else 0, v) == Fresh(fr, perm, huge, v)
  {
    var s := Size(huge);
    AlignDownIs(v, s);
    if addr < AlignDown(v, s) {
      Gap(s, addr, AlignDown(v, s));
    }
  }

  lemma {:induction false} SmallWrite(m: Memory, roles: Roles, g: nat, j: nat, e: Pte, f: nat, v: nat)
    requires WF(m, roles) && g in roles && j < 512 && f in roles && Covers(roles[f], v) && !InEntry(roles[g], j, v)
    ensures Small(m[g := m[g][j := e]], f, roles[f].level, v) == Small(m, f, roles[f].level, v)
    decreases roles[f].level
  {
    var r := roles[f];
    var i := Index(v, r.level);
    IndexIsEntry(r, v);
    var was := m[f][i];
    assert EntryOk(roles, r, i, was);
    if was.Pte? && !Leaf(was, r.level) {
      KidOk(r, i);
      SmallWrite(m, roles, g, j, e, was.addr, v);
    }
  }

  // A table of empty entries in place of an empty entry.
  lemma {:induction false} AllocSmall(m: Memory, n: Memory, roles: Roles, f: nat, i: nat, t: nat, g: nat, v: nat)
    requires WF(m, roles) && t !in m && f in roles && i < 512 && roles[f].level > 0 && m[f][i].Empty?
    requires n == m[t := seq(512, _ => Empty)][f := m[f][i := Pte(t, true, true, false, true)]]
    requires g in roles && Covers(roles[g], v)
    ensures Small(n, g, roles[g].level, v) == Small(m, g, roles[g].level, v)
    decreases roles[g].level
  {
    var r := roles[g];
    var j := Index(v, r.level);
    var e := m[g][j];
    assert EntryOk(roles, r, j, e);
    if g == f && j == i {
      assert n[t][Index(v, r.level - 1)].Empty?;
    } else if e.Pte? && !Leaf(e, r.level) {
      IndexIsEntry(r, v);
      KidOk(r, j);
      AllocSmall(m, n, roles, f, i, t, e.addr, v);
    }
  }

  // A page that is found is mapped.
  lemma {:induction false} SmallIsSome(m: Memory, f: nat, level: nat, v: nat)
    requires level < 4 && Small(m, f, level, v)
    ensures Walk(m, f, level, v).Some?
    decreases level
  {
    if level > 0 {
      SmallIsSome(m, m[f][Index(v, level)].addr, level - 1, v);
    }
  }

  // ---- the walk, which allocates tables ----

  // The huge block of an address.
  predicate InBlock(addr: nat, v: nat) {
    AlignDown(v, HUGE) == AlignDown(addr, HUGE)
  }

  lemma BlockMember(b: nat, v: nat)
    requires b % HUGE == 0 && b <= v < b + HUGE
    ensures AlignDown(v, HUGE) == b
  {
    AlignDownIs(v, HUGE);
    if b < AlignDown(v, HUGE) {
      Gap(HUGE, b, AlignDown(v, HUGE));
    }
  }

  // Small pages are where they were, outside the huge block of addr, or everywhere.
  ghost predicate SmallElsewhere(m: Memory, n: Memory, root: nat, addr: nat, all: bool) {
    forall v: nat | Canonical(v) && (all || !InBlock(addr, v)) :: Small(n, root, 3, v) == Small(m, root, 3, v)
  }

  ghost predicate Reaching(pt: Tables, m0: Memory, f: nat, level: nat, addr: nat)
    reads pt
  {
    && Sound(pt) && f in pt.roles && pt.roles[f].level == level && Covers(pt.roles[f], addr)
    && SameRoot(m0, pt.mem, pt.root) && OnPath(pt.mem, pt.roles, pt.root, f)
    && SmallElsewhere(m0, pt.mem, pt.root, addr, level > 0)
  }

  lemma ReachingStart(pt: Tables, addr: nat)
    requires Sound(pt) && Canonical(addr)
    ensures Reaching(pt, pt.mem, pt.root, 3, addr)
  {
  }

  // The entry of an address at level 1 is its huge block.
  lemma BlockIsEntry(r: Role, addr: nat)
    requires RoleOk(r) && r.level == 1 && Covers(r, addr)
    ensures EntryBase(r, Index(addr, 1)) == AlignDown(addr, HUGE)
  {
    var b := EntryBase(r, Index(addr, 1));
    IndexIsEntry(r, addr);
    EntryAligned(r, Index(addr, 1));
    AlignDownIs(addr, HUGE);
    if b < AlignDown(addr, HUGE) {
      Gap(HUGE, b, AlignDown(addr, HUGE));
    }
  }

  // What was changed keeps all walks, and the way to f.
  lemma ReachingSame(m: Memory, n: Memory, roles: Roles, rs: Roles, root: nat, f: nat)
    requires WF(m, roles) && WF(n, rs) && Grown(roles, rs) && root in roles && roles[root] == Role(3, 0) && f in roles
    requires SameWalks(m, n, roles) && SameAbove(m, n, roles, roles[f].level) && OnPath(m, roles, root, f)
    ensures SameRoot(m, n, root) && OnPath(n, rs, root, f)
  {
    forall v: nat | Canonical(v) ensures Walk(n, root, 3, v) == Walk(m, root, 3, v) {
      assert Covers(roles[root], v);
    }
    forall v: nat | Covers(roles[f], v) ensures Leads(n, root, 3, f, roles[f].level, v) {
      CoversCanonical(roles[f], v);
      LeadsAbove(m, n, roles, root, f, roles[f].level, v);
    }
  }

  lemma SmallJoin(m: Memory, m1: Memory, n: Memory, root: nat, addr: nat, all: bool)
    requires SmallElsewhere(m, m1, root, addr, true) && SmallElsewhere(m1, n, root, addr, all)
    ensures SmallElsewhere(m, n, root, addr, all)
  {
    forall v: nat | Canonical(v) && (all || !InBlock(addr, v)) ensures Small(n, root, 3, v) == Small(m, root, 3, v) {
      assert Small(n, root, 3, v) == Small(m1, root, 3, v);
    }
  }

  // An empty entry gets a table.
  method AllocateHere(pt: Tables, f: nat, level: nat, i: nat)
    requires Sound(pt) && f in pt.roles && pt.roles[f].level == level > 0 && i < 512 && pt.mem[f][i].Empty?
    modifies pt
    ensures Sound(pt) && Grown(old(pt.roles), pt.roles) && SameWalks(old(pt.mem), pt.mem, old(pt.roles))
    ensures SameAbove(old(pt.mem), pt.mem, old(pt.roles), level) && pt.mem[f][i].Pte? && !pt.mem[f][i].large
    ensures forall v: nat | Canonical(v) :: Small(pt.mem, pt.root, 3, v) == Small(old(pt.mem), pt.root, 3, v)
  {
    ghost var m, roles := pt.mem, pt.roles;
    var t := pt.AllocateIntermediateLevel(f, i);
    forall g, v: nat | g in roles && Covers(roles[g], v)
      ensures Walk(pt.mem, g, roles[g].level, v) == Walk(m, g, roles[g].level, v)
    {
      AllocWalk(m, pt.mem, roles, f, i, t, g, v);
    }
    forall v: nat | Canonical(v) ensures Small(pt.mem, pt.root, 3, v) == Small(m, pt.root, 3, v) {
      assert Covers(roles[pt.root], v);
      AllocSmall(m, pt.mem, roles, f, i, t, pt.root, v);
    }
  }

  lemma SplitElsewhere(m: Memory, n: Memory, roles: Roles, root: nat, f: nat, addr: nat)
    requires WF(m, roles) && root in roles && roles[root] == Role(3, 0) && f in roles && 1 <= roles[f].level <= 2
    requires Covers(roles[f], addr) && SameSmall(m, n, roles, f, Index(addr, roles[f].level))
    ensures SmallElsewhere(m, n, root, addr, roles[f].level > 1)
  {
    if roles[f].level == 1 {
      BlockIsEntry(roles[f], addr);
    }
    forall v: nat | Canonical(v) && (roles[f].level > 1 || !InBlock(addr, v))
      ensures Small(n, root, 3, v) == Small(m, root, 3, v)
    {
      assert Covers(roles[root], v);
      if roles[f].level == 1 && InEntry(roles[f], Index(addr, 1), v) {
        AlignDownIs(addr, HUGE);
        BlockMember(AlignDown(addr, HUGE), v);
      }
      assert SmallAt(m, n, roles, f, Index(addr, roles[f].level), root, v);
    }
  }

  // One level down, with what is needed in place.
  method Prepare(pt: Tables, f: nat, level: nat, addr: nat, ghost m0: Memory)
    requires Reaching(pt, m0, f, level, addr) && level > 0
    modifies pt
    ensures Sound(pt) && f in pt.roles && pt.roles[f] == old(pt.roles[f]) && SameRoot(m0, pt.mem, pt.root)
    ensures OnPath(pt.mem, pt.roles, pt.root, f) && SmallElsewhere(m0, pt.mem, pt.root, addr, level > 1)
    ensures pt.mem[f][Index(addr, level)].Pte? && !pt.mem[f][Index(addr, level)].large
  {
    var i := Index(addr, level);
    ghost var m, roles := pt.mem, pt.roles;
    assert EntryOk(roles, roles[f], i, m[f][i]);
    if pt.mem[f][i].Empty? {
      AllocateHere(pt, f, level, i);
      ReachingSame(m, pt.mem, roles, pt.roles, pt.root, f);
      SmallJoin(m0, m, pt.mem, pt.root, addr, level > 1);
    } else if pt.mem[f][i].large {
      SplitLargePage(pt, f, i, level);
      ReachingSame(m, pt.mem, roles, pt.roles, pt.root, f);
      SplitElsewhere(m, pt.mem, roles, pt.root, f, addr);
      SmallJoin(m0, m, pt.mem, pt.root, addr, level > 1);
    }
  }

  method DescendInto(pt: Tables, f: nat, level: nat, addr: nat, ghost m0: Memory) returns (t: nat)
    requires Reaching(pt, m0, f, level, addr) && level > 0
    modifies pt
    ensures Reaching(pt, m0, t, level - 1, addr)
  {
    Prepare(pt, f, level, addr, m0);
    var i := Index(addr, level);
    WalkingDown(pt.mem, pt.roles, pt.root, f, i);
    IndexIsEntry(pt.roles[f], addr);
    KidOk(pt.roles[f], i);
    t := pt.mem[f][i].addr;
  }

  // ---- one page ----

  /** Exactly the addresses from a up to z that were not mapped are now, to new frames. */
  ghost predicate Filled(fr: Frames, perm: Perm, huge: bool, m: Memory, n: Memory, root: nat, a: nat, z: nat) {
    forall v: nat | Canonical(v) ::
      Walk(n, root, 3, v) == if a <= v < z && Walk(m, root, 3, v) == None then Fresh(fr, perm, huge, v)
                             else Walk(m, root, 3, v)
  }

  // An entry that ends the walk, seen from the root.
  lemma SeenFromRoot(m: Memory, roles: Roles, root: nat, f: nat, i: nat, v: nat)
    requires WF(m, roles) && f in roles && i < 512 && OnPath(m, roles, root, f) && InEntry(roles[f], i, v)
    requires m[f][i].Empty? || Leaf(m[f][i], roles[f].level)
    ensures Walk(m, root, 3, v) == At(m[f][i], roles[f].level, v)
    ensures Small(m, root, 3, v) <==> m[f][i].Pte? && roles[f].level == 0
  {
    EntryInside(roles[f], i, v);
    IndexIsEntry(roles[f], v);
    assert EntryOk(roles, roles[f], i, m[f][i]);
    LeadsWalk(m, root, 3, f, roles[f].level, v);
    LeadsSmall(m, root, 3, f, roles[f].level, v);
  }

  lemma Written(m: Memory, n: Memory, roles: Roles, root: nat, f: nat, i: nat, e: Pte, v: nat)
    requires WF(m, roles) && root in roles && roles[root] == Role(3, 0) && f in roles && roles[f].level < 3 && i < 512
    requires OnPath(m, roles, root, f) && n == m[f := m[f][i := e]] && (e.Empty? || Leaf(e, roles[f].level))
    requires Canonical(v)
    ensures Walk(n, root, 3, v) == if InEntry(roles[f], i, v) then At(e, roles[f].level, v) else Walk(m, root, 3, v)
    ensures !InEntry(roles[f], i, v) ==> Small(n, root, 3, v) == Small(m, root, 3, v)
  {
    if InEntry(roles[f], i, v) {
      EntryInside(roles[f], i, v);
      LeadsAbove(m, n, roles, root, f, roles[f].level, v);
      LeadsWalk(n, root, 3, f, roles[f].level, v);
      WalkWritten(m, roles, f, i, e, v);
    } else {
      WalkWrite(m, roles, f, i, e, root, v);
      SmallWrite(m, roles, f, i, e, root, v);
    }
  }

  lemma PageInBlock(addr: nat, v: nat)
    requires addr % SMALL == 0 && addr <= v < addr + SMALL
    ensures InBlock(addr, v)
  {
    AlignDownIs(addr, HUGE);
    Nested(AlignDown(addr, HUGE), HUGE, addr, SMALL);
    BlockMember(AlignDown(addr, HUGE), v);
  }

  lemma BlockOf(addr: nat)
    requires addr % HUGE == 0
    ensures AlignDown(addr, HUGE) == addr
  {
  }

  // What is put into the entry of a page that is empty.
  lemma PutPage(fr: Frames, perm: Perm, huge: bool, m0: Memory, m: Memory, n: Memory, roles: Roles, root: nat, f: nat,
                addr: nat)
    requires WF(m, roles) && root in roles && roles[root] == Role(3, 0) && f in roles && OnPath(m, roles, root, f)
    requires roles[f].level == (if huge then 1 else 0) && Covers(roles[f], addr) && Aligned(addr, huge) && FramesOk(fr)
    requires SameRoot(m0, m, root) && SmallElsewhere(m0, m, root, addr, huge)
    requires n == m[f := m[f][Index(addr, roles[f].level) := NewPte(fr, perm, huge, addr)]]
    requires forall v: nat | addr <= v < addr + Size(huge) && Canonical(v) :: Walk(m, root, 3, v) == None
    ensures Filled(fr, perm, huge, m0, n, root, addr, addr + Size(huge))
    ensures SmallElsewhere(m0, n, root, addr, false)
  {
    var r, i := roles[f], Index(addr, roles[f].level);
    EntryStarts(r, addr);
    forall v: nat | Canonical(v)
      ensures Walk(n, root, 3, v) == if addr <= v < addr + Size(huge) then Fresh(fr, perm, huge, v)
                                     else Walk(m, root, 3, v)
      ensures !InBlock(addr, v) ==> Small(n, root, 3, v) == Small(m, root, 3, v)
    {
      Written(m, n, roles, root, f, i, NewPte(fr, perm, huge, addr), v);
      if addr <= v < addr + Size(huge) {
        NewAt(fr, perm, huge, addr, v);
        if huge {
          BlockMember(addr, v);
          BlockMember(addr, addr);
        } else {
          PageInBlock(addr, v);
        }
      }
    }
  }

  // A page that is there stays.
  lemma LeavePage(fr: Frames, perm: Perm, huge: bool, m0: Memory, m: Memory, root: nat, addr: nat)
    requires SameRoot(m0, m, root)
    requires forall v: nat | addr <= v < addr + Size(huge) && Canonical(v) :: Walk(m, root, 3, v).Some?
    ensures Filled(fr, perm, huge, m0, m, root, addr, addr + Size(huge))
  {
  }

  method ReplaceEntry(pt: Tables, f: nat, i: nat, e: Pte, clear: bool)
    requires Sound(pt) && f in pt.roles && i < 512 && Leaf(e, pt.roles[f].level) && EntryOk(pt.roles, pt.roles[f], i, e)
    requires e.large ==> e.addr % Step(pt.roles[f].level) == 0
    modifies pt`mem
    ensures Sound(pt) && pt.mem == old(pt.mem)[f := old(pt.mem)[f][i := e]]
  {
    ghost var m := pt.mem;
    if clear {
      pt.WriteEntry(f, i, Empty);
      assert m[f][i := Empty][i := e] == m[f][i := e];
    }
    pt.WriteEntry(f, i, e);
  }

  // A new frame goes into the entry of a page, which is cleared first if a table was there.
  method PutFrame(pt: Tables, fr: Frames, perm: Perm, huge: bool, f: nat, addr: nat, clear: bool, ghost m0: Memory)
    requires Reaching(pt, m0, f, if huge then 1 else 0, addr) && FramesOk(fr) && Aligned(addr, huge)
    requires forall v: nat | addr <= v < addr + Size(huge) && Canonical(v) :: Walk(pt.mem, pt.root, 3, v) == None
    modifies pt`mem
    ensures Sound(pt) && Filled(fr, perm, huge, m0, pt.mem, pt.root, addr, addr + Size(huge))
    ensures SmallElsewhere(m0, pt.mem, pt.root, addr, false)
  {
    ghost var m := pt.mem;
    ReplaceEntry(pt, f, Index(addr, if huge then 1 else 0), NewPte(fr, perm, huge, addr), clear);
    PutPage(fr, perm, huge, m0, m, pt.mem, pt.roles, pt.root, f, addr);
  }

  // populate::small_page().
  method FillSmall(pt: Tables, fr: Frames, perm: Perm, f: nat, addr: nat, ghost m0: Memory)
    requires Reaching(pt, m0, f, 0, addr) && FramesOk(fr) && addr % SMALL == 0
    modifies pt`mem
    ensures Sound(pt) && Filled(fr, perm, false, m0, pt.mem, pt.root, addr, addr + SMALL)
    ensures SmallElsewhere(m0, pt.mem, pt.root, addr, false)
  {
    var i := Index(addr, 0);
    ghost var m := pt.mem;
    EntryStarts(pt.roles[f], addr);
    forall v: nat | addr <= v < addr + SMALL && Canonical(v)
      ensures Walk(m, pt.root, 3, v) == At(m[f][i], 0, v)
    {
      SeenFromRoot(m, pt.roles, pt.root, f, i, v);
    }
    if pt.mem[f][i].Pte? {
      LeavePage(fr, perm, false, m0, m, pt.root, addr);
    } else {
      PutFrame(pt, fr, perm, false, f, addr, false, m0);
    }
  }

  // Some small page is mapped from a up to z.
  ghost predicate SomeSmall(m: Memory, root: nat, a: nat, z: nat) {
    exists v: nat :: a <= v < z && Canonical(v) && Small(m, root, 3, v)
  }

  lemma SmallBefore(m0: Memory, m: Memory, root: nat, addr: nat, a: nat, z: nat)
    requires SmallElsewhere(m0, m, root, addr, true)
    ensures SomeSmall(m0, root, a, z) <==> SomeSmall(m, root, a, z)
  {
    if v: nat :| a <= v < z && Canonical(v) && Small(m0, root, 3, v) {
      assert Small(m, root, 3, v);
    }
    if v: nat :| a <= v < z && Canonical(v) && Small(m, root, 3, v) {
      assert Small(m0, root, 3, v);
    }
  }

  // The pages of a table, seen from the root.
  lemma TablePage(m: Memory, roles: Roles, root: nat, f: nat, i: nat, v: nat)
    requires WF(m, roles) && f in roles && roles[f].level == 1 && i < 512 && OnPath(m, roles, root, f)
    requires m[f][i].Pte? && !m[f][i].large && InEntry(roles[f], i, v)
    ensures m[f][i].addr in roles && Walk(m, root, 3, v) == At(m[m[f][i].addr][Index(v, 0)], 0, v)
    ensures Small(m, root, 3, v) <==> m[m[f][i].addr][Index(v, 0)].Pte?
  {
    WalkInto(m, roles, f, i, v);
    EntryInside(roles[f], i, v);
    IndexIsEntry(roles[f], v);
    LeadsWalk(m, root, 3, f, 1, v);
    LeadsSmall(m, root, 3, f, 1, v);
  }

  // A page of a table is a small page in its block.
  lemma PageInTable(m: Memory, roles: Roles, root: nat, f: nat, i: nat, j: nat)
    requires WF(m, roles) && f in roles && roles[f].level == 1 && i < 512 && OnPath(m, roles, root, f)
    requires m[f][i].Pte? && !m[f][i].large && m[f][i].addr in roles && j < 512 && m[m[f][i].addr][j].Pte?
    ensures SomeSmall(m, root, EntryBase(roles[f], i), EntryBase(roles[f], i) + HUGE)
  {
    var r := roles[f];
    var v := EntryBase(r, i) + j * Step(0);
    KidOk(r, i);
    IndexIsEntry(Kid(r, i), v);
    TablePage(m, roles, root, f, i, v);
    EntryInside(r, i, v);
    CoversCanonical(r, v);
    assert Small(m, root, 3, v);
  }

  // A table has a page if and only if there is a small page in its block.
  lemma TableHasPage(m: Memory, roles: Roles, root: nat, f: nat, i: nat)
    requires WF(m, roles) && f in roles && roles[f].level == 1 && i < 512 && OnPath(m, roles, root, f)
    requires m[f][i].Pte? && !m[f][i].large && m[f][i].addr in roles
    ensures var b := EntryBase(roles[f], i);
            SomeSmall(m, root, b, b + HUGE) <==> exists j: nat :: j < 512 && m[m[f][i].addr][j].Pte?
  {
    var r, t := roles[f], m[f][i].addr;
    if v: nat :| EntryBase(r, i) <= v < EntryBase(r, i) + HUGE && Canonical(v) && Small(m, root, 3, v) {
      TablePage(m, roles, root, f, i, v);
      assert m[t][Index(v, 0)].Pte?;
    }
    if j: nat :| j < 512 && m[t][j].Pte? {
      PageInTable(m, roles, root, f, i, j);
    }
  }

  // free_intermediate_level(): the assertion on each entry of the table.
  method NonePresent(pt: Tables, t: nat) returns (none: bool)
    requires pt.Valid() && t in pt.roles
    ensures none <==> !exists j: nat :: j < 512 && pt.mem[t][j].Pte?
  {
    none := true;
    for j := 0 to 512
      invariant none <==> forall k: nat | k < j :: pt.mem[t][k].Empty?
    {
      if pt.mem[t][j].Pte? {
        none := false;
      }
    }
  }

  lemma NothingInTable(m: Memory, roles: Roles, root: nat, f: nat, i: nat, v: nat)
    requires WF(m, roles) && f in roles && roles[f].level == 1 && i < 512 && OnPath(m, roles, root, f)
    requires m[f][i].Pte? && !m[f][i].large && m[f][i].addr in roles && InEntry(roles[f], i, v)
    requires !exists j: nat :: j < 512 && m[m[f][i].addr][j].Pte?
    ensures Walk(m, root, 3, v) == None
  {
    TablePage(m, roles, root, f, i, v);
  }

  // An entry that is empty or a large page.
  lemma NoTable(m: Memory, roles: Roles, root: nat, f: nat, addr: nat)
    requires WF(m, roles) && f in roles && roles[f].level == 1 && OnPath(m, roles, root, f) && Covers(roles[f], addr)
    requires addr % HUGE == 0 && var e := m[f][Index(addr, 1)]; e.Empty? || e.large
    ensures !SomeSmall(m, root, addr, addr + HUGE)
    ensures forall v: nat | addr <= v < addr + HUGE && Canonical(v) ::
              Walk(m, root, 3, v) == At(m[f][Index(addr, 1)], 1, v)
  {
    EntryStarts(roles[f], addr);
    forall v: nat | addr <= v < addr + HUGE && Canonical(v)
      ensures Walk(m, root, 3, v) == At(m[f][Index(addr, 1)], 1, v) && !Small(m, root, 3, v)
    {
      SeenFromRoot(m, roles, root, f, Index(addr, 1), v);
    }
  }

  // A table in which nothing is present.
  lemma EmptyTable(m: Memory, roles: Roles, root: nat, f: nat, addr: nat)
    requires WF(m, roles) && f in roles && roles[f].level == 1 && OnPath(m, roles, root, f) && Covers(roles[f], addr)
    requires addr % HUGE == 0 && var e := m[f][Index(addr, 1)]; e.Pte? && !e.large && e.addr in roles
    ensures SomeSmall(m, root, addr, addr + HUGE) <==> exists j: nat :: j < 512 && m[m[f][Index(addr, 1)].addr][j].Pte?
    ensures !SomeSmall(m, root, addr, addr + HUGE) ==>
              forall v: nat | addr <= v < addr + HUGE && Canonical(v) :: Walk(m, root, 3, v) == None
  {
    EntryStarts(roles[f], addr);
    TableHasPage(m, roles, root, f, Index(addr, 1));
    if !SomeSmall(m, root, addr, addr + HUGE) {
      forall v: nat | addr <= v < addr + HUGE && Canonical(v) ensures Walk(m, root, 3, v) == None {
        NothingInTable(m, roles, root, f, Index(addr, 1), v);
      }
    }
  }

  /** populate::huge_page(). A table in its place is freed, which fails an assertion if it has a page. */
  method FillHuge(pt: Tables, fr: Frames, perm: Perm, f: nat, addr: nat, ghost m0: Memory) returns (aborted: bool)
    requires Reaching(pt, m0, f, 1, addr) && FramesOk(fr) && addr % HUGE == 0
    modifies pt`mem
    ensures Sound(pt) && (aborted <==> SomeSmall(m0, pt.root, addr, addr + HUGE))
    ensures !aborted ==> Filled(fr, perm, true, m0, pt.mem, pt.root, addr, addr + HUGE)
    ensures SmallElsewhere(m0, pt.mem, pt.root, addr, false)
  {
    var e := pt.mem[f][Index(addr, 1)];
    ghost var m := pt.mem;
    SmallBefore(m0, m, pt.root, addr, addr, addr + HUGE);
    aborted := false;
    if e.Empty? || e.large {
      NoTable(m, pt.roles, pt.root, f, addr);
      if e.Empty? {
        PutFrame(pt, fr, perm, true, f, addr, false, m0);
      } else {
        LeavePage(fr, perm, true, m0, m, pt.root, addr);
      }
    } else {
      assert EntryOk(pt.roles, pt.roles[f], Index(addr, 1), e);
      EmptyTable(m, pt.roles, pt.root, f, addr);
      var none := NonePresent(pt, e.addr);
      if none {
        PutFrame(pt, fr, perm, true, f, addr, true, m0);
      }
      aborted := !none;
    }
  }

  /** One page: it is mapped to a new frame where nothing is mapped; the assertion fails if and only if
      it is a huge one with a small page in its place. */
  method FillPage(pt: Tables, fr: Frames, perm: Perm, huge: bool, addr: nat) returns (aborted: bool)
    requires Sound(pt) && Canonical(addr) && Aligned(addr, huge) && FramesOk(fr)
    modifies pt
    ensures Sound(pt) && (aborted <==> huge && SomeSmall(old(pt.mem), pt.root, addr, addr + Size(huge)))
    ensures !aborted ==> Filled(fr, perm, huge, old(pt.mem), pt.mem, pt.root, addr, addr + Size(huge))
    ensures SmallElsewhere(old(pt.mem), pt.mem, pt.root, addr, false)
  {
    ghost var m := pt.mem;
    var f, level := pt.root, 3;
    var stop := if huge then 1 else 0;
    ReachingStart(pt, addr);
    while level > stop
      invariant stop <= level <= 3 && Reaching(pt, m, f, level, addr)
    {
      f := DescendInto(pt, f, level, addr, m);
      level := level - 1;
    }
    aborted := false;
    if huge {
      aborted := FillHuge(pt, fr, perm, f, addr, m);
    } else {
      FillSmall(pt, fr, perm, f, addr, m);
    }
  }

  // ---- a range of pages ----

  lemma FillJoin(fr: Frames, perm: Perm, huge: bool, m: Memory, m1: Memory, n: Memory, root: nat,
                 a: nat, b: nat, c: nat)
    requires a <= b <= c && Filled(fr, perm, huge, m, m1, root, a, b) && Filled(fr, perm, huge, m1, n, root, b, c)
    ensures Filled(fr, perm, huge, m, n, root, a, c)
  {
    forall v: nat | Canonical(v)
      ensures Walk(n, root, 3, v) == if a <= v < c && Walk(m, root, 3, v) == None then Fresh(fr, perm, huge, v)
                                     else Walk(m, root, 3, v)
    {
      assert Walk(n, root, 3, v) == if b <= v < c && Walk(m1, root, 3, v) == None then Fresh(fr, perm, huge, v)
                                    else Walk(m1, root, 3, v);
    }
  }

  // In the blocks from x on, small pages are where they were.
  ghost predicate SmallBeyond(m: Memory, n: Memory, root: nat, x: nat) {
    forall v: nat | Canonical(v) && x <= AlignDown(v, HUGE) :: Small(n, root, 3, v) == Small(m, root, 3, v)
  }

  lemma AlignedUp(x: nat)
    requires x % HUGE == 0
    ensures AlignUp(x, HUGE) == x
  {
    AlignDownIs(x + HUGE - 1, HUGE);
    if x < AlignUp(x, HUGE) {
      Gap(HUGE, x, AlignUp(x, HUGE));
    }
  }

  lemma BeyondNext(m: Memory, m1: Memory, n: Memory, root: nat, addr: nat, next: nat)
    requires addr < next && SmallBeyond(m, m1, root, addr) && SmallElsewhere(m1, n, root, addr, false)
    ensures SmallBeyond(m, n, root, next)
  {
    forall v: nat | Canonical(v) && next <= AlignDown(v, HUGE) ensures Small(n, root, 3, v) == Small(m, root, 3, v) {
      assert AlignDown(addr, HUGE) <= addr;
      assert Small(n, root, 3, v) == Small(m1, root, 3, v);
    }
  }

  // The pages from a up to addr are there.
  ghost predicate FilledTo(fr: Frames, perm: Perm, huge: bool, m: Memory, pt: Tables, a: nat, addr: nat)
    reads pt
  {
    && Sound(pt) && Filled(fr, perm, huge, m, pt.mem, pt.root, a, addr)
    && SmallBeyond(m, pt.mem, pt.root, addr)
  }

  // What is found at addr was there before.
  lemma FoundBefore(m: Memory, m1: Memory, root: nat, a: nat, addr: nat, z: nat)
    requires a <= addr <= z && addr % HUGE == 0 && SmallBeyond(m, m1, root, addr)
    ensures SomeSmall(m, root, a, z) <==> SomeSmall(m, root, a, addr) || SomeSmall(m1, root, addr, z)
  {
    forall v: nat | Canonical(v) && addr <= v ensures Small(m1, root, 3, v) == Small(m, root, 3, v) {
      AlignDownIs(v, HUGE);
    }
    if v: nat :| a <= v < z && Canonical(v) && Small(m, root, 3, v) {
      assert v < addr || Small(m1, root, 3, v);
    }
    if v: nat :| a <= v < addr && Canonical(v) && Small(m, root, 3, v) {
      assert v < z;
    }
    if v: nat :| addr <= v < z && Canonical(v) && Small(m1, root, 3, v) {
      assert Small(m, root, 3, v);
    }
  }

  method FillNext(pt: Tables, fr: Frames, perm: Perm, huge: bool, addr: nat,
                  ghost a: nat, ghost z: nat, ghost m: Memory)
    returns (next: nat, aborted: bool)
    requires FramesOk(fr) && Between(huge, a, addr, z) && addr < z && FilledTo(fr, perm, huge, m, pt, a, addr)
    modifies pt
    ensures addr < next && Between(huge, a, next, z) && Sound(pt)
    ensures huge ==> (SomeSmall(m, pt.root, a, next) <==> SomeSmall(m, pt.root, a, addr) || aborted)
    ensures (aborted ==> huge) && (!aborted ==> FilledTo(fr, perm, huge, m, pt, a, next))
  {
    ghost var m1 := pt.mem;
    next := addr + Size(huge);
    NextPage(huge, addr, z, next);
    if huge {
      FoundBefore(m, m1, pt.root, a, addr, next);
    }
    aborted := FillPage(pt, fr, perm, huge, addr);
    BeyondNext(m, m1, pt.mem, pt.root, addr, next);
    if !aborted {
      FillJoin(fr, perm, huge, m, m1, pt.mem, pt.root, a, addr, next);
    }
  }

  lemma SmallWider(m: Memory, root: nat, a: nat, y: nat, z: nat)
    requires y <= z && SomeSmall(m, root, a, y)
    ensures SomeSmall(m, root, a, z)
  {
    var v: nat :| a <= v < y && Canonical(v) && Small(m, root, 3, v);
    assert v < z;
  }

  // The pages of one size from a up to z.
  method FillPages(pt: Tables, fr: Frames, perm: Perm, huge: bool, a: nat, z: nat) returns (aborted: bool)
    requires Sound(pt) && FramesOk(fr) && Between(huge, a, a, z)
    modifies pt
    ensures Sound(pt) && (aborted <==> huge && SomeSmall(old(pt.mem), pt.root, a, z))
    ensures !aborted ==> FilledTo(fr, perm, huge, old(pt.mem), pt, a, z)
  {
    ghost var m := pt.mem;
    var addr := a;
    aborted := false;
    while addr < z
      invariant Between(huge, a, addr, z) && !aborted && FilledTo(fr, perm, huge, m, pt, a, addr)
      invariant huge ==> !SomeSmall(m, pt.root, a, addr)
      decreases z - addr
    {
      addr, aborted := FillNext(pt, fr, perm, huge, addr, a, z, m);
      if aborted {
        SmallWider(m, pt.root, a, addr, z);
        return;
      }
    }
    assert addr == z;
  }

  /** Exactly the addresses of the range that were not mapped are, in a huge frame where one fits. */
  ghost predicate FilledRange(fr: Frames, perm: Perm, m: Memory, n: Memory, root: nat, first: nat, end: nat) {
    forall v: nat | Canonical(v) ::
      Walk(n, root, 3, v) == if first <= v < end && Walk(m, root, 3, v) == None
                             then Fresh(fr, perm, InHuge(first, end, v), v)
                             else Walk(m, root, 3, v)
  }

  lemma PartsJoin(fr: Frames, perm: Perm, m0: Memory, m1: Memory, m2: Memory, n: Memory, root: nat,
                  first: nat, lo: nat, hi: nat, end: nat)
    requires first <= lo <= hi <= end && (lo < hi ==> lo % HUGE == 0 && hi % HUGE == 0)
    requires forall b: nat | b % HUGE == 0 && first <= b && b + HUGE <= end :: lo <= b && b + HUGE <= hi
    requires Filled(fr, perm, false, m0, m1, root, first, lo) && Filled(fr, perm, true, m1, m2, root, lo, hi)
    requires Filled(fr, perm, false, m2, n, root, hi, end)
    ensures FilledRange(fr, perm, m0, n, root, first, end)
  {
    forall v: nat | Canonical(v)
      ensures Walk(n, root, 3, v) == if first <= v < end && Walk(m0, root, 3, v) == None
                                     then Fresh(fr, perm, InHuge(first, end, v), v)
                                     else Walk(m0, root, 3, v)
    {
      HugePart(first, lo, hi, end, v);
      assert Walk(m2, root, 3, v) == if lo <= v < hi && Walk(m1, root, 3, v) == None then Fresh(fr, perm, true, v)
                                     else Walk(m1, root, 3, v);
    }
  }

  // A huge block of the range in which a small page is mapped.
  ghost predicate HeldAt(m: Memory, root: nat, first: nat, end: nat, b: nat) {
    b % HUGE == 0 && first <= b && b + HUGE <= end && SomeSmall(m, root, b, b + HUGE)
  }

  ghost predicate Held(m: Memory, root: nat, first: nat, end: nat) {
    exists b: nat :: HeldAt(m, root, first, end, b)
  }

  lemma HeldInHuge(m: Memory, root: nat, first: nat, end: nat, lo: nat, hi: nat)
    requires first <= lo <= hi <= end && (lo < hi ==> lo % HUGE == 0 && hi % HUGE == 0)
    requires forall b: nat | b % HUGE == 0 && first <= b && b + HUGE <= end :: lo <= b && b + HUGE <= hi
    ensures SomeSmall(m, root, lo, hi) <==> Held(m, root, first, end)
  {
    if SomeSmall(m, root, lo, hi) {
      var v: nat :| lo <= v < hi && Canonical(v) && Small(m, root, 3, v);
      var b := AlignDown(v, HUGE);
      AlignDownIs(v, HUGE);
      Gap(HUGE, b, hi);
      assert HeldAt(m, root, first, end, b);
    }
    if b: nat :| HeldAt(m, root, first, end, b) {
      var v: nat :| b <= v < b + HUGE && Canonical(v) && Small(m, root, 3, v);
      assert lo <= v < hi;
    }
  }

  // Small pages before the huge ones are none of theirs.
  lemma HugeUntouched(m: Memory, m1: Memory, root: nat, lo: nat, hi: nat)
    requires lo <= hi && (lo < hi ==> lo % HUGE == 0) && SmallBeyond(m, m1, root, lo)
    ensures SomeSmall(m, root, lo, hi) <==> SomeSmall(m1, root, lo, hi)
  {
    if lo < hi {
      FoundBefore(m, m1, root, lo, lo, hi);
    }
  }

  method FillParts(pt: Tables, fr: Frames, perm: Perm, first: nat, end: nat, lo: nat, hi: nat) returns (aborted: bool)
    requires Sound(pt) && FramesOk(fr) && first <= lo <= hi <= end && (end <= HALF || TOP - HALF <= first <= end <= TOP)
    requires first % SMALL == 0 && lo % SMALL == 0 && hi % SMALL == 0 && end % SMALL == 0
    requires lo < hi ==> lo % HUGE == 0 && hi % HUGE == 0
    requires forall b: nat | b % HUGE == 0 && first <= b && b + HUGE <= end :: lo <= b && b + HUGE <= hi
    modifies pt
    ensures Sound(pt) && (aborted <==> SomeSmall(old(pt.mem), pt.root, lo, hi))
    ensures !aborted ==> FilledRange(fr, perm, old(pt.mem), pt.mem, pt.root, first, end)
  {
    ghost var m0 := pt.mem;
    var _ := FillPages(pt, fr, perm, false, first, lo);
    ghost var m1 := pt.mem;
    HugeUntouched(m0, m1, pt.root, lo, hi);
    aborted := FillPages(pt, fr, perm, true, lo, hi);
    if aborted {
      return;
    }
    ghost var m2 := pt.mem;
    var _ := FillPages(pt, fr, perm, false, hi, end);
    PartsJoin(fr, perm, m0, m1, m2, pt.mem, pt.root, first, lo, hi, end);
  }

  method PopulateRange(pt: Tables, fr: Frames, perm: Perm, first: nat, end: nat) returns (aborted: bool)
    requires Sound(pt) && FramesOk(fr) && first <= end && (end <= HALF || TOP - HALF <= first <= end <= TOP)
    requires first % SMALL == 0 && end % SMALL == 0
    modifies pt
    ensures Sound(pt) && (aborted <==> Held(old(pt.mem), pt.root, first, end))
    ensures !aborted ==> FilledRange(fr, perm, old(pt.mem), pt.mem, pt.root, first, end)
  {
    var lo, hi := HugeBounds(first, end);
    HeldInHuge(pt.mem, pt.root, first, end, lo, hi);
    aborted := FillParts(pt, fr, perm, first, end, lo, hi);
  }

  /** populate: exactly the addresses of the whole pages of the range that were not mapped are mapped to
      new frames, huge ones wherever they fit. The assertion that a freed table is empty fails if and
      only if a small page is mapped in a huge block of the range. */
  method Populate(pt: Tables, fr: Frames, perm: Perm, start: nat, size: nat) returns (aborted: bool)
    requires Sound(pt) && FramesOk(fr)
    requires To(start, size) <= HALF || TOP - HALF <= From(start) <= To(start, size) <= TOP
    modifies pt
    ensures Sound(pt) && (aborted <==> Held(old(pt.mem), pt.root, From(start), To(start, size)))
    ensures !aborted ==> FilledRange(fr, perm, old(pt.mem), pt.mem, pt.root, From(start), To(start, size))
  {
    RangeAligned(start, size);
    aborted := PopulateRange(pt, fr, perm, From(start), To(start, size));
  }

  /** Where nothing is mapped, the assertion holds. */
  lemma UnmappedIsFree(m: Memory, root: nat, first: nat, end: nat)
    requires forall v: nat | Canonical(v) && first <= v < end :: Walk(m, root, 3, v) == None
    ensures !Held(m, root, first, end)
  {
    forall b: nat ensures !HeldAt(m, root, first, end, b) {
      if HeldAt(m, root, first, end, b) {
        var v: nat :| b <= v < b + HUGE && Canonical(v) && Small(m, root, 3, v);
        SmallIsSome(m, root, 3, v);
      }
    }
  }
}
