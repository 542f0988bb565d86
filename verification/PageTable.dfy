/**
  The four-level page table of core/mmu.cc: tables in memory, walked by index. Every table
  frame has a role, its level and the first address it covers, so that one write is seen
  to matter only to the addresses of the entry written.
 */
module PageTable {
  import opened Arith

  const HALF := 0x8000_0000_0000                  // canonical addresses are below this, or
  const GAP := 0xffff_0000_0000_0000              // this much above an address of 48 bits
  const TOP := 0x1_0000_0000_0000_0000

  datatype Option<T> = None | Some(value: T)

  // The bytes one entry of a table at this level covers; level 4 is the whole table.
  function Step(level: nat): (s: nat)
    requires level <= 4
    ensures s > 0
  {
    if level == 0 then 0x1000 else if level == 1 then 0x20_0000 else if level == 2 then 0x4000_0000
    else if level == 3 then 0x80_0000_0000 else 0x1_0000_0000_0000
  }

  predicate Canonical(v: nat) {
    v < HALF || TOP - HALF <= v < TOP
  }

  // Extends the 47th bit.
  function Extend(v: nat): nat {
    if v % Step(4) < HALF then v % Step(4) else v % Step(4) + GAP
  }

  function Index(v: nat, level: nat): (i: nat)
    requires level < 4
    ensures i < 512
  {
    v / Step(level) % 512
  }

  // ---- entries, tables and what a table frame stands for ----

  datatype Pte = Empty | Pte(addr: nat, present: bool, writable: bool, large: bool, exec: bool)

  type Memory = map<nat, seq<Pte>>

  datatype Role = Role(level: nat, base: nat)

  ghost predicate RoleOk(r: Role) {
    r.level <= 3 && if r.level == 3 then r.base == 0 else Canonical(r.base) && r.base % Step(r.level + 1) == 0
  }

  ghost predicate Covers(r: Role, v: nat)
    requires r.level <= 3
  {
    if r.level == 3 then Canonical(v) else r.base <= v < r.base + Step(r.level + 1)
  }

  // The first address of entry i.
  function EntryBase(r: Role, i: nat): nat
    requires r.level <= 3
  {
    if r.level == 3 && i >= 256 then r.base + i * Step(3) + GAP else r.base + i * Step(r.level)
  }

  predicate InEntry(r: Role, i: nat, v: nat)
    requires r.level <= 3
  {
    EntryBase(r, i) <= v < EntryBase(r, i) + Step(r.level)
  }

  function Kid(r: Role, i: nat): Role
    requires 0 < r.level <= 3
  {
    Role(r.level - 1, EntryBase(r, i))
  }

  // ---- addresses and indices ----

  lemma IndexAt(base: nat, v: nat, level: nat)
    requires level < 3 && base % Step(level + 1) == 0 && base <= v < base + Step(level + 1)
    ensures Index(v, level) == (v - base) / Step(level)
  {
    var s, k, q := Step(level), base / Step(level + 1), (v - base) / Step(level);
    assert base == Step(level + 1) * k && Step(level + 1) == 512 * s;
    DivMod(v, s, (v - base) % s, 512 * k + q);
    assert q < 512;
    DivMod(512 * k + q, 512, q, k);
  }

  lemma IndexTop(v: nat)
    requires Canonical(v)
    ensures Index(v, 3) == if v < HALF then v / Step(3) else (v - GAP) / Step(3)
    ensures v < HALF <==> Index(v, 3) < 256
  {
  }

  /** The entry an index selects is the one whose addresses include the address, and no other does. */
  lemma IndexIsEntry(r: Role, v: nat)
    requires RoleOk(r) && Covers(r, v)
    ensures InEntry(r, Index(v, r.level), v)
    ensures forall i: nat | i < 512 && InEntry(r, i, v) :: i == Index(v, r.level)
  {
    if r.level == 3 {
      IndexTop(v);
    } else {
      IndexAt(r.base, v, r.level);
    }
  }

  lemma EntryInside(r: Role, i: nat, v: nat)
    requires RoleOk(r) && i < 512 && InEntry(r, i, v)
    ensures Covers(r, v)
  {
  }

  lemma EntryAligned(r: Role, i: nat)
    requires RoleOk(r) && i < 512
    ensures EntryBase(r, i) % Step(r.level) == 0
  {
    if r.level < 3 {
      MultipleOf(r.base, Step(r.level + 1), Step(r.level));
      DivMod(i * Step(r.level), Step(r.level), 0, i);
      SumMultiple(r.base, i * Step(r.level), Step(r.level));
    }
  }

  lemma CoversCanonical(r: Role, v: nat)
    requires RoleOk(r) && Covers(r, v)
    ensures Canonical(v)
  {
    if r.level < 3 {
      var s := Step(r.level + 1);
      var k := r.base / s;
      assert r.base == s * k;
    }
  }

  lemma KidOk(r: Role, i: nat)
    requires RoleOk(r) && r.level > 0 && i < 512
    ensures RoleOk(Kid(r, i)) && (forall v :: Covers(Kid(r, i), v) <==> InEntry(r, i, v))
  {
    EntryInside(r, i, EntryBase(r, i));
    EntryAligned(r, i);
    CoversCanonical(r, EntryBase(r, i));
  }

  lemma ExtendCanonical(v: nat)
    requires Canonical(v)
    ensures Extend(v) == v
  {
  }

  // Extending base + i steps, as linear_map_level() does, gives the entry's address.
  lemma ExtendIsEntry(r: Role, i: nat)
    requires RoleOk(r) && i < 512
    ensures Extend(r.base + i * Step(r.level)) == EntryBase(r, i)
  {
    var x := r.base + i * Step(r.level);
    if r.level == 3 {
      assert x == i * Step(3) < Step(4);
    } else {
      EntryInside(r, i, x);
      CoversCanonical(r, x);
      ExtendCanonical(x);
    }
  }

  // ---- well-formed tables and the walk ----

  type Roles = map<nat, Role>

  predicate Leaf(e: Pte, level: nat) {
    e.Pte? && (level == 0 || e.large)
  }

  ghost predicate EntryOk(roles: Roles, r: Role, i: nat, e: Pte)
    requires r.level <= 3
  {
    match e
    case Empty => true
    case Pte(addr, present, _, large, _) =>
      if large then r.level == 1 || r.level == 2
      else r.level == 0 || (present && addr in roles && roles[addr] == Kid(r, i))
  }

  ghost predicate TablesOk(m: Memory, roles: Roles) {
    forall f | f in roles :: RoleOk(roles[f]) && f in m && |m[f]| == 512
  }

  ghost predicate EntriesOk(m: Memory, roles: Roles)
    requires TablesOk(m, roles)
  {
    forall f, i: nat | f in roles && i < 512 :: EntryOk(roles, roles[f], i, m[f][i])
  }

  ghost predicate WF(m: Memory, roles: Roles) {
    TablesOk(m, roles) && EntriesOk(m, roles)
  }

  // Large pages are at multiples of their size.
  ghost predicate LargeAligned(m: Memory, roles: Roles)
    requires TablesOk(m, roles)
  {
    forall f, i: nat | f in roles && i < 512 && m[f][i].Pte? && m[f][i].large ::
      m[f][i].addr % Step(roles[f].level) == 0
  }

  datatype Mapping = Mapping(phys: nat, present: bool, writable: bool, exec: bool)

  // What an entry that ends the walk gives for an address: its bits above the level's mask.
  function At(e: Pte, level: nat, v: nat): Option<Mapping>
    requires level < 4
  {
    match e
    case Empty => None
    case Pte(addr, present, writable, _, exec) =>
      Some(Mapping(addr - addr % Step(level) + v % Step(level), present, writable, exec))
  }

  function Walk(m: Memory, f: nat, level: nat, v: nat): Option<Mapping>
    requires level < 4
    decreases level
  {
    if f !in m || |m[f]| != 512 then None
    else
      var e := m[f][Index(v, level)];
      if e.Empty? || Leaf(e, level) then At(e, level, v) else Walk(m, e.addr, level - 1, v)
  }

  // Tables are only added.
  ghost predicate Grown(roles: Roles, roles': Roles) {
    forall f | f in roles :: f in roles' && roles'[f] == roles[f]
  }

  // ---- what a write can matter to ----

  // Role s is at or below role k.
  ghost predicate Under(s: Role, k: Role)
    requires k.level <= 3
  {
    s.level <= k.level && Covers(k, s.base)
  }

  ghost predicate SameOutside(m: Memory, n: Memory, roles: Roles, k: Role)
    requires k.level <= 3
  {
    forall f | f in roles && !Under(roles[f], k) :: f in m && f in n && n[f] == m[f]
  }

  // A table at or below k covers only addresses of k.
  lemma UnderCovers(s: Role, k: Role, v: nat)
    requires RoleOk(s) && RoleOk(k) && k.level < 3 && Under(s, k) && Covers(s, v)
    ensures Covers(k, v)
  {
    Nested(k.base, Step(k.level + 1), s.base, Step(s.level + 1));
  }

  /** Changes at and below k leave every address outside k as it was, from whatever table the walk starts. */
  lemma {:induction false} WalkOutside(m: Memory, n: Memory, roles: Roles, k: Role, f: nat, v: nat)
    requires WF(m, roles) && RoleOk(k) && k.level < 3 && SameOutside(m, n, roles, k)
    requires f in roles && Covers(roles[f], v) && !Covers(k, v)
    ensures Walk(n, f, roles[f].level, v) == Walk(m, f, roles[f].level, v)
    decreases roles[f].level
  {
    var r := roles[f];
    if Under(r, k) {
      UnderCovers(r, k, v);
    }
    var i := Index(v, r.level);
    var e := m[f][i];
    assert EntryOk(roles, r, i, e);
    if e.Pte? && !Leaf(e, r.level) {
      IndexIsEntry(r, v);
      KidOk(r, i);
      WalkOutside(m, n, roles, k, e.addr, v);
    }
  }

  /** Writing one entry leaves every address outside it as it was. */
  lemma {:induction false} WalkWrite(m: Memory, roles: Roles, g: nat, j: nat, e: Pte, f: nat, v: nat)
    requires WF(m, roles) && g in roles && j < 512 && f in roles && Covers(roles[f], v) && !InEntry(roles[g], j, v)
    ensures Walk(m[g := m[g][j := e]], f, roles[f].level, v) == Walk(m, f, roles[f].level, v)
    decreases roles[f].level
  {
    var r := roles[f];
    var i := Index(v, r.level);
    IndexIsEntry(r, v);
    var was := m[f][i];
    assert EntryOk(roles, r, i, was);
    if was.Pte? && !Leaf(was, r.level) {
      KidOk(r, i);
      WalkWrite(m, roles, g, j, e, was.addr, v);
    }
  }

  // The addresses of an entry that ends the walk go where it says.
  lemma WalkWritten(m: Memory, roles: Roles, f: nat, i: nat, e: Pte, v: nat)
    requires WF(m, roles) && f in roles && i < 512 && InEntry(roles[f], i, v) && (e.Empty? || Leaf(e, roles[f].level))
    ensures Walk(m[f := m[f][i := e]], f, roles[f].level, v) == At(e, roles[f].level, v)
  {
    EntryInside(roles[f], i, v);
    IndexIsEntry(roles[f], v);
  }

  lemma WriteWF(m: Memory, roles: Roles, f: nat, i: nat, e: Pte)
    requires WF(m, roles) && f in roles && i < 512 && EntryOk(roles, roles[f], i, e)
    ensures WF(m[f := m[f][i := e]], roles)
  {
    var n := m[f := m[f][i := e]];
    forall g, j: nat | g in roles && j < 512 ensures EntryOk(roles, roles[g], j, n[g][j]) {
      assert EntryOk(roles, roles[g], j, m[g][j]);
    }
  }

  // A new table, of empty entries, linked nowhere yet.
  lemma AllocWF(m: Memory, roles: Roles, t: nat, r: Role)
    requires WF(m, roles) && t !in m && RoleOk(r)
    ensures WF(m[t := seq(512, _ => Empty)], roles[t := r])
  {
    var n, rs := m[t := seq(512, _ => Empty)], roles[t := r];
    forall g, j: nat | g in rs && j < 512 ensures EntryOk(rs, rs[g], j, n[g][j]) {
      if g != t {
        assert EntryOk(roles, roles[g], j, m[g][j]);
      }
    }
  }

  /** An empty entry that becomes a table of empty entries maps nothing more and nothing less. */
  lemma {:induction false} AllocWalk(m: Memory, n: Memory, roles: Roles, f: nat, i: nat, t: nat, g: nat, v: nat)
    requires WF(m, roles) && t !in m && f in roles && i < 512 && roles[f].level > 0 && m[f][i].Empty?
    requires n == m[t := seq(512, _ => Empty)][f := m[f][i := Pte(t, true, true, false, true)]]
    requires g in roles && Covers(roles[g], v)
    ensures Walk(n, g, roles[g].level, v) == Walk(m, g, roles[g].level, v)
    decreases roles[g].level
  {
    var r := roles[g];
    var j := Index(v, r.level);
    var e := m[g][j];
    assert EntryOk(roles, r, j, e);
    if g == f && j == i {
      assert n[t][Index(v, r.level - 1)].Empty?;
    } else if e.Pte? && !Leaf(e, r.level) {
      IndexIsEntry(r, v);
      KidOk(r, j);
      AllocWalk(m, n, roles, f, i, t, e.addr, v);
    }
  }

  // A present entry that points to a table leads the walk into it.
  lemma WalkInto(m: Memory, roles: Roles, f: nat, i: nat, v: nat)
    requires WF(m, roles) && f in roles && i < 512 && roles[f].level > 0 && InEntry(roles[f], i, v)
    requires m[f][i].Pte? && !m[f][i].large
    ensures m[f][i].addr in roles && roles[m[f][i].addr] == Kid(roles[f], i) && Covers(Kid(roles[f], i), v)
    ensures Walk(m, f, roles[f].level, v) == Walk(m, m[f][i].addr, roles[f].level - 1, v)
  {
    var r := roles[f];
    assert EntryOk(roles, r, i, m[f][i]);
    EntryInside(r, i, v);
    IndexIsEntry(r, v);
    KidOk(r, i);
  }

  // ---- the tables in memory ----

  class Tables {
    const root: nat
    var mem: Memory
    var next: nat                       // page frames from here on are free
    ghost var roles: Roles

    ghost predicate Valid()
      reads this
    {
      && WF(mem, roles) && root in roles && roles[root] == Role(3, 0)
      && forall f | f in mem :: f < next
    }

    // Nothing is mapped.
    constructor ()
      ensures Valid() && forall v: nat | Canonical(v) :: Walk(mem, root, 3, v) == None
      ensures forall f, i: nat | f in roles && i < 512 :: mem[f][i].Empty?
    {
      root, next := 0, 0x1000;
      mem, roles := map[0 := seq(512, _ => Empty)], map[0 := Role(3, 0)];
    }

    method WriteEntry(f: nat, i: nat, e: Pte)
      requires Valid() && f in roles && i < 512 && EntryOk(roles, roles[f], i, e)
      modifies this`mem
      ensures Valid() && mem == old(mem)[f := old(mem)[f][i := e]]
    {
      WriteWF(mem, roles, f, i, e);
      mem := mem[f := mem[f][i := e]];
    }

    /** An empty entry becomes a table of empty entries: no address is mapped differently. */
    method AllocateIntermediateLevel(f: nat, i: nat) returns (t: nat)
      requires Valid() && f in roles && i < 512 && roles[f].level > 0
      modifies this
      ensures Valid() && t !in old(mem) && roles == old(roles)[t := Kid(old(roles[f]), i)]
      ensures mem == old(mem)[t := seq(512, _ => Empty)][f := old(mem)[f][i := Pte(t, true, true, false, true)]]
    {
      t := next;
      KidOk(roles[f], i);
      AllocWF(mem, roles, t, Kid(roles[f], i));
      mem, roles, next := mem[t := seq(512, _ => Empty)], roles[t := Kid(roles[f], i)], next + 0x1000;
      WriteEntry(f, i, Pte(t, true, true, false, true));
    }
  }
}
