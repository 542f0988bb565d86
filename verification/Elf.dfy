/**
  Symbol lookup in core/elf.cc: through the DT_GNU_HASH table, with its Bloom filter, or
  through the DT_HASH table of chapter 5 of the System V ABI.
 */
module Elf {
  import opened Arith

  datatype Option<T> = None | Some(value: T)

  newtype Byte = x: int | 0 <= x < 256

  const SHN_UNDEF := 0

  datatype Sym = Sym(name: seq<Byte>, shndx: nat)

  // ---- the hash of the GNU table ----

  const W32 := 0x1_0000_0000
  const W64 := 0x1_0000_0000_0000_0000

  /** The hash as it is defined: 33 times the hash so far plus the byte, from 5381, in 32 bits. */
  function GnuHash(s: seq<Byte>): (h: nat)
    ensures h < W32
  {
    if s == [] then 5381 else (33 * GnuHash(s[..|s| - 1]) + s[|s| - 1] as int) % W32
  }

  lemma CutTwice(x: nat)
    ensures x % W64 % W32 == x % W32
  {
    var k := x / W64;
    assert x == W32 * (W32 * k) + x % W64;
    DivMod(W32 * (W32 * k), W32, 0, W32 * k);
    ShiftMod(W32 * (W32 * k), x % W64, W32);
  }

  lemma HashStep(h: nat, g: nat, c: nat)
    requires g == h % W32
    ensures (h * 33 + c) % W64 % W32 == (33 * g + c) % W32
  {
    var q := h / W32;
    assert h * 33 + c == W32 * (33 * q) + (33 * g + c);
    CutTwice(h * 33 + c);
    DivMod(W32 * (33 * q), W32, 0, 33 * q);
    ShiftMod(W32 * (33 * q), 33 * g + c, W32);
  }

  /** dl_new_hash(): the loop runs in 64 bits and cuts at the end; that makes no difference. */
  method DlNewHash(s: seq<Byte>) returns (r: nat)
    ensures r == GnuHash(s)
  {
    var h := 5381;
    for i := 0 to |s|
      invariant 0 <= h && h % W32 == GnuHash(s[..i])
    {
      HashStep(h, GnuHash(s[..i]), s[i] as int);
      assert s[..i + 1][..i] == s[..i];
      h := (h * 33 + s[i] as int) % W64;
    }
    assert s[..|s|] == s;
    r := h % W32;
  }

  // ---- the hash of the System V table ----

  const W28 := 0x1000_0000

  // Exclusive or of numbers of four bits.
  function Xor4(a: nat, b: nat): (r: nat)
    ensures r < 16 && (b == 0 && a < 16 ==> r == a)
  {
    (a + b) % 2 + 2 * ((a / 2 + b / 2) % 2) + 4 * ((a / 4 + b / 4) % 2) + 8 * ((a / 8 + b / 8) % 2)
  }

  // x ^ (n << 4), for n of four bits.
  function XorByte(x: nat, n: nat): nat {
    x - 16 * (x / 16 % 16) + 16 * Xor4(x / 16 % 16, n)
  }

  /** The ABI, in 32 bits, folds the top four bits into lower ones and clears them. */
  function AbiFold(x: nat): int {
    var y := x % W32;
    var n := y / W28;
    XorByte(y, n) - W28 * n
  }

  function AbiHash(s: seq<Byte>): (h: nat)
    ensures h < W28
  {
    if s == [] then 0
    else
      var x := 16 * AbiHash(s[..|s| - 1]) + s[|s| - 1] as int;
      FoldsAgree(x);
      AbiFold(x)
  }

  // elf64_hash() does so in 64 bits, only if one of the four is set, and cuts to 28 bits.
  function Fold64(x: nat): nat {
    var n := x / W28 % 16;
    (if n != 0 then XorByte(x, n) else x) % W28
  }

  // Bits 4 to 7 are among the low 28.
  lemma LowDigit(x: nat)
    ensures x / 16 % 16 == x % W28 / 16 % 16
  {
    var lo, hi := x % W28, x / W28;
    assert x == lo + W28 * hi && W28 == 16 * 16 * 0x10_0000;
    DivMod(x, 16, lo % 16, lo / 16 + 0x100_0000 * hi);
    DivMod(lo / 16 + 0x100_0000 * hi, 16, lo / 16 % 16, lo / 16 / 16 + 0x10_0000 * hi);
  }

  lemma DigitFits(lo: nat, d: nat, k: nat)
    requires lo < W28 && d == lo / 16 % 16 && k < 16
    ensures 0 <= lo - 16 * d + 16 * k < W28
  {
    var q := lo / 16;
    assert lo == 16 * q + lo % 16 && q == 16 * (q / 16) + d;
  }

  // Changing bits 4 to 7 does not carry.
  lemma XorLow(x: nat, n: nat)
    requires n < 16
    ensures 0 <= XorByte(x % W28, n) < W28 && XorByte(x, n) == XorByte(x % W28, n) + W28 * (x / W28)
  {
    LowDigit(x);
    DigitFits(x % W28, x / 16 % 16, Xor4(x / 16 % 16, n));
  }

  lemma FoldsAgree(x: nat)
    ensures Fold64(x) == AbiFold(x) && 0 <= AbiFold(x) < W28
  {
    var y := x % W32;
    var n := y / W28;
    DivDiv(x, W28, 16);
    FoldParts(x);
    XorLow(y, n);
    XorLow(x, n);
    DivMod(XorByte(x, n), W28, XorByte(x % W28, n), x / W28);
  }

  lemma FoldParts(x: nat)
    ensures x % W32 / W28 == x / W28 % 16 && x % W32 % W28 == x % W28
  {
    var lo, hi := x % W28, x / W28;
    assert x == lo + W28 * (hi % 16) + W32 * (hi / 16);
    DivMod(x, W32, lo + W28 * (hi % 16), hi / 16);
    DivMod(lo + W28 * (hi % 16), W28, lo, hi % 16);
  }

  method Elf64Hash(s: seq<Byte>) returns (h: nat)
    ensures h == AbiHash(s)
  {
    h := 0;
    for i := 0 to |s|
      invariant h == AbiHash(s[..i])
    {
      assert s[..i + 1][..i] == s[..i];
      FoldsAgree(16 * h + s[i] as int);
      h := Fold64(16 * h + s[i] as int);
    }
    assert s[..|s|] == s;
  }

  // ---- the GNU table ----

  /** hashtab of DT_GNU_HASH: symbols from symndx on are hashed; bloom holds 64-bit words, and
      chains one word for each hashed symbol. */
  datatype GnuTable = GnuTable(
    nbucket: nat, symndx: nat, shift2: nat, bloom: seq<nat>, buckets: seq<nat>, chains: seq<nat>)

  function Pow2(n: nat): (r: nat)
    ensures r > 0
  {
    if n == 0 then 1 else 2 * Pow2(n - 1)
  }

  predicate Bit(word: nat, i: nat) {
    word / Pow2(i) % 2 == 1
  }

  function Word(t: GnuTable, h: nat): nat
    requires t.bloom != []
  {
    t.bloom[h / 64 % |t.bloom|]
  }

  // The Bloom filter has the two bits of a hash.
  ghost predicate InBloom(t: GnuTable, h: nat)
    requires t.bloom != []
  {
    Bit(Word(t, h), h % 64) && Bit(Word(t, h), h / Pow2(t.shift2) % 64)
  }

  function BucketOf(t: GnuTable, name: seq<Byte>): (b: nat)
    requires t.nbucket > 0
    ensures b < t.nbucket
  {
    GnuHash(name) % t.nbucket
  }

  // The chain word of a hashed symbol.
  function ChainOf(t: GnuTable, i: nat): nat
    requires t.symndx <= i < t.symndx + |t.chains|
  {
    t.chains[i - t.symndx]
  }

  /** The symbols of a bucket are in a row, from buckets[b] to ends[b]; the lowest bit of a chain word
      is set at the end of the row only. An empty bucket is 0. */
  ghost predicate BucketOk(t: GnuTable, syms: seq<Sym>, b: nat, ends: seq<nat>)
    requires t.nbucket > 0 && b < |t.buckets| && b < |ends| && t.symndx + |t.chains| == |syms|
  {
    var s, e := t.buckets[b], ends[b];
    && (s != 0 ==> t.symndx <= s <= e < |syms|)
    && (forall i: nat | t.symndx <= i < |syms| :: BucketOf(t, syms[i].name) == b <==> s != 0 && s <= i <= e)
    && (s != 0 ==> forall i: nat | s <= i <= e :: ChainOf(t, i) % 2 == if i == e then 1 else 0)
  }

  /** A well-formed table: every hashed symbol is in the row of its bucket, has its hash in its chain
      word, and is in the Bloom filter. */
  ghost predicate GnuOk(t: GnuTable, syms: seq<Sym>, ends: seq<nat>) {
    && t.nbucket > 0 && |t.buckets| == t.nbucket && |ends| == t.nbucket && t.bloom != []
    && 0 < t.symndx && t.symndx + |t.chains| == |syms|
    && (forall b: nat | b < t.nbucket :: BucketOk(t, syms, b, ends))
    && (forall i: nat | t.symndx <= i < |syms| :: ChainOf(t, i) / 2 == GnuHash(syms[i].name) / 2)
    && (forall i: nat | t.symndx <= i < |syms| :: InBloom(t, GnuHash(syms[i].name)))
  }

  predicate Named(syms: seq<Sym>, i: nat, name: seq<Byte>) {
    i < |syms| && syms[i].name == name
  }

  /** A filter that lets a hash through when no word above the bit is set in it turns no symbol away. */
  lemma FilterPasses(t: GnuTable, syms: seq<Sym>, ends: seq<nat>, i: nat)
    requires GnuOk(t, syms, ends) && t.symndx <= i < |syms|
    ensures var h := GnuHash(syms[i].name);
            Word(t, h) / Pow2(h % 64) != 0 && Word(t, h) / Pow2(h / Pow2(t.shift2) % 64) != 0
  {
    assert InBloom(t, GnuHash(syms[i].name));
  }

  // No symbol of the name from symndx up to n.
  ghost predicate NoneBefore(t: GnuTable, syms: seq<Sym>, name: seq<Byte>, n: nat) {
    forall i: nat | t.symndx <= i < n :: !Named(syms, i, name)
  }

  lemma RowHasAll(t: GnuTable, syms: seq<Sym>, name: seq<Byte>, ends: seq<nat>, n: nat)
    requires GnuOk(t, syms, ends)
    requires var s, e := t.buckets[BucketOf(t, name)], ends[BucketOf(t, name)];
             s == 0 || (s <= n && forall i: nat | s <= i < n && i <= e :: !Named(syms, i, name))
    ensures var s, e := t.buckets[BucketOf(t, name)], ends[BucketOf(t, name)];
            NoneBefore(t, syms, name, if s == 0 || n > e then |syms| else n)
  {
    var b := BucketOf(t, name);
    assert BucketOk(t, syms, b, ends);
    forall i: nat | t.symndx <= i < |syms| && Named(syms, i, name) ensures BucketOf(t, syms[i].name) == b {
    }
  }

  /** lookup_symbol_gnu(): a hashed symbol of the name, the first there is; none only if there is none. */
  method LookupGnu(t: GnuTable, syms: seq<Sym>, name: seq<Byte>, ghost ends: seq<nat>) returns (r: Option<nat>)
    requires GnuOk(t, syms, ends)
    ensures r.Some? ==> t.symndx <= r.value && Named(syms, r.value, name) && NoneBefore(t, syms, name, r.value)
    ensures r == None <==> NoneBefore(t, syms, name, |syms|)
  {
    var h := DlNewHash(name);
    var word := Word(t, h);
    if word / Pow2(h % 64) == 0 || word / Pow2(h / Pow2(t.shift2) % 64) == 0 {
      forall i: nat | t.symndx <= i < |syms| ensures !Named(syms, i, name) {
        FilterPasses(t, syms, ends, i);
      }
      return None;
    }
    r := WalkBucket(t, syms, name, h, ends);
  }

  method WalkBucket(t: GnuTable, syms: seq<Sym>, name: seq<Byte>, h: nat, ghost ends: seq<nat>) returns (r: Option<nat>)
    requires GnuOk(t, syms, ends) && h == GnuHash(name)
    ensures r.Some? ==> t.symndx <= r.value && Named(syms, r.value, name) && NoneBefore(t, syms, name, r.value)
    ensures r == None ==> NoneBefore(t, syms, name, |syms|)
  {
    var b := h % t.nbucket;
    assert BucketOk(t, syms, b, ends);
    var idx := t.buckets[b];
    if idx == 0 {
      RowHasAll(t, syms, name, ends, 0);
      return None;
    }
    ghost var s, e := idx, ends[b];
    while true
      invariant s <= idx <= e && forall i: nat | s <= i < idx :: !Named(syms, i, name)
      decreases e - idx
    {
      var chain := ChainOf(t, idx);
      if chain / 2 == h / 2 && syms[idx].name == name {
        RowHasAll(t, syms, name, ends, idx);
        return Some(idx);
      }
      assert ChainOf(t, idx) / 2 == GnuHash(syms[idx].name) / 2;
      idx := idx + 1;
      if chain % 2 == 1 {
        break;
      }
    }
    RowHasAll(t, syms, name, ends, idx);
    r := None;
  }

  // ---- the System V table ----

  datatype OldTable = OldTable(buckets: seq<nat>, chain: seq<nat>)

  function OldBucket(t: OldTable, name: seq<Byte>): (b: nat)
    requires t.buckets != []
    ensures b < |t.buckets|
  {
    AbiHash(name) % |t.buckets|
  }

  // Following the chain from ent visits the symbols of row from place k on, and ends.
  ghost predicate Follows(t: OldTable, row: seq<nat>, k: nat, ent: nat) {
    k <= |row| && if k == |row| then ent == 0 else ent == row[k] && 0 < ent < |t.chain|
  }

  ghost predicate RowOk(t: OldTable, row: seq<nat>) {
    forall k: nat | k < |row| :: Follows(t, row, k, row[k]) && Follows(t, row, k + 1, t.chain[row[k]])
  }

  /** A well-formed table: the chain of each bucket visits exactly the symbols whose hash selects it. */
  ghost predicate OldOk(t: OldTable, syms: seq<Sym>, rows: seq<seq<nat>>) {
    && t.buckets != [] && |rows| == |t.buckets| && |t.chain| == |syms|
    && (forall b: nat | b < |rows| :: RowOk(t, rows[b]) && Follows(t, rows[b], 0, t.buckets[b]))
    && (forall i: nat | 0 < i < |syms| :: i in rows[OldBucket(t, syms[i].name)])
  }

  method FirstEntry(t: OldTable, name: seq<Byte>) returns (ent: nat)
    requires t.buckets != []
    ensures ent == t.buckets[OldBucket(t, name)]
  {
    var h := Elf64Hash(name);
    ent := t.buckets[h % |t.buckets|];
  }

  lemma NotInRow(t: OldTable, syms: seq<Sym>, name: seq<Byte>, rows: seq<seq<nat>>)
    requires OldOk(t, syms, rows)
    requires forall j | 0 <= j < |rows[OldBucket(t, name)]| :: !Named(syms, rows[OldBucket(t, name)][j], name)
    ensures forall i: nat | 0 < i < |syms| :: !Named(syms, i, name)
  {
    forall i: nat | 0 < i < |syms| ensures !Named(syms, i, name) {
      assert i in rows[OldBucket(t, syms[i].name)];
    }
  }

  // The first symbol of the name in a row.
  function FirstIn(syms: seq<Sym>, row: seq<nat>, name: seq<Byte>): Option<nat> {
    if row == [] then None
    else if row[0] < |syms| && syms[row[0]].name == name then Some(row[0])
    else FirstIn(syms, row[1..], name)
  }

  lemma {:induction false} FirstInIs(syms: seq<Sym>, row: seq<nat>, name: seq<Byte>, k: nat)
    requires k <= |row| && forall j | 0 <= j < k :: !Named(syms, row[j], name)
    ensures k == |row| ==> FirstIn(syms, row, name) == None
    ensures k < |row| && Named(syms, row[k], name) ==> FirstIn(syms, row, name) == Some(row[k])
  {
    if k > 0 {
      assert !Named(syms, row[0], name);
      FirstInIs(syms, row[1..], name, k - 1);
    }
  }

  method WalkRow(t: OldTable, syms: seq<Sym>, name: seq<Byte>, start: nat, ghost row: seq<nat>) returns (r: Option<nat>)
    requires RowOk(t, row) && Follows(t, row, 0, start) && |t.chain| == |syms|
    ensures r == FirstIn(syms, row, name)
    ensures r.Some? ==> r.value > 0 && Named(syms, r.value, name)
    ensures r == None ==> forall j | 0 <= j < |row| :: !Named(syms, row[j], name)
  {
    var ent := start;
    ghost var k: nat := 0;
    while ent != 0
      invariant Follows(t, row, k, ent) && forall j | 0 <= j < k :: !Named(syms, row[j], name)
      decreases |row| - k
    {
      if syms[ent].name == name {
        FirstInIs(syms, row, name, k);
        return Some(ent);
      }
      assert Follows(t, row, k + 1, t.chain[row[k]]);
      ent := t.chain[ent];
      k := k + 1;
    }
    FirstInIs(syms, row, name, k);
    r := None;
  }

  /** lookup_symbol_old(): the first symbol of the name in its row; none only if there is none. */
  method LookupOld(t: OldTable, syms: seq<Sym>, name: seq<Byte>, ghost rows: seq<seq<nat>>) returns (r: Option<nat>)
    requires OldOk(t, syms, rows)
    ensures r == FirstIn(syms, rows[OldBucket(t, name)], name)
    ensures (r.Some? ==> r.value > 0 && Named(syms, r.value, name))
    ensures r == None <==> forall i: nat | 0 < i < |syms| :: !Named(syms, i, name)
  {
    var ent := FirstEntry(t, name);
    r := WalkRow(t, syms, name, ent, rows[OldBucket(t, name)]);
    if r == None {
      NotInRow(t, syms, name, rows);
    }
  }

  // ---- lookup_symbol() ----

  // A symbol that is only referred to is not found.
  function Defined(syms: seq<Sym>, r: Option<nat>): Option<nat> {
    if r.Some? && r.value < |syms| && syms[r.value].shndx == SHN_UNDEF then None else r
  }

  // Symbols of the name are all defined, or all only referred to.
  ghost predicate Consistent(syms: seq<Sym>, name: seq<Byte>) {
    forall i: nat, j: nat | 0 < i < |syms| && 0 < j < |syms| && Named(syms, i, name) && Named(syms, j, name) ::
      syms[i].shndx == SHN_UNDEF <==> syms[j].shndx == SHN_UNDEF
  }

  ghost predicate OneOfName(syms: seq<Sym>, name: seq<Byte>) {
    forall i: nat, j: nat | 0 < i < |syms| && 0 < j < |syms| && Named(syms, i, name) && Named(syms, j, name) :: i == j
  }

  // The first symbols are not hashed because they are not defined.
  ghost predicate UndefFirst(t: GnuTable, syms: seq<Sym>) {
    0 < t.symndx && forall i: nat | 0 < i < t.symndx && i < |syms| :: syms[i].shndx == SHN_UNDEF
  }

  /** On the same symbols both tables give an answer, or none, and the same one if there is one symbol
      of the name. */
  lemma LookupsAgree(t: GnuTable, syms: seq<Sym>, name: seq<Byte>, g: Option<nat>, o: Option<nat>)
    requires Consistent(syms, name) && UndefFirst(t, syms)
    requires g.Some? ==> t.symndx <= g.value && Named(syms, g.value, name)
    requires g == None <==> NoneBefore(t, syms, name, |syms|)
    requires o.Some? ==> o.value > 0 && Named(syms, o.value, name)
    requires o == None <==> forall i: nat | 0 < i < |syms| :: !Named(syms, i, name)
    ensures Defined(syms, g).Some? <==> Defined(syms, o).Some?
    ensures OneOfName(syms, name) ==> Defined(syms, g) == Defined(syms, o)
  {
    if g.Some? {
      assert Named(syms, g.value, name);
    }
    if o.Some? && o.value >= t.symndx {
      assert Named(syms, o.value, name);
    }
  }

  datatype Tables = Gnu(g: GnuTable) | Old(o: OldTable)

  ghost predicate TablesOk(t: Tables, syms: seq<Sym>, ends: seq<nat>, rows: seq<seq<nat>>) {
    match t
    case Gnu(g) => GnuOk(g, syms, ends)
    case Old(o) => OldOk(o, syms, rows)
  }

  // The symbol the table gives: the first of those hashed, or the first of the row.
  ghost predicate Gives(t: Tables, syms: seq<Sym>, name: seq<Byte>, rows: seq<seq<nat>>, f: Option<nat>) {
    match t
    case Gnu(g) =>
      && (f.Some? ==> g.symndx <= f.value && Named(syms, f.value, name) && NoneBefore(g, syms, name, f.value))
      && (f == None <==> NoneBefore(g, syms, name, |syms|))
    case Old(o) =>
      && o.buckets != [] && OldBucket(o, name) < |rows| && f == FirstIn(syms, rows[OldBucket(o, name)], name)
      && (f.Some? ==> f.value > 0 && Named(syms, f.value, name))
      && (f == None <==> forall i: nat | 0 < i < |syms| :: !Named(syms, i, name))
  }

  method LookupIn(t: Tables, syms: seq<Sym>, name: seq<Byte>, ghost ends: seq<nat>, ghost rows: seq<seq<nat>>)
    returns (f: Option<nat>)
    requires TablesOk(t, syms, ends, rows)
    ensures Gives(t, syms, name, rows, f) && (f.Some? ==> f.value < |syms|)
  {
    match t {
      case Gnu(g) => { f := LookupGnu(g, syms, name, ends); }
      case Old(o) => { f := LookupOld(o, syms, name, rows); }
    }
  }

  lemma GivesDefined(t: Tables, syms: seq<Sym>, name: seq<Byte>, rows: seq<seq<nat>>, f: Option<nat>)
    requires Gives(t, syms, name, rows, f) && Consistent(syms, name) && (t.Gnu? ==> UndefFirst(t.g, syms))
    ensures Defined(syms, f) == None <==>
            forall i: nat | 0 < i < |syms| && Named(syms, i, name) :: syms[i].shndx == SHN_UNDEF
  {
    if f.Some? {
      assert Named(syms, f.value, name);
    }
  }

  /** lookup_symbol(): if the object is visible, the symbol its table gives, unless that is only referred
      to; so a defined symbol of the name, and one if there is any, as long as those of the name are all
      defined or all not. */
  method LookupSymbol(visible: bool, t: Tables, syms: seq<Sym>, name: seq<Byte>,
                      ghost ends: seq<nat>, ghost rows: seq<seq<nat>>)
    returns (r: Option<nat>)
    requires TablesOk(t, syms, ends, rows)
    ensures visible ==> exists f :: Gives(t, syms, name, rows, f) && r == Defined(syms, f)
    ensures !visible ==> r == None
    ensures r.Some? ==> Named(syms, r.value, name) && syms[r.value].shndx != SHN_UNDEF
    ensures visible && Consistent(syms, name) && (t.Gnu? ==> UndefFirst(t.g, syms)) ==>
              (r == None <==> forall i: nat | 0 < i < |syms| && Named(syms, i, name) :: syms[i].shndx == SHN_UNDEF)
  {
    if !visible {
      return None;
    }
    var f := LookupIn(t, syms, name, ends, rows);
    if Consistent(syms, name) && (t.Gnu? ==> UndefFirst(t.g, syms)) {
      GivesDefined(t, syms, name, rows, f);
    }
    r := f;
    if f.Some? && syms[f.value].shndx == SHN_UNDEF {
      r := None;
    }
  }

  /** A well-formed table for which a symbol that is only referred to hides a defined one of the name. */
  method UndefinedHides(name: seq<Byte>) returns (t: OldTable, syms: seq<Sym>, r: Option<nat>)
    requires name != []
    ensures OldOk(t, syms, [[1, 2]]) && |syms| == 3 && Named(syms, 2, name) && syms[2].shndx != SHN_UNDEF
    ensures r == None
  {
    t := OldTable([1], [0, 2, 0]);
    syms := [Sym([], SHN_UNDEF), Sym(name, SHN_UNDEF), Sym(name, SHN_UNDEF + 1)];
    ghost var rows := [[1, 2]];
    assert RowOk(t, rows[0]) && 1 in rows[0] && 2 in rows[0];
    r := LookupSymbol(true, Old(t), syms, name, [], rows);
    assert FirstIn(syms, rows[0], name) == Some(1);
  }
}
