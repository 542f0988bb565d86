/**
  The Internet checksum of bsd/machine/in_cksum.c: an unrolled, masked routine that
  reads whole aligned 32-bit words and folds late, against the plain definition of
  RFC 1071, section 1.

  Memory is a total map from addresses to bytes, because the routine reads the whole
  aligned word around a byte.  The machine is little-endian, as the tables of the
  source assume.
 */
module Cksum {
  import opened Arith

  type byte = x: int | 0 <= x < 256
  type Mem = nat -> byte

  const M := 65535
  const TWO64 := 0x1_0000_0000_0000_0000

  // ---- RFC 1071: the reference ----

  // One's-complement addition of two 16-bit numbers: the carry goes around the end.
  function OnesAdd(x: nat, y: nat): nat {
    if x + y > M then x + y - M else x + y
  }

  // The one's-complement sum of the 16-bit words of b, an odd last byte padded with zero.
  function OnesSum(b: seq<byte>): (s: nat)
    ensures s <= M
  {
    if |b| == 0 then 0
    else if |b| == 1 then b[0] as int
    else OnesAdd(Pair(b[0], b[1]), OnesSum(b[2..]))
  }

  function Pair(lo: byte, hi: byte): nat { lo as int + 256 * (hi as int) }

  function Checksum(b: seq<byte>): nat { M - OnesSum(b) }

  // ---- arithmetic modulo 65535 that remembers whether a sum is zero ----

  // x and y fold to the same 16-bit one's-complement number.
  predicate Same(x: nat, y: nat) {
    x % M == y % M && (x == 0 <==> y == 0)
  }

  lemma SameAdd(x: nat, x': nat, y: nat, y': nat)
    requires Same(x, x') && Same(y, y')
    ensures Same(x + y, x' + y')
  {
    assert (x + y) % M == (x % M + y % M) % M;
    assert (x' + y') % M == (x' % M + y' % M) % M;
  }

  lemma SamePlusMultiple(x: nat, k: nat)
    requires x > 0
    ensures Same(x + k * M, x)
  {
    assert (x + k * M) % M == x % M;
  }

  lemma SameScale(x: nat, y: nat)
    requires Same(x, y)
    ensures Same(256 * x, 256 * y)
  {
    ModScale(x);
    ModScale(y);
  }

  lemma ModScale(x: nat)
    ensures (256 * x) % M == (256 * (x % M)) % M
  {
    var r, k := 256 * (x % M), 256 * (x / M);
    assert 256 * x == r + M * k && r == r % M + M * (r / M);
    DivMod(256 * x, M, r % M, r / M + k);
  }

  // Folding a number in half keeps it the same.
  lemma SameFold(x: nat, lo: nat, hi: nat)
    requires x == lo + 65536 * hi
    ensures Same(x, lo + hi)
  {
    if lo + hi > 0 {
      SamePlusMultiple(lo + hi, hi);
    }
  }

  // ---- the same sum, byte by byte ----

  // The weight of a byte in an even or an odd position.
  function Weight(i: nat): nat { if i % 2 == 0 then 1 else 256 }

  // The bytes of b, weighted as if b[0] stood at position p.
  function Weighted(b: seq<byte>, p: nat): nat {
    if |b| == 0 then 0 else b[0] as int * Weight(p) + Weighted(b[1..], p + 1)
  }

  lemma {:induction false} WeightedConcat(a: seq<byte>, b: seq<byte>, p: nat)
    ensures Weighted(a + b, p) == Weighted(a, p) + Weighted(b, p + |a|)
  {
    if |a| == 0 {
      assert a + b == b;
    } else {
      assert (a + b)[1..] == a[1..] + b;
      WeightedConcat(a[1..], b, p + 1);
    }
  }

  lemma {:induction false} WeightedParity(b: seq<byte>, p: nat, q: nat)
    requires p % 2 == q % 2
    ensures Weighted(b, p) == Weighted(b, q)
  {
    if |b| != 0 {
      WeightedParity(b[1..], p + 1, q + 1);
    }
  }

  // Moving all bytes by one position is a multiplication by 256.
  lemma {:induction false} WeightedShift(b: seq<byte>, p: nat)
    ensures Same(256 * Weighted(b, p), Weighted(b, p + 1))
  {
    if |b| != 0 {
      var x := b[0] as int;
      WeightedShift(b[1..], p + 1);
      assert Same(256 * (x * Weight(p)), x * Weight(p + 1)) by {
        if p % 2 == 1 {
          SameFold(65536 * x, 0, x);
        }
      }
      SameAdd(256 * (x * Weight(p)), x * Weight(p + 1), 256 * Weighted(b[1..], p + 1), Weighted(b[1..], p + 2));
    }
  }

  // The reference sum is the weighted sum, folded.
  lemma {:induction false} OnesSumWeighted(b: seq<byte>)
    ensures Same(OnesSum(b), Weighted(b, 0))
    decreases |b|
  {
    if |b| >= 2 {
      var x, y := Pair(b[0], b[1]), OnesSum(b[2..]);
      OnesSumWeighted(b[2..]);
      assert b[1..][1..] == b[2..];
      WeightedParity(b[2..], 2, 0);
      assert Weighted(b, 0) == x + Weighted(b[2..], 0);
      SameAdd(x, x, y, Weighted(b[2..], 0));
      assert Same(OnesAdd(x, y), x + y) by {
        if x + y > M {
          SamePlusMultiple(x + y - M, 1);
        }
      }
    } else if |b| == 1 {
      assert b[1..] == [];
    }
  }

  // ---- memory, words and masks ----

  function Bytes(m: Mem, a: nat, n: nat): (b: seq<byte>)
    ensures |b| == n
  {
    seq(n, i requires 0 <= i < n => m(a + i))
  }

  // The aligned 32-bit word at address a.
  function Word(m: Mem, a: nat): (w: nat)
    ensures w < 0x1_0000_0000
  {
    Pair(m(a), m(a + 1)) + 65536 * Pair(m(a + 2), m(a + 3))
  }

  // k words from address a on.
  function Words(m: Mem, a: nat, k: nat): (w: nat)
    ensures w <= 0xFFFF_FFFF * k
    decreases k
  {
    if k == 0 then 0 else Word(m, a) + Words(m, a + 4, k - 1)
  }

  // w & mask, for a mask each of whose bytes is 0 or 255
  function AndBytes(w: nat, mask: nat): nat {
    Keep(w, mask, 1) + Keep(w, mask, 256) + Keep(w, mask, 65536) + Keep(w, mask, 16777216)
  }

  function Keep(w: nat, mask: nat, unit: nat): nat
    requires unit > 0
  {
    if mask / unit % 256 == 0 then 0 else (w / unit % 256) * unit
  }

  // in_masks: four entries, for 0 to 3 bytes, for each offset
  const IN_MASKS: seq<nat> := [
    0x00000000, 0x000000FF, 0x0000FFFF, 0x00FFFFFF,
    0x00000000, 0x0000FF00, 0x00FFFF00, 0xFFFFFF00,
    0x00000000, 0x00FF0000, 0xFFFF0000, 0xFFFF0000,
    0x00000000, 0xFF000000, 0xFF000000, 0xFF000000]

  function Add64(x: nat, y: nat): nat
    requires x + y < TWO64
  {
    x + y
  }

  // REDUCE32: the four 16-bit quarters of a 64-bit number, added
  function Reduce32(q: nat): (r: nat)
    ensures r <= 4 * M
  {
    q % 65536 + q / 65536 % 65536 + q / 0x1_0000_0000 % 65536 + q / 0x1_0000_0000_0000 % 65536
  }

  // REDUCE16: REDUCE32, the two halves of that added, and ADDCARRY
  function Reduce16(q: nat): (r: nat)
    ensures r <= M
  {
    var l := Reduce32(q);
    var sum := l % 65536 + l / 65536;
    if sum > 65535 then sum - 65535 else sum
  }

  // The quarters of a number, added, are the same as the number.
  lemma SameQuarters(q: nat, a: nat, b: nat, c: nat, d: nat)
    requires q == a + 65536 * (b + 65536 * (c + 65536 * d))
    ensures Same(a + b + c + d, q)
  {
    SameFold(c + 65536 * d, c, d);
    SameFold(b + 65536 * (c + 65536 * d), b, c + 65536 * d);
    SameAdd(b, b, c + 65536 * d, c + d);
    SameFold(q, a, b + 65536 * (c + 65536 * d));
    SameAdd(a, a, b + 65536 * (c + 65536 * d), b + c + d);
  }

  // The four 16-bit digits of a 64-bit word.
  lemma Quarters(q: nat)
    requires q < TWO64
    ensures var b, c, d := q / 65536 % 65536, q / 0x1_0000_0000 % 65536, q / 0x1_0000_0000_0000 % 65536;
            q == q % 65536 + 65536 * (b + 65536 * (c + 65536 * d))
  {
    var q1 := q / 65536;
    var q2 := q / 0x1_0000_0000;
    DivDiv(q, 65536, 65536);
    DivDiv(q, 0x1_0000_0000, 65536);
    assert q1 == 65536 * q2 + q1 % 65536;
    assert q2 / 65536 < 65536;
  }

  lemma Reduce32Same(q: nat)
    requires q < TWO64
    ensures Same(Reduce32(q), q)
  {
    Quarters(q);
    SameQuarters(q, q % 65536, q / 65536 % 65536, q / 0x1_0000_0000 % 65536, q / 0x1_0000_0000_0000 % 65536);
  }

  lemma Reduce16Same(q: nat)
    requires q < TWO64
    ensures Same(Reduce16(q), q)
  {
    var l := Reduce32(q);
    Reduce32Same(q);
    SameFold(l, l % 65536, l / 65536);
    var sum := l % 65536 + l / 65536;
    if sum > 65535 {
      SamePlusMultiple(sum - 65535, 1);
    }
  }

  lemma WordBytes(m: Mem, a: nat)
    ensures Word(m, a) / 1 % 256 == m(a) && Word(m, a) / 256 % 256 == m(a + 1)
    ensures Word(m, a) / 65536 % 256 == m(a + 2) && Word(m, a) / 16777216 % 256 == m(a + 3)
  {
    var w, b0, b1, b2, b3 := Word(m, a), m(a) as int, m(a + 1) as int, m(a + 2) as int, m(a + 3) as int;
    DigitAt(w, 1, 0, b0, b1 + 256 * b2 + 65536 * b3);
    DigitAt(w, 256, b0, b1, b2 + 256 * b3);
    DigitAt(w, 65536, b0 + 256 * b1, b2, b3);
    DigitAt(w, 16777216, b0 + 256 * b1 + 65536 * b2, b3, 0);
  }

  lemma DigitAt(w: nat, unit: nat, below: nat, digit: nat, above: nat)
    requires unit > 0 && below < unit && digit < 256 && w == below + unit * (digit + 256 * above)
    ensures w / unit % 256 == digit
  {
    DivMod(w, unit, below, digit + 256 * above);
    DivMod(digit + 256 * above, 256, digit, above);
  }

  // The place value of byte j of a word.
  function Lane(j: nat): nat
    requires j < 4
  {
    if j == 0 then 1 else if j == 1 then 256 else if j == 2 then 65536 else 16777216
  }

  // The word made of the bytes b from lane j on.
  function Lanes(b: seq<byte>, j: nat): nat
    requires j + |b| <= 4
  {
    if |b| == 0 then 0 else b[0] as int * Lane(j) + Lanes(b[1..], j + 1)
  }

  lemma {:induction false} LanesSame(b: seq<byte>, j: nat, p: nat)
    requires j + |b| <= 4 && p % 4 == j % 4
    ensures Same(Lanes(b, j), Weighted(b, p))
  {
    if |b| != 0 {
      var x := b[0] as int;
      LanesSame(b[1..], j + 1, p + 1);
      assert Same(x * Lane(j), x * Weight(p)) by {
        if j == 2 {
          SameFold(x * 65536, 0, x);
        } else if j == 3 {
          SameFold(x * 16777216, 0, x * 256);
        }
      }
      SameAdd(x * Lane(j), x * Weight(p), Lanes(b[1..], j + 1), Weighted(b[1..], p + 1));
    }
  }

  // mask is 255 in the bytes lo..hi and 0 elsewhere.
  predicate Selects(mask: nat, lo: nat, hi: nat) {
    && mask % 256 == (if lo <= 0 < hi then 255 else 0)
    && mask / 256 % 256 == (if lo <= 1 < hi then 255 else 0)
    && mask / 65536 % 256 == (if lo <= 2 < hi then 255 else 0)
    && mask / 16777216 % 256 == (if lo <= 3 < hi then 255 else 0)
  }

  lemma AndIs(m: Mem, a: nat, mask: nat, lo: nat, hi: nat)
    requires lo <= hi <= 4 && Selects(mask, lo, hi)
    ensures AndBytes(Word(m, a), mask) == Lanes(Bytes(m, a + lo, hi - lo), lo)
  {
    WordBytes(m, a);
    LanesSum(m, a, lo, hi);
  }

  lemma MasksSelect(offset: nat, n: nat)
    requires offset < 4 && n <= 3
    ensures Selects(IN_MASKS[4 * offset + n], offset, if n <= 4 - offset then offset + n else 4)
  {
  }

  lemma LanesSum(m: Mem, a: nat, lo: nat, hi: nat)
    requires lo <= hi <= 4
    ensures Lanes(Bytes(m, a + lo, hi - lo), lo) ==
            (if lo <= 0 < hi then m(a) as int else 0) + (if lo <= 1 < hi then m(a + 1) as int * 256 else 0)
            + (if lo <= 2 < hi then m(a + 2) as int * 65536 else 0)
            + (if lo <= 3 < hi then m(a + 3) as int * 16777216 else 0)
    decreases hi - lo
  {
    if lo < hi {
      assert Bytes(m, a + lo, hi - lo)[1..] == Bytes(m, a + lo + 1, hi - lo - 1);
      LanesSum(m, a, lo + 1, hi);
    }
  }

  lemma BytesSplit(m: Mem, a: nat, p: nat, q: nat)
    ensures Bytes(m, a, p + q) == Bytes(m, a, p) + Bytes(m, a + p, q)
  {
  }

  // s is, folded, the weighted sum of the n bytes from buf on.
  ghost predicate Summed(m: Mem, buf: nat, n: nat, s: nat) {
    Same(s, Weighted(Bytes(m, buf, n), buf))
  }

  lemma AddBytes(m: Mem, buf: nat, n: nat, s: nat, k: nat, w: nat)
    requires Summed(m, buf, n, s) && Summed(m, buf + n, k, w)
    ensures Summed(m, buf, n + k, s + w)
  {
    BytesSplit(m, buf, n, k);
    WeightedConcat(Bytes(m, buf, n), Bytes(m, buf + n, k), buf);
    SameAdd(s, Weighted(Bytes(m, buf, n), buf), w, Weighted(Bytes(m, buf + n, k), buf + n));
  }

  lemma OneWord(m: Mem, a: nat)
    requires a % 4 == 0
    ensures Summed(m, a, 4, Word(m, a))
  {
    LanesSum(m, a, 0, 4);
    LanesSame(Bytes(m, a, 4), 0, a);
  }

  // The bytes lo..hi of a word, in place.
  lemma PartWord(m: Mem, a: nat, lo: nat, hi: nat, w: nat)
    requires a % 4 == 0 && lo <= hi <= 4 && w == Lanes(Bytes(m, a + lo, hi - lo), lo)
    ensures Summed(m, a + lo, hi - lo, w)
  {
    assert (a + lo) % 4 == lo % 4;
    LanesSame(Bytes(m, a + lo, hi - lo), lo, a + lo);
  }

  lemma {:induction false} ManyWords(m: Mem, a: nat, k: nat)
    requires a % 4 == 0
    ensures Summed(m, a, 4 * k, Words(m, a, k))
    decreases k
  {
    if k > 0 {
      OneWord(m, a);
      ManyWords(m, a + 4, k - 1);
      AddBytes(m, a, 4, Word(m, a), 4 * (k - 1), Words(m, a + 4, k - 1));
    }
  }

  lemma AddWords(m: Mem, buf: nat, lw: nat, s: nat, k: nat)
    requires buf <= lw && lw % 4 == 0 && Summed(m, buf, lw - buf, s)
    ensures Summed(m, buf, lw + 4 * k - buf, s + Words(m, lw, k))
  {
    ManyWords(m, lw, k);
    AddBytes(m, buf, lw - buf, s, 4 * k, Words(m, lw, k));
  }

  lemma Words4(m: Mem, a: nat)
    ensures Words(m, a, 4) == Word(m, a) + Word(m, a + 4) + Word(m, a + 8) + Word(m, a + 12)
  {
    assert Words(m, a + 8, 2) == Word(m, a + 8) + Word(m, a + 12) + Words(m, a + 16, 0);
  }

  lemma Words8(m: Mem, a: nat)
    ensures Words(m, a, 8) == Word(m, a) + Word(m, a + 4) + Word(m, a + 8) + Word(m, a + 12)
                              + Word(m, a + 16) + Word(m, a + 20) + Word(m, a + 24) + Word(m, a + 28)
  {
    Words4(m, a + 16);
    assert Words(m, a + 8, 6) == Word(m, a + 8) + Word(m, a + 12) + Words(m, a + 16, 4);
  }

  // ---- in_cksumdata ----

  /** *lw & in_masks[4 * offset + n]: the first n bytes from offset on, as far as the word goes. */
  method MaskedWord(m: Mem, lw: nat, offset: nat, n: nat) returns (w: nat)
    requires lw % 4 == 0 && offset < 4 && n <= 3
    ensures Summed(m, lw + offset, if n <= 4 - offset then n else 4 - offset, w)
    ensures w < 0x1_0000_0000
  {
    var hi := if n <= 4 - offset then offset + n else 4;
    w := AndBytes(Word(m, lw), IN_MASKS[4 * offset + n]);
    MasksSelect(offset, n);
    AndIs(m, lw, IN_MASKS[4 * offset + n], offset, hi);
    LanesSum(m, lw, offset, hi);
    PartWord(m, lw, offset, hi, w);
  }

  method Fold(m: Mem, buf: nat, length: nat, sum: nat) returns (r: nat)
    requires sum < TWO64 && Summed(m, buf, length, sum)
    ensures Summed(m, buf, length, r) && r <= 4 * M
  {
    r := Reduce32(sum);
    Reduce32Same(sum);
  }

  // What the loops of in_cksumdata keep: the bytes before lw are summed, and are few enough.
  ghost predicate Progress(m: Mem, buf: nat, length: nat, lw: nat, rest: int, sum: nat) {
    && buf <= lw && lw % 4 == 0 && lw + rest == buf + length && length < 0x8000_0000
    && Summed(m, buf, lw - buf, sum) && sum <= (lw - buf + 3) * 0x1_0000_0000
  }

  /** The 32-byte loop, which has loaded the next word ahead. */
  method Blocks(m: Mem, buf: nat, length: nat, lw0: nat, len0: nat, sum0: nat) returns (lw: nat, len: nat, sum: nat)
    requires Progress(m, buf, length, lw0, len0, sum0)
    ensures Progress(m, buf, length, lw, len, sum) && len < 32
  {
    lw, sum := lw0, sum0;
    var prefilled := Word(m, lw);
    var n: int := len0 - 32;
    while n >= 4
      invariant Progress(m, buf, length, lw, n + 32, sum)
      invariant prefilled == Word(m, lw) && n >= -32
    {
      var prefilling := Word(m, lw + 32);
      sum := Add8(m, buf, length, lw, n + 32, sum, prefilled);
      lw := lw + 32;
      prefilled := prefilling;
      n := n - 32;
    }
    lw, len, sum := LastBlock(m, buf, length, lw, n, sum, prefilled);
  }

  // A block that is left with less than a word after it.
  method LastBlock(m: Mem, buf: nat, length: nat, lw0: nat, n: int, sum0: nat, prefilled: nat)
    returns (lw: nat, len: nat, sum: nat)
    requires Progress(m, buf, length, lw0, n + 32, sum0) && prefilled == Word(m, lw0) && -32 <= n < 4
    ensures Progress(m, buf, length, lw, len, sum) && len < 32
  {
    lw, sum := lw0, sum0;
    if n >= 0 {
      sum := Add8(m, buf, length, lw, n + 32, sum, prefilled);
      lw := lw + 32;
      len := n;
    } else {
      len := n + 32;
    }
  }

  lemma Add8Ok(m: Mem, buf: nat, length: nat, lw: nat, len: nat, sum: nat)
    requires Progress(m, buf, length, lw, len, sum) && len >= 32
    ensures sum + Words(m, lw, 8) < TWO64 && Progress(m, buf, length, lw + 32, len - 32, sum + Words(m, lw, 8))
  {
    AddWords(m, buf, lw, sum, 8);
  }

  method Add8(m: Mem, buf: nat, length: nat, lw: nat, len: nat, sum: nat, first: nat) returns (r: nat)
    requires Progress(m, buf, length, lw, len, sum) && len >= 32 && first == Word(m, lw)
    ensures Progress(m, buf, length, lw + 32, len - 32, r)
  {
    Words8(m, lw);
    Add8Ok(m, buf, length, lw, len, sum);
    r := Add64(sum, first + Word(m, lw + 4) + Word(m, lw + 8) + Word(m, lw + 12)
                    + Word(m, lw + 16) + Word(m, lw + 20) + Word(m, lw + 24) + Word(m, lw + 28));
  }

  method Add4(m: Mem, buf: nat, length: nat, lw: nat, len: nat, sum: nat) returns (r: nat)
    requires Progress(m, buf, length, lw, len, sum) && len >= 16
    ensures Progress(m, buf, length, lw + 16, len - 16, r)
  {
    r := Add64(sum, Word(m, lw) + Word(m, lw + 4) + Word(m, lw + 8) + Word(m, lw + 12));
    AddWords(m, buf, lw, sum, 4);
    Words4(m, lw);
  }

  /** The 16-byte loop. */
  method Quads(m: Mem, buf: nat, length: nat, lw0: nat, len0: nat, sum0: nat) returns (lw: nat, len: nat, sum: nat)
    requires Progress(m, buf, length, lw0, len0, sum0)
    ensures Progress(m, buf, length, lw, len, sum)
  {
    var n: int := len0 - 16;
    lw, sum := lw0, sum0;
    while n >= 0
      invariant Progress(m, buf, length, lw, n + 16, sum) && n >= -16
    {
      sum := Add4(m, buf, length, lw, n + 16, sum);
      lw := lw + 16;
      n := n - 16;
    }
    len := n + 16;
  }

  method Add1(m: Mem, buf: nat, length: nat, lw: nat, len: nat, sum: nat) returns (r: nat)
    requires Progress(m, buf, length, lw, len, sum) && len >= 4
    ensures Progress(m, buf, length, lw + 4, len - 4, r)
  {
    r := Add64(sum, Word(m, lw));
    OneWord(m, lw);
    AddBytes(m, buf, lw - buf, sum, 4, Word(m, lw));
  }

  /** The 4-byte loop and the masked last word. */
  method Tail(m: Mem, buf: nat, length: nat, lw0: nat, len0: nat, sum0: nat) returns (sum: nat)
    requires Progress(m, buf, length, lw0, len0, sum0)
    ensures Summed(m, buf, length, sum) && sum < TWO64
  {
    var lw: nat, n: int := lw0, len0 - 4;
    sum := sum0;
    while n >= 0
      invariant Progress(m, buf, length, lw, n + 4, sum) && n >= -4
    {
      sum := Add1(m, buf, length, lw, n + 4, sum);
      lw := lw + 4;
      n := n - 4;
    }
    n := n + 4;
    if n > 0 {
      var last := MaskedWord(m, lw, 0, n);
      AddBytes(m, buf, lw - buf, sum, n, last);
      sum := Add64(sum, last);
    }
  }

  lemma HeaderSum(m: Mem, buf: nat)
    requires buf % 4 == 0
    ensures Summed(m, buf, 20, Words(m, buf, 5))
    ensures Words(m, buf, 5) ==
            Word(m, buf) + Word(m, buf + 4) + Word(m, buf + 8) + Word(m, buf + 12) + Word(m, buf + 16)
  {
    ManyWords(m, buf, 5);
    Words4(m, buf + 4);
  }

  /** The aligned 20-byte header. */
  method Header(m: Mem, buf: nat) returns (sum: nat)
    requires buf % 4 == 0
    ensures Summed(m, buf, 20, sum) && sum <= 4 * M
  {
    HeaderSum(m, buf);
    sum := Add64(Word(m, buf) + Word(m, buf + 4) + Word(m, buf + 8) + Word(m, buf + 12), Word(m, buf + 16));
    sum := Fold(m, buf, 20, sum);
  }

  // The bytes before the first word boundary: part of a word, which is all if len is not positive then.
  method Unaligned(m: Mem, buf: nat, length: nat) returns (lw: nat, len: int, sum: nat)
    requires buf % 4 != 0 && length < 0x8000_0000
    ensures len <= 0 ==> Summed(m, buf, length, sum) && sum < TWO64
    ensures len > 0 ==> Progress(m, buf, length, lw, len, sum)
  {
    var offset := buf % 4;
    lw, len := buf - offset, length;
    sum := MaskedWord(m, lw, offset, if len >= 3 then 3 else len);
    lw := lw + 4;
    len := len - (4 - offset);
  }

  /** The bytes of any buffer in any alignment: the result folds to their sum, each byte
      weighted by the parity of its address; no addition overflows 64 bits. */
  method InCksumdata(m: Mem, buf: nat, length: nat) returns (sum: nat)
    requires length < 0x8000_0000
    ensures Summed(m, buf, length, sum) && sum <= 4 * M
  {
    if buf % 4 == 0 && length == 20 {
      sum := Header(m, buf);
      return;
    }
    var lw: nat, len: int := buf, length;
    sum := 0;
    if buf % 4 != 0 {
      lw, len, sum := Unaligned(m, buf, length);
      if len <= 0 {
        sum := Fold(m, buf, length, sum);
        return;
      }
    }
    lw, len, sum := Blocks(m, buf, length, lw, len, sum);
    lw, len, sum := Quads(m, buf, length, lw, len, sum);
    sum := Tail(m, buf, length, lw, len, sum);
    sum := Fold(m, buf, length, sum);
  }

  // ---- in_cksum_skip ----

  datatype Mbuf = End | Mbuf(addr: nat, len: nat, next: Mbuf)

  // All bytes of the chain, in order.
  function Flat(m: Mem, c: Mbuf): seq<byte> {
    if c.End? then [] else Bytes(m, c.addr, c.len) + Flat(m, c.next)
  }

  // n bytes of b after the first skip, as far as they exist.
  function Cut(b: seq<byte>, skip: nat, n: nat): seq<byte> {
    if |b| <= skip then [] else if |b| <= skip + n then b[skip..] else b[skip..skip + n]
  }

  lemma CutPast(a: seq<byte>, b: seq<byte>, skip: nat, n: nat)
    requires |a| <= skip
    ensures Cut(a + b, skip, n) == Cut(b, skip - |a|, n)
  {
  }

  lemma CutInto(a: seq<byte>, b: seq<byte>, skip: nat, n: nat, k: nat)
    requires skip <= |a| && k == if n < |a| - skip then n else |a| - skip
    ensures Cut(a + b, skip, n) == a[skip..skip + k] + Cut(b, 0, n - k)
  {
  }

  // sum is, folded, the sum of the bytes done so far, and small enough.
  ghost predicate Done(done: seq<byte>, sum: nat) {
    Same(sum, Weighted(done, 0)) && sum <= |done| * 0x400_0000 && |done| < 0x8000_0000
  }

  lemma DoneMore(done: seq<byte>, sum: nat, more: seq<byte>, w: nat)
    requires Done(done, sum) && Same(w, Weighted(more, |done|)) && w <= 0x400_0000
    requires |done| + |more| < 0x8000_0000
    ensures Done(done + more, sum + w)
  {
    WeightedConcat(done, more, 0);
    SameAdd(sum, Weighted(done, 0), w, Weighted(more, |done|));
  }

  // in_cksumdata() sums a segment by the parity of its address; where that differs from
  // the parity of its place in the data, the sum is shifted by 8.
  lemma Shifted(b: seq<byte>, addr: nat, clen: nat, s: nat)
    requires Same(s, Weighted(b, addr))
    ensures Same(if clen % 2 != addr % 2 then 256 * s else s, Weighted(b, clen))
  {
    if clen % 2 != addr % 2 {
      WeightedShift(b, addr);
      WeightedParity(b, addr + 1, clen);
      SameScale(s, Weighted(b, addr));
    } else {
      WeightedParity(b, addr, clen);
    }
  }

  method Segment(m: Mem, addr: nat, mlen: nat, sum: nat, clen: nat, ghost done: seq<byte>) returns (r: nat)
    requires Done(done, sum) && |done| == clen && clen + mlen < 0x8000_0000
    ensures Done(done + Bytes(m, addr, mlen), r)
  {
    var s := InCksumdata(m, addr, mlen);
    Shifted(Bytes(m, addr, mlen), addr, clen, s);
    if clen % 2 != addr % 2 {
      s := 256 * s;
    }
    DoneMore(done, sum, Bytes(m, addr, mlen), s);
    r := Add64(sum, s);
  }

  /** The mbufs after the skipped ones. */
  method Rest(m: Mem, chain: Mbuf, rest0: nat, sum0: nat, clen0: nat, ghost done0: seq<byte>) returns (sum: nat)
    requires Done(done0, sum0) && |done0| == clen0 && clen0 + rest0 < 0x8000_0000
    ensures Same(sum, Weighted(done0 + Cut(Flat(m, chain), 0, rest0), 0)) && sum < TWO64
  {
    var c, rest: nat, clen: nat := chain, rest0, clen0;
    sum := sum0;
    ghost var done := done0;
    while !c.End? && rest != 0
      invariant Done(done, sum) && |done| == clen && clen + rest == clen0 + rest0
      invariant done + Cut(Flat(m, c), 0, rest) == done0 + Cut(Flat(m, chain), 0, rest0)
      decreases c
    {
      if c.len == 0 {
        CutPast(Bytes(m, c.addr, 0), Flat(m, c.next), 0, rest);
        c := c.next;
        continue;
      }
      var mlen := if rest < c.len then rest else c.len;
      sum := Segment(m, c.addr, mlen, sum, clen, done);
      CutInto(Bytes(m, c.addr, c.len), Flat(m, c.next), 0, rest, mlen);
      assert Bytes(m, c.addr, c.len)[0..mlen] == Bytes(m, c.addr, mlen);
      done := done + Bytes(m, c.addr, mlen);
      clen := clen + mlen;
      rest := rest - mlen;
      c := c.next;
    }
    assert done == done + Cut(Flat(m, c), 0, rest);
  }

  // The part of an mbuf that is not skipped, as far as it is asked for.
  method SkipInto(m: Mem, c: Mbuf, left: nat, rest0: nat)
    returns (rest: nat, sum: nat, clen: nat, ghost done: seq<byte>)
    requires !c.End? && left < c.len && rest0 < 0x8000_0000
    ensures Done(done, sum) && |done| == clen && clen + rest == rest0
    ensures Cut(Flat(m, c), left, rest0) == done + Cut(Flat(m, c.next), 0, rest)
  {
    var mlen := if rest0 < c.len - left then rest0 else c.len - left;
    CutInto(Bytes(m, c.addr, c.len), Flat(m, c.next), left, rest0, mlen);
    assert Bytes(m, c.addr, c.len)[left..left + mlen] == Bytes(m, c.addr + left, mlen);
    sum := Segment(m, c.addr + left, mlen, 0, 0, []);
    done, clen, rest := Bytes(m, c.addr + left, mlen), mlen, rest0 - mlen;
    assert [] + done == done;
  }

  /** The mbufs to skip, and the part of the next one that is not skipped. */
  method Skip(m: Mem, chain: Mbuf, len: nat, skip: nat)
    returns (c: Mbuf, left: nat, rest: nat, sum: nat, clen: nat, ghost done: seq<byte>)
    requires skip <= len < 0x8000_0000
    ensures Done(done, sum) && |done| == clen && clen + rest == len - skip && (left > 0 ==> c.End? && done == [])
    ensures Cut(Flat(m, chain), skip, len - skip) == done + Cut(Flat(m, c), left, rest)
  {
    c, left, rest := chain, skip, len - skip;
    sum, clen, done := 0, 0, [];
    while left != 0 && !c.End?
      invariant Cut(Flat(m, c), left, rest) == Cut(Flat(m, chain), skip, len - skip)
      invariant rest == len - skip && sum == 0 && clen == 0 && done == []
      decreases c
    {
      if c.len > left {
        rest, sum, clen, done := SkipInto(m, c, left, rest);
        c, left := c.next, 0;
        return;
      }
      CutPast(Bytes(m, c.addr, c.len), Flat(m, c.next), left, rest);
      left := left - c.len;
      c := c.next;
    }
  }

  /** in_cksum_skip(): for every chain, however the data is split over mbufs and however
      they are aligned, the RFC 1071 checksum of the bytes skip..len of the data. */
  method InCksumSkip(m: Mem, chain: Mbuf, len: nat, skip: nat) returns (r: nat)
    requires skip <= len < 0x8000_0000
    ensures r == Checksum(Cut(Flat(m, chain), skip, len - skip))
  {
    var c, left, rest, sum, clen, done := Skip(m, chain, len, skip);
    ghost var data := Cut(Flat(m, chain), skip, len - skip);
    if left == 0 {
      sum := Rest(m, c, rest, sum, clen, done);
    } else {
      assert data == [];
    }
    FoldsToReference(sum, data);
    r := M - Reduce16(sum);
  }

  lemma FoldsToReference(sum: nat, data: seq<byte>)
    requires Same(sum, Weighted(data, 0)) && sum < TWO64
    ensures Reduce16(sum) == OnesSum(data)
  {
    Reduce16Same(sum);
    OnesSumWeighted(data);
  }

  /** in_cksum_hdr(): the checksum of a 20-byte IP header.  At an odd address, where
      in_cksum_skip() would shift and this does not, it is that of the bytes moved by one. */
  method InCksumHdr(m: Mem, ip: nat) returns (r: nat)
    ensures r == Checksum(if ip % 2 == 0 then Bytes(m, ip, 20) else [0] + Bytes(m, ip, 20))
  {
    var sum := InCksumdata(m, ip, 20);
    ghost var data := if ip % 2 == 0 then Bytes(m, ip, 20) else [0] + Bytes(m, ip, 20);
    WeightedParity(Bytes(m, ip, 20), ip, ip % 2);
    assert ip % 2 == 1 ==> data[1..] == Bytes(m, ip, 20);
    FoldsToReference(sum, data);
    r := M - Reduce16(sum);
  }

  // A value and its one's complement add up to the all-ones word.
  lemma ComplementSum(w: nat, s: nat)
    requires Same(w, s) && s <= M
    ensures Same(w + (M - s), M)
  {
    assert (w + (M - s)) % M == (w % M + (M - s) % M) % M;
  }

  lemma {:induction false} WeightedUpdate(b: seq<byte>, i: nat, x: byte, p: nat)
    requires i < |b| && b[i] == 0
    ensures Weighted(b[i := x], p) == Weighted(b, p) + x as int * Weight(p + i)
    decreases i
  {
    if i > 0 {
      assert b[i := x][1..] == b[1..][i - 1 := x];
      WeightedUpdate(b[1..], i - 1, x, p + 1);
    } else {
      assert b[i := x][1..] == b[1..];
    }
  }

  /** RFC 1071's check: data that carries its own checksum in a word that was zero when it
      was computed sums to all ones, so its checksum is 0. */
  lemma CarriedChecksumVerifies(b: seq<byte>, i: nat)
    requires i % 2 == 0 && i + 1 < |b| && b[i] == 0 && b[i + 1] == 0
    ensures Checksum(b[i := Checksum(b) % 256][i + 1 := Checksum(b) / 256]) == 0
  {
    var c := Checksum(b);
    var b1 := b[i := c % 256];
    var b2 := b1[i + 1 := c / 256];
    WeightedUpdate(b, i, c % 256, 0);
    WeightedUpdate(b1, i + 1, c / 256, 0);
    assert Weighted(b2, 0) == Weighted(b, 0) + c;
    OnesSumWeighted(b);
    ComplementSum(Weighted(b, 0), OnesSum(b));
    OnesSumWeighted(b2);
  }
}
