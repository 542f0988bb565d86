/** Division facts shared by the models of address arithmetic. */
module Arith {

  lemma MulMono(u: nat, a: int, b: int)
    requires a <= b
    ensures u * a <= u * b
  {
    assert u * (b - a) >= 0;
    assert u * (b - a) == u * b - u * a;
  }

  /** Division with remainder is unique. */
  lemma DivMod(x: int, u: nat, lo: int, hi: int)
    requires 0 <= lo < u && x == lo + u * hi
    ensures x / u == hi && x % u == lo
  {
    var q, r := x / u, x % u;
    assert x == u * q + r && 0 <= r < u;
    if q < hi {
      MulMono(u, q + 1, hi);
    } else if q > hi {
      MulMono(u, hi + 1, q);
    }
  }

  // Multiples of s have room for s between them.
  lemma MulGap(s: nat, a: int, b: int)
    requires s * a < s * b
    ensures s * a + s <= s * b
  {
    if a >= b {
      MulMono(s, b, a);
    } else {
      MulMono(s, a + 1, b);
      assert s * (a + 1) == s * a + s;
    }
  }

  lemma MultipleOf(x: nat, s: nat, d: nat)
    requires d > 0 && s > 0 && x % s == 0 && s % d == 0
    ensures x % d == 0
  {
    var k, m := x / s, s / d;
    assert x == s * k && s == d * m;
    assert x == d * (m * k);
    DivMod(x, d, 0, m * k);
  }

  lemma Gap(s: nat, x: nat, y: nat)
    requires s > 0 && x % s == 0 && y % s == 0 && x < y
    ensures x + s <= y
  {
    var a, b := x / s, y / s;
    assert x == s * a && y == s * b;
    MulGap(s, a, b);
  }

  lemma SumMultiple(x: nat, y: nat, s: nat)
    requires s > 0 && x % s == 0 && y % s == 0
    ensures (x + y) % s == 0
  {
    var a, b := x / s, y / s;
    assert x == s * a && y == s * b;
    assert x + y == s * (a + b);
    DivMod(x + y, s, 0, a + b);
  }

  // An aligned block that starts inside a larger aligned block ends inside it.
  lemma Nested(b: nat, big: nat, c: nat, small: nat)
    requires small > 0 && big > 0 && big % small == 0 && b % big == 0 && c % small == 0 && b <= c < b + big
    ensures c + small <= b + big
  {
    MultipleOf(b, big, small);
    SumMultiple(b, big, small);
    Gap(small, c, b + big);
  }

  lemma DivDiv(q: nat, a: nat, b: nat)
    requires a > 0 && b > 0
    ensures a * b > 0 && q / (a * b) == q / a / b
  {
    var q1, r1 := q / a, q % a;
    var q2, r2 := q1 / b, q1 % b;
    assert q == r1 + a * q1 && q1 == r2 + b * q2;
    assert a * (b * q2) == a * b * q2;
    assert a * q1 == a * r2 + a * (b * q2);
    MulMono(a, r2 + 1, b);
    DivMod(q, a * b, r1 + a * r2, q2);
  }

  // A multiple of s shifts nothing modulo s.
  lemma ShiftMod(b: int, d: int, s: nat)
    requires s > 0 && b % s == 0
    ensures (b + d) % s == d % s
  {
    var k, q, r := b / s, d / s, d % s;
    assert b == s * k && d == r + s * q;
    assert b + d == r + s * (k + q);
    DivMod(b + d, s, r, k + q);
  }
}
