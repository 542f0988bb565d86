/** Rings indexed by free-running counters that wrap around. */
module Wrap {
  import opened Arith

  // buf holds q, its first element in the slot of counter value `first`.
  ghost predicate Holds<T>(buf: seq<T>, first: nat, q: seq<T>) {
    |q| <= |buf| && forall j | 0 <= j < |q| :: buf[(first + j) % |buf|] == q[j]
  }

  lemma ModDiff(a: nat, b: nat, n: nat)
    requires a < b < a + n
    ensures a % n != b % n
  {
    var q, r := a / n, a % n;
    assert a == r + n * q;
    if a % n == b % n {
      assert b == r + n * (b / n);
      if b / n <= q {
        MulMono(n, b / n, q);
        assert false;
      } else {
        MulMono(n, q + 1, b / n);
        assert false;
      }
    }
  }

  lemma HoldsPush<T>(buf: seq<T>, first: nat, q: seq<T>, x: T)
    requires Holds(buf, first, q) && |q| < |buf|
    ensures Holds(buf[(first + |q|) % |buf| := x], first, q + [x])
  {
    var b, p := buf[(first + |q|) % |buf| := x], q + [x];
    forall j | 0 <= j < |p| ensures b[(first + j) % |buf|] == p[j] {
      if j < |q| {
        ModDiff(first + j, first + |q|, |buf|);
        assert buf[(first + j) % |buf|] == q[j];
      }
    }
  }

  lemma HoldsPop<T>(buf: seq<T>, first: nat, q: seq<T>)
    requires Holds(buf, first, q) && q != []
    ensures Holds(buf, first + 1, q[1..]) && buf[first % |buf|] == q[0]
  {
    forall j | 0 <= j < |q| - 1 ensures buf[(first + 1 + j) % |buf|] == q[1..][j] {
      assert buf[(first + (j + 1)) % |buf|] == q[j + 1];
    }
    assert buf[(first + 0) % |buf|] == q[0];
  }

  // A counter that wraps indexes a ring whose size divides its range as the full count would.
  lemma WrapIndex(x: nat, num: nat, wrap: nat)
    requires num > 0 && wrap > 0 && wrap % num == 0
    ensures x % wrap % num == x % num
  {
    var k, q, r := wrap / num, x / wrap, x % wrap;
    assert wrap == num * k;
    var lo, hi := r % num, k * q + r / num;
    assert x == lo + num * hi by {
      assert x == r + wrap * q && r == lo + num * (r / num);
      assert (num * k) * q == num * (k * q);
      assert num * hi == num * (k * q) + num * (r / num);
    }
    DivMod(x, num, lo, hi);
  }

  // A ring written at such a counter, and read at one.
  lemma PushAt<T>(buf: seq<T>, count: nat, q: seq<T>, idx: nat, x: T, wrap: nat)
    requires |q| < |buf| && |q| <= count && wrap > 0 && wrap % |buf| == 0 && idx == count % wrap
    requires Holds(buf, count - |q|, q)
    ensures Holds(buf[idx % |buf| := x], count + 1 - |q + [x]|, q + [x])
  {
    WrapIndex(count, |buf|, wrap);
    HoldsPush(buf, count - |q|, q, x);
  }

  lemma PopAt<T>(buf: seq<T>, first: nat, q: seq<T>, idx: nat, wrap: nat)
    requires q != [] && |buf| > 0 && wrap > 0 && wrap % |buf| == 0 && idx == first % wrap && Holds(buf, first, q)
    ensures Holds(buf, first + 1, q[1..]) && buf[idx % |buf|] == q[0]
  {
    WrapIndex(first, |buf|, wrap);
    HoldsPop(buf, first, q);
  }
}
