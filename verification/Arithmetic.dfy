/** Remainders by a variable divisor. */
module Arithmetic {

  lemma MulMonotone(a: int, b: int, s: nat)
    requires a <= b
    ensures a * s <= b * s
  {
    assert (b - a) * s >= 0;
  }

  lemma ModOf(q: int, s: nat, r: nat)
    requires r < s
    ensures (q * s + r) % s == r
  {
    var x := q * s + r;
    var d := x / s;
    assert x == d * s + x % s;
    if d > q {
      MulMonotone(q + 1, d, s);
    } else if d < q {
      MulMonotone(d + 1, q, s);
    }
  }

  lemma ModNext(n: nat, s: nat)
    requires s > 0
    ensures (n % s + 1) % s == (n + 1) % s
  {
    var q, r := n / s, n % s;
    assert n == q * s + r;
    if r + 1 < s {
      assert n + 1 == q * s + (r + 1);
      ModOf(q, s, r + 1);
      ModOf(0, s, r + 1);
    } else {
      assert (q + 1) * s == q * s + s;
      ModOf(q + 1, s, 0);
      ModOf(1, s, 0);
    }
  }

  lemma ModApart(a: nat, b: nat, s: nat)
    requires a < b < a + s
    ensures a % s != b % s
  {
    var q, r, d := a / s, a % s, b - a;
    assert a == q * s + r;
    if r + d < s {
      assert b == q * s + (r + d);
      ModOf(q, s, r + d);
    } else {
      assert (q + 1) * s == q * s + s;
      assert b == (q + 1) * s + (r + d - s);
      ModOf(q + 1, s, r + d - s);
    }
  }

  lemma ModBack(n: nat, s: nat)
    requires s > 0 && n >= s
    ensures (n - s) % s == n % s
  {
    var q, r := n / s, n % s;
    assert n == q * s + r;
    assert (q - 1) * s == q * s - s;
    if q < 1 {
      MulMonotone(q, 0, s);
    }
    ModOf(q - 1, s, r);
  }

  /** Every slot is the slot of some transfer in the window. */
  lemma WindowCovers(n: nat, s: nat, j: nat) returns (i: nat)
    requires j < s <= n
    ensures n - s <= i < n && i % s == j
  {
    var d := n - 1 - j;
    i := n - 1 - d % s;
    assert i == (d / s) * s + j;
    ModOf(d / s, s, j);
  }

  lemma ModZero(q: nat, d: nat)
    requires d > 0
    ensures (q * d) % d == 0
  {
    ModOf(q, d, 0);
  }

  /** A multiple of a multiple is a multiple, and stays one less one step. */
  lemma MultipleOfMultiple(t: nat, h: nat, d: nat)
    requires d > 0 && 0 < h <= t && h % d == 0 && t % h == 0
    ensures t % d == 0 && (t - h) % d == 0
  {
    var q, r := t / h, h / d;
    assert t == q * h && h == r * d;
    assert q * (r * d) == (q * r) * d;
    MulMonotone(1, q, r);
    assert (q * r - r) * d == (q * r) * d - r * d;
    ModZero(q * r, d);
    ModZero(q * r - r, d);
  }

  lemma MultipleIsLarge(t: nat, h: nat)
    requires h > 0 && t % h == 0 && t > 0
    ensures t >= h
  {
  }

  lemma Regroup(q: int, b: int, r: int, a: int)
    ensures (q * b + r) * a == q * (a * b) + r * a
  {
  }

  lemma LowPart(r: nat, b: nat, s: nat, a: nat)
    requires r < b && s < a
    ensures r * a + s < a * b
  {
    MulMonotone(r + 1, b, a);
    assert (r + 1) * a == r * a + a;
  }

  lemma TwoDigits(q: nat, b: nat, r: nat, a: nat, s: nat)
    requires r < b && s < a
    ensures a * b > 0 && ((q * b + r) * a + s) / (a * b) == q
  {
    Regroup(q, b, r, a);
    LowPart(r, b, s, a);
    QuotientOf(q, a * b, r * a + s);
  }

  lemma Divides(n: nat, a: nat)
    requires a > 0
    ensures n == (n / a) * a + n % a && n % a < a
  {
  }

  /** Dividing twice is dividing by the product. */
  lemma DivDiv(n: nat, a: nat, b: nat)
    requires a > 0 && b > 0
    ensures a * b > 0 && n / (a * b) == (n / a) / b
  {
    var m := n / a;
    Divides(n, a);
    Divides(m, b);
    TwoDigits(m / b, b, m % b, a, n % a);
  }

  lemma QuotientOf(q: nat, d: nat, r: nat)
    requires r < d
    ensures (q * d + r) / d == q
  {
    var n := q * d + r;
    assert n == (n / d) * d + n % d;
    if n / d < q {
      MulMonotone(n / d + 1, q, d);
    } else if n / d > q {
      MulMonotone(q + 1, n / d, d);
    }
  }
}
