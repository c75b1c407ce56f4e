/** Steps of real arithmetic that involve products and quotients. */
module Reals {
  lemma Product(a: real, b: real, c: real)
    ensures a * b * c == a * (b * c)
  {
  }

  lemma Distribute(p: real, q: real, b: real)
    ensures (p + q) * b == p * b + q * b
  {
  }

  lemma Cancel(p: real, q: real, b: real)
    requires p * b == q * b && b > 0.0
    ensures p == q
  {
    assert (p - q) * b == 0.0;
  }

  lemma Scale(a: real, b: real, r: real)
    requires a <= b && r >= 0.0
    ensures a * r <= b * r
  {
    assert (b - a) * r >= 0.0;
  }

  lemma StrictScale(a: real, b: real, c: real)
    requires a < b && c > 0.0
    ensures c * a < c * b
  {
    assert c * (b - a) > 0.0;
  }

  lemma QuotientNonNegative(x: real, b: real)
    requires x >= 0.0 && b > 0.0
    ensures x / b >= 0.0
  {
  }

  lemma QuotientBelow(x: real, r: real, b: real)
    requires r > 0.0 && x < b * r
    ensures x / r < b
  {
    var q := x / r;
    assert q * r == x;
    if q >= b {
      Scale(b, q, r);
    }
  }

  lemma Fraction(a: real, b: real)
    requires 0.0 <= a <= b && b > 0.0
    ensures 0.0 <= a / b <= 1.0
  {
    QuotientNonNegative(a, b);
    QuotientNonNegative(b - a, b);
    var p, q := a / b, (b - a) / b;
    assert p * b == a && q * b == b - a;
    Distribute(p, q, b);
    Cancel(p + q, 1.0, b);
  }

  lemma SharesOfOne(a: real, b: real, n: real)
    requires n > 0.0 && a + b == n
    ensures a / n + b / n == 1.0
  {
    var x, y := a / n, b / n;
    assert x * n == a && y * n == b;
    Distribute(x, y, n);
    Distribute(x + y, -1.0, n);
    assert (x + y - 1.0) * n == 0.0;
  }
}
