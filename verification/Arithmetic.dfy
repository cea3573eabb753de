/** Reals: the operations the program uses on Decimals, and the nonlinear facts the bounds are built from. */
module Arithmetic {
  function Max(a: real, b: real): real { if a >= b then a else b }

  function Min(a: real, b: real): real { if a <= b then a else b }

  function Abs(a: real): real { if a >= 0.0 then a else -a }

  /** Python's int() on a Decimal: toward zero. */
  function Truncate(r: real): int {
    if r >= 0.0 then r.Floor else -((-r).Floor)
  }

  lemma QuotientTimes(x: real, d: real)
    requires d > 0.0
    ensures x / d * d == x
  {
  }

  lemma QuotientsAdd(x: real, y: real, d: real)
    requires d > 0.0
    ensures x / d + y / d == (x + y) / d
  {
  }

  lemma TimesMonotone(x: real, y: real, k: real)
    requires x <= y && k >= 0.0
    ensures x * k <= y * k
  {
  }

  lemma QuotientMonotone(x: real, y: real, d: real)
    requires x <= y && d > 0.0
    ensures x / d <= y / d
  {
    assert y / d - x / d == (y - x) / d >= 0.0;
  }

  lemma QuotientStrict(x: real, y: real, d: real)
    requires x < y && d > 0.0
    ensures x / d < y / d
  {
    assert y / d - x / d == (y - x) / d > 0.0;
  }

  lemma QuotientCompare(x: real, d: real, k: real)
    requires d > 0.0
    ensures x / d >= k <==> x >= k * d
    ensures x / d <= k <==> x <= k * d
  {
    ProductQuotient(k, d);
    if x > k * d {
      QuotientStrict(k * d, x, d);
    } else if x < k * d {
      QuotientStrict(x, k * d, d);
    }
  }

  lemma ProductQuotient(x: real, d: real)
    requires d > 0.0
    ensures x * d / d == x
  {
  }

  lemma ProductMonotone(x: real, x': real, y: real, y': real)
    requires 0.0 <= x <= x' && 0.0 <= y <= y'
    ensures 0.0 <= x * y <= x' * y'
  {
    assert x * y <= x' * y <= x' * y';
  }

  lemma QuotientAtLeast(x: real, d: real, k: real)
    requires x > 0.0 && d > 0.0 && k * d <= 1.0
    ensures x / d >= k * x
  {
    assert k * x * d == x * (k * d) <= x * 1.0;
    QuotientMonotone(k * x * d, x, d);
    assert k * x * d / d == k * x;
  }
}
