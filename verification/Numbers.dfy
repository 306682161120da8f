/** Real arithmetic as the source uses it, over exact reals. */
module Numbers {

  function Min(a: real, b: real): real { if a <= b then a else b }

  function Max(a: real, b: real): real { if a >= b then a else b }

  function Clamp(value: real, minimum: real, maximum: real): real { Min(maximum, Max(minimum, value)) }

  function Ceil(r: real): int { -((-r).Floor) }

  /** Rounds halves up. */
  function Round(r: real): int { (r + 0.5).Floor }

  function MinInt(a: int, b: int): int { if a <= b then a else b }

  function MaxInt(a: int, b: int): int { if a >= b then a else b }

  function ClampInt(value: int, minimum: int, maximum: int): int { MinInt(maximum, MaxInt(minimum, value)) }

  function Quotient(n: real, d: real): real
    requires d > 0.0
  {
    n / d
  }

  lemma ClampMeans(value: real, minimum: real, maximum: real)
    requires minimum <= maximum
    ensures Clamp(value, minimum, maximum) == if value < minimum then minimum else if value > maximum then maximum else value
  {
  }

  lemma ClampKeeps(value: real, minimum: real, maximum: real)
    requires minimum <= value <= maximum
    ensures Clamp(value, minimum, maximum) == value
  {
  }

  lemma ProductSign(x: real, y: real)
    requires x >= 0.0 && y >= 0.0
    ensures x * y >= 0.0
  {
  }

  lemma QuotientTimes(n: real, d: real)
    requires d > 0.0
    ensures Quotient(n, d) * d == n
  {
  }

  lemma QuotientSign(n: real, d: real)
    requires d > 0.0
    ensures n > 0.0 ==> Quotient(n, d) > 0.0
  {
  }

  lemma SmallerFactor(x: real, y: real, d: real)
    requires d > 0.0
    ensures x <= y <==> x * d <= y * d
  {
    if x <= y { ProductSign(y - x, d); } else { assert (x - y) * d > 0.0; }
  }

  lemma QuotientAtMost(n: real, d: real, q: real)
    requires d > 0.0
    ensures Quotient(n, d) <= q <==> n <= q * d
  {
    QuotientTimes(n, d);
    SmallerFactor(Quotient(n, d), q, d);
  }

  lemma QuotientIs(n: real, d: real, q: real)
    requires d > 0.0 && n == q * d
    ensures Quotient(n, d) == q
  {
    QuotientTimes(n, d);
    SmallerFactor(Quotient(n, d), q, d);
    SmallerFactor(q, Quotient(n, d), d);
  }
}
