/** Multiplication and division by a positive variable, in steps the solver takes. */
module Arithmetic {

  lemma NextMultiple(q: int, d: int)
    ensures q * d == (q - 1) * d + d
  {
  }

  lemma MultipleMonotone(a: int, b: int, d: int)
    requires a <= b && d >= 0
    ensures a * d <= b * d
  {
    NonNegativeProduct(b - a, d);
    assert b * d == a * d + (b - a) * d;
  }

  lemma NonNegativeProduct(a: int, b: int)
    requires a >= 0 && b >= 0
    ensures a * b >= 0
  {
  }

  lemma QuotientBounds(x: int, d: int)
    requires d > 0
    ensures x / d * d <= x < x / d * d + d
  {
    assert x == x / d * d + x % d;
  }

  lemma QuotientUnique(x: int, d: int, q: int)
    requires d > 0 && q * d <= x < q * d + d
    ensures x / d == q
  {
    var y := x / d;
    QuotientBounds(x, d);
    if y < q {
      MultipleMonotone(y + 1, q, d);
      NextMultiple(y + 1, d);
    } else if y > q {
      MultipleMonotone(q + 1, y, d);
      NextMultiple(q + 1, d);
    }
  }
}
