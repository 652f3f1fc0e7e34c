/** Real numbers: their products, and the larger of two. */
module Reals {
  function Max(a: real, b: real): real { if a < b then b else a }

  lemma Positive(a: real, b: real)
    requires a > 0.0 && b > 0.0
    ensures a * b > 0.0
  {}

  lemma NotNegative(a: real, b: real)
    requires a >= 0.0 && b >= 0.0
    ensures a * b >= 0.0
  {}

  lemma Product(a: real, b: real)
    requires a > b >= 0.0
    ensures a * a > b * b
  {
    assert a * a - b * b == (a - b) * (a + b);
    Positive(a - b, a + b);
  }

  lemma SquareLess(a: real, b: real)
    requires b >= 0.0 && a * a <= b * b
    ensures a <= b && -a <= b
  {
    var c := -a;
    assert c * c == a * a;
    if a > b { Product(a, b); }
    if c > b { Product(c, b); }
  }

  lemma Cancel(a: real, x: real, y: real)
    requires a > 0.0 && x * a <= y * a
    ensures x <= y
  {
    assert (x - y) * a == x * a - y * a;
    if x > y { Positive(x - y, a); }
  }

  lemma CancelStrict(a: real, x: real, y: real)
    requires a > 0.0 && x * a < y * a
    ensures x < y
  {
    assert (x - y) * a == x * a - y * a;
    if x >= y { NotNegative(x - y, a); }
  }
}
