/** `Math.ceil` over exact reals (the application's number arithmetic without float rounding). */
module JsMath {

  /** The least integer not below `x`. */
  function Ceil(x: real): (r: int)
    ensures x <= r as real < x + 1.0
  {
    -((-x).Floor)
  }

  /** `Math.ceil(a / b)` for a positive divisor: the least `c` with `c * b >= a`. */
  lemma CeilOfQuotient(a: int, b: int)
    requires b > 0
    ensures var c := Ceil(a as real / b as real); c * b >= a && (c - 1) * b < a
  {
    var c := Ceil(a as real / b as real);
    QuotientUpperBound(a, b, c);
    QuotientLowerBound(a, b, c - 1);
  }

  lemma QuotientUpperBound(a: int, b: int, c: int)
    requires b > 0 && a as real / b as real <= c as real
    ensures c * b >= a
  {
    var q := a as real / b as real;
    assert q * b as real == a as real;
    MulMonotone(q, c as real, b as real);
    CastProduct(c, b);
  }

  lemma QuotientLowerBound(a: int, b: int, d: int)
    requires b > 0 && d as real < a as real / b as real
    ensures d * b < a
  {
    var q := a as real / b as real;
    assert q * b as real == a as real;
    MulStrict(d as real, q, b as real);
    CastProduct(d, b);
  }

  lemma CastProduct(x: int, y: int)
    ensures (x * y) as real == (x as real) * (y as real)
  {
  }

  lemma MulMonotone(x: real, y: real, k: real)
    requires x <= y && k > 0.0
    ensures x * k <= y * k
  {
  }

  lemma MulStrict(x: real, y: real, k: real)
    requires x < y && k > 0.0
    ensures x * k < y * k
  {
  }
}
