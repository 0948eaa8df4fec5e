/** Quotients and remainders by a positive divisor. */
module Division {

  lemma Scales(a: int, b: int, d: int)
    requires a <= b && d > 0
    ensures a * d <= b * d
  {
  }

  /** Quotient and remainder are determined by what they add up to. */
  lemma Euclid(x: int, q: int, r: int, d: int)
    requires d > 0 && x == q * d + r && 0 <= r < d
    ensures x / d == q && x % d == r
  {
    var k := q - x / d;
    assert x == (x / d) * d + x % d;
    assert k * d == x % d - r;
    if k >= 1 { Scales(1, k, d); }
    if k <= -1 { Scales(k, -1, d); }
  }
}
