/** Small facts of real arithmetic that the solver does not find unaided. */
module RealFacts {

  lemma MulLeft(c: real, x: real, y: real)
    requires c >= 0.0 && x <= y
    ensures c * x <= c * y
  {
  }

  lemma MulRight(x: real, y: real, c: real)
    requires c >= 0.0 && x <= y
    ensures x * c <= y * c
  {
  }

  lemma DivRight(x: real, y: real, d: real)
    requires d > 0.0 && x <= y
    ensures x / d <= y / d
  {
  }

  lemma QuotientTimesDivisor(x: real, d: real)
    requires d != 0.0
    ensures (x / d) * d == x
  {
  }

  lemma SquareMonotone(a: real, b: real)
    requires 0.0 <= a <= b
    ensures a * a <= b * b
  {
    MulLeft(a, a, b);
    MulLeft(b, a, b);
  }

  /** Multiples of a non-negative step grow with the multiplier. */
  lemma ScaledOrder(i: int, j: int, s: real)
    requires i <= j && s >= 0.0
    ensures (i as real) * s <= (j as real) * s
  {
    MulLeft(s, i as real, j as real);
  }

  /** Neighbouring multiples of a step differ by the step. */
  lemma ScaledNeighbours(i: int, s: real)
    ensures (i as real) * s - ((i - 1) as real) * s == s
  {
  }

  /** Dividing by `v / f` is multiplying by `f / v`. */
  lemma DivideByQuotient(x: real, v: real, f: real)
    requires v > 0.0 && f > 0.0
    ensures x / (v / f) == x * f / v
  {
    var w := v / f;
    QuotientTimesDivisor(v, f);
    assert (x * f / v) * w == x * f * w / v;
    assert x * f * w / v == x * (w * f) / v;
  }
}
