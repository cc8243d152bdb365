/** Small facts of real arithmetic that the solver does not find on its own
    once products of variables are involved. */
module RealArith {

  lemma NonNegativeProduct(a: real, b: real)
    requires 0.0 <= a && 0.0 <= b
    ensures 0.0 <= a * b
  {
  }

  lemma PositiveProduct(a: real, b: real)
    requires 0.0 < a && 0.0 < b
    ensures 0.0 < a * b
  {
  }

  /** A positive factor can be cancelled from both sides of an inequality. */
  lemma CancelPositiveFactor(a: real, b: real, c: real)
    requires 0.0 < c && a * c <= b * c
    ensures a <= b
  {
    assert b - a == (b * c - a * c) / c;
  }

  /** Squaring is monotone on the non-negative reals, in both directions. */
  lemma RootMonotone(a: real, b: real)
    requires 0.0 <= a && 0.0 <= b && a * a <= b * b
    ensures a <= b
  {
    if 0.0 < a + b {
      assert (a - b) * (a + b) == a * a - b * b;
      assert a - b == (a * a - b * b) / (a + b);
    }
  }

  lemma SquareMonotone(a: real, b: real)
    requires 0.0 <= a <= b
    ensures a * a <= b * b
  {
    assert a * a <= a * b;
    assert a * b <= b * b;
  }
}
