/** Facts about products of reals and about rounding them, each kept in a lemma of its
    own so that proofs elsewhere need no reasoning about multiplication. */
module Arithmetic {
  import opened Common

  /** Multiplying by a non-negative factor keeps an inequality. */
  lemma ScaleMonotone(h: real, a: real, b: real)
    requires h >= 0.0 && a <= b
    ensures h * a <= h * b
  {
    assert h * (b - a) >= 0.0;
  }

  /** Multiplying by a non-negative factor on the right keeps an inequality. */
  lemma FactorMonotone(a: real, b: real, factor: real)
    requires factor >= 0.0 && a <= b
    ensures a * factor <= b * factor
  {
    assert (b - a) * factor >= 0.0;
  }

  /** A non-negative amount scaled by at least 1 does not shrink. */
  lemma ScaleAtLeast(h: real, factor: real)
    requires h >= 0.0 && factor >= 1.0
    ensures h <= h * factor
  {
    assert h * factor - h == h * (factor - 1.0);
  }

  /** A whole, non-negative amount scaled by at least 1 rounds to at least itself. */
  lemma RoundScaledAtLeast(k: int, factor: real)
    requires k >= 0 && factor >= 1.0
    ensures k <= Round(k as real * factor)
  {
    ScaleAtLeast(k as real, factor);
    RoundAtLeastInt(k as real * factor, k);
  }

  lemma SameProduct(x: real, y: real, factor: real)
    requires x == y
    ensures x * factor == y * factor
  {
  }

  /** A value that is a whole number rounds to itself. */
  lemma RoundWhole(x: real)
    requires x == x.Floor as real
    ensures Round(x) as real == x
  {
    RoundOfInt(x.Floor);
  }

  lemma ProductNonNegative(a: real, b: real)
    requires a >= 0.0 && b >= 0.0
    ensures a * b >= 0.0
  {
  }
}
