/** Sign facts about products of reals, used by the geometry and shading proofs. */
module RealArith {

  /** The product of two positive reals is positive. */
  lemma PositiveProduct(u: real, v: real)
    requires u > 0.0 && v > 0.0
    ensures u * v > 0.0
  {
  }

  /** The product of two non-negative reals is non-negative. */
  lemma NonNegativeProduct(u: real, v: real)
    requires u >= 0.0 && v >= 0.0
    ensures u * v >= 0.0
  {
  }

  /** A product with a non-zero factor is zero only when the other factor is. */
  lemma ZeroProduct(u: real, v: real)
    requires v != 0.0 && u * v == 0.0
    ensures u == 0.0
  {
  }
}
