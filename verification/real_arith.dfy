/**
 Small facts about multiplication and division of reals, stated once so that
 the pricing proofs can cite them step by step instead of leaving nonlinear
 arithmetic to the solver.
 */
module RealArith {

  lemma DivCancel(x: real, y: real)
    requires y != 0.0
    ensures x / y * y == x
    ensures y * (x / y) == x
  {
  }

  lemma MulDivCancel(x: real, y: real)
    requires y != 0.0
    ensures x * y / y == x
  {
  }

  /** Multiplying both sides of `a <= b` (or `a < b`) by a positive factor. */
  lemma Scale(a: real, b: real, d: real)
    requires d > 0.0
    ensures a <= b ==> a * d <= b * d
    ensures a < b ==> a * d < b * d
  {
  }

  lemma MulPos(a: real, b: real)
    requires a > 0.0 && b > 0.0
    ensures a * b > 0.0
  {
  }

  lemma MulNonNeg(a: real, b: real)
    requires a >= 0.0 && b >= 0.0
    ensures a * b >= 0.0
  {
  }

  lemma DivNonNeg(a: real, b: real)
    requires a >= 0.0 && b > 0.0
    ensures a / b >= 0.0
    ensures a > 0.0 ==> a / b > 0.0
  {
  }

  /** A positive factor does not change the sign of a product. */
  lemma SignOfProduct(l: real, z: real)
    requires l > 0.0
    ensures l * z > 0.0 <==> z > 0.0
    ensures l * z == 0.0 <==> z == 0.0
    ensures l * z < 0.0 <==> z < 0.0
  {
  }

  /** Comparing a quotient with a constant, for a positive divisor. */
  lemma CompareQuotient(x: real, y: real, c: real)
    requires y > 0.0
    ensures x / y > c <==> x > c * y
    ensures x / y == c <==> x == c * y
    ensures x / y < c <==> x < c * y
  {
  }

  lemma MulEqIff(l: real, z: real, r: real)
    requires l != 0.0
    ensures l * z == r <==> z == r / l
  {
  }
}
