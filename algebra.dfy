/** Small facts of exact real arithmetic that the calculators' proofs share. */
module RealAlgebra {

  /** `q` is the quotient `a / b` once `q * b == a`. */
  lemma Quotient(a: real, b: real, q: real)
    requires b != 0.0 && q * b == a
    ensures q == a / b
  {
  }

  /** A non-zero factor cancels from both sides. */
  lemma Cancel(x: real, y: real, k: real)
    requires k != 0.0 && x * k == y * k
    ensures x == y
  {
    assert (x - y) * k == 0.0;
  }

  /** The sign of a product with a positive left factor is that of the right one. */
  lemma SignOfProduct(k: real, y: real)
    requires k > 0.0
    ensures k * y > 0.0 <==> y > 0.0
    ensures k * y < 0.0 <==> y < 0.0
    ensures k * y == 0.0 <==> y == 0.0
    ensures y * k == k * y
  {
    if y > 0.0 {
      assert k * y > 0.0;
    } else if y < 0.0 {
      assert k * (-y) > 0.0;
    }
  }

  /** A product of two non-negative reals is non-negative. */
  lemma ProductNonNegative(a: real, b: real)
    requires a >= 0.0 && b >= 0.0
    ensures a * b >= 0.0
  {
  }

  /** A square is non-negative and zero only at zero. */
  lemma SquareSign(x: real)
    ensures x * x >= 0.0
    ensures x * x == 0.0 <==> x == 0.0
  {
    if x > 0.0 {
      SignOfProduct(x, x);
    } else if x < 0.0 {
      SignOfProduct(-x, -x);
    }
  }

  /** Dividing by a positive number keeps the sign. */
  lemma QuotientSign(a: real, b: real)
    requires b > 0.0
    ensures a / b >= 0.0 <==> a >= 0.0
    ensures a / b == 0.0 <==> a == 0.0
  {
    assert (a / b) * b == a;
    SignOfProduct(b, a / b);
  }
}
