/** One-step facts of nonlinear arithmetic that the solver does not find on
    its own. They are not properties of the game; the lemmas that state
    those call them. */
module Arith {
  /** The product of two non-negative reals is non-negative. */
  lemma NonNegativeProduct(x: real, y: real)
    requires x >= 0.0 && y >= 0.0
    ensures x * y >= 0.0
  {
  }

  /** A fraction in [0, 1] of a non-negative value lies between 0 and the
      value. */
  lemma MulBounds(d: real, t: real)
    requires 0.0 <= d && 0.0 <= t <= 1.0
    ensures 0.0 <= d * t <= d
  {
    assert d * t <= d * 1.0;
  }

  /** A non-negative product with a positive factor has a non-negative
      other factor. */
  lemma SignOfProduct(a: real, n: real)
    requires n > 0.0 && a * n >= 0.0
    ensures a >= 0.0
  {
  }

  /** Multiplying by a positive factor keeps the order. */
  lemma MulCancel(a: real, b: real, c: real)
    requires 0.0 < c
    ensures a * c < b * c ==> a < b
    ensures a * c <= b * c ==> a <= b
  {
    if b < a {
      assert (a - b) * c > 0.0;
    } else if b <= a {
      assert a * c == b * c;
    }
  }

  /** Appending a digit to a two-part decimal number. */
  lemma Distribute(x: int, p: int, y: int, l: int)
    ensures (x * p + y) * 10 + l == x * (10 * p) + (y * 10 + l)
  {
  }
}
