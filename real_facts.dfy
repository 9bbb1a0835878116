/** Small facts of real arithmetic, each stated over its own variables so that the
    solver meets one product at a time. */
module RealFacts {
  import opened Primitives

  lemma MulNonneg(a: real, b: real)
    requires a >= 0.0 && b >= 0.0
    ensures a * b >= 0.0
  {
    if a > 0.0 && b > 0.0 {
      MulPositive(a, b);
    }
  }

  lemma MulPositive(a: real, b: real)
    requires a > 0.0 && b > 0.0
    ensures a * b > 0.0
  {
  }

  lemma SquarePositive(t: real)
    requires t != 0.0
    ensures Sq(t) > 0.0
  {
    if t > 0.0 {
      assert t * Same(t) > 0.0;
    } else {
      assert t * Same(t) > 0.0;
    }
  }

  lemma SquareNonneg(t: real)
    ensures Sq(t) >= 0.0
  {
    if t != 0.0 {
      SquarePositive(t);
    }
  }

  lemma SquareZero(t: real)
    requires Sq(t) == 0.0
    ensures t == 0.0
  {
    if t != 0.0 {
      SquarePositive(t);
    }
  }

  lemma SquareSumPositive(d: real, t: real)
    requires t != 0.0
    ensures Sq(d) + Sq(t) > 0.0
  {
    SquarePositive(t);
    SquareNonneg(d);
  }

  lemma DifferenceOfSquares(p: real, q: real)
    ensures (q + p) * (p - q) == Sq(p) - Sq(q)
  {
  }

  lemma Conjugate(d: real, t: real)
    ensures (d - t) * (-d - t) == Sq(t) - Sq(d)
  {
  }

  lemma NegSquare(x: real)
    ensures Sq(-x) == Sq(x)
  {
  }

  /** On the non-negative reals squaring is strictly monotone. */
  lemma SquareMonotone(r: real, a: real)
    requires 0.0 <= r < a
    ensures Sq(r) < Sq(a)
  {
    var sum, gap := r + a, a - r;
    MulPositive(sum, gap);
    DifferenceOfSquares(a, r);
    assert sum * gap == Sq(a) - Sq(r);
  }

  /** So a non-negative root bounds every non-negative number of smaller square. */
  lemma RootBound(a: real, r: real)
    requires a >= 0.0 && r >= 0.0 && Sq(a) <= Sq(r)
    ensures a <= r
  {
    if r < a {
      SquareMonotone(r, a);
    }
  }

  lemma ZeroSquare(r: real)
    ensures r == 0.0 ==> Sq(r) == 0.0
  {
  }

  lemma RootPositive(x: real, r: real)
    requires x > 0.0 && r >= 0.0 && Sq(r) == x
    ensures r > 0.0
  {
    ZeroSquare(r);
  }

  lemma ProductOf(a: real, b: real, p: real, q: real)
    requires a == p && b == q
    ensures a * b == p * q
  {
  }

  lemma ZeroProduct(a: real, b: real)
    requires a * b == 0.0
    ensures a == 0.0 || b == 0.0
  {
  }

  lemma Quotient(a: real, b: real, q: real)
    requires b != 0.0 && q * b == a
    ensures a / b == q
  {
  }
}
