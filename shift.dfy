/** The Wilkinson shift of the trailing 2x2 block of an active window. */
module Shift {
  import opened Primitives
  import opened RealFacts

  /** `lambda` is an eigenvalue of the symmetric matrix [[tmm, tmn], [tmn, tnn]]:
      a root of its characteristic polynomial. */
  predicate IsEigenvalue(tmm: real, tnn: real, tmn: real, lambda: real)
  {
    (tmm - lambda) * (tnn - lambda) == Sq(tmn)
  }

  /** The shift: the eigenvalue of [[tmm, tmn], [tmn, tnn]] nearest `tnn`. When the
      block is diagonal this is `tnn` itself; otherwise it is computed in the form
      that needs no subtraction of nearly equal quantities. */
  function WilkinsonShift(tmm: real, tnn: real, tmn: real, sqrt: real -> real): (r: real)
    requires IsSqrt(sqrt)
    ensures IsEigenvalue(tmm, tnn, tmn, r)
    ensures forall mu :: IsEigenvalue(tmm, tnn, tmn, mu) ==> Abs(r - tnn) <= Abs(mu - tnn)
  {
    var sqTmn := Sq(tmn);
    if sqTmn != 0.0 then
      var d := (tmm - tnn) * 0.5;
      var root := sqrt(Sq(d) + sqTmn);
      SquarePositive(tmn);
      ShiftQuotient(d, tmn, root);
      var r := tnn - sqTmn / (d + Signum(d) * root);
      NearestEigenvalue(tmm, tnn, tmn, root, r);
      r
    else
      SquareZero(tmn);
      tnn
  }

  /** For a coupled block the denominator of the shift never vanishes: it has the
      sign of `d`, taking the sign of zero as +1. */
  lemma ShiftDenominator(d: real, tmn: real, root: real)
    requires tmn != 0.0 && root >= 0.0 && Sq(root) == Sq(d) + Sq(tmn)
    ensures d + Signum(d) * root != 0.0 && Signum(d) * (d + Signum(d) * root) > 0.0
  {
    SquareSumPositive(d, tmn);
    RootPositive(Sq(d) + Sq(tmn), root);
  }

  /** The quotient of the shift formula, in closed form. */
  lemma ShiftQuotient(d: real, tmn: real, root: real)
    requires tmn != 0.0 && root >= 0.0 && Sq(root) == Sq(d) + Sq(tmn)
    ensures d + Signum(d) * root != 0.0
    ensures Sq(tmn) / (d + Signum(d) * root) == Signum(d) * root - d
  {
    ShiftDenominator(d, tmn, root);
    if d >= 0.0 {
      DifferenceOfSquares(root, d);
      Quotient(Sq(tmn), d + root, root - d);
    } else {
      DifferenceOfSquares(-root, d);
      NegSquare(root);
      Quotient(Sq(tmn), d - root, -root - d);
    }
  }

  /** For a coupled block the shift equals the closed form
      (tmm + tnn) / 2 - sign(d) * sqrt(d^2 + tmn^2), with d = (tmm - tnn) / 2. */
  lemma ShiftClosedForm(tmm: real, tnn: real, tmn: real, sqrt: real -> real)
    requires IsSqrt(sqrt) && tmn != 0.0
    ensures var d := (tmm - tnn) * 0.5;
            var s := Signum(d);
            var root := sqrt(Sq(d) + Sq(tmn));
            d + s * root != 0.0 &&
            WilkinsonShift(tmm, tnn, tmn, sqrt) == (tmm + tnn) / 2.0 - s * root
  {
    var d := (tmm - tnn) * 0.5;
    var root := sqrt(Sq(d) + Sq(tmn));
    SquarePositive(tmn);
    ShiftQuotient(d, tmn, root);
  }

  /** The two eigenvalues of the block lie `root` either side of its mean diagonal. */
  lemma EigenvaluesOfBlock(tmm: real, tnn: real, tmn: real, root: real, mu: real)
    requires root >= 0.0
    requires Sq(root) == Sq((tmm - tnn) * 0.5) + Sq(tmn)
    requires IsEigenvalue(tmm, tnn, tmn, mu)
    ensures mu == (tmm + tnn) / 2.0 + root || mu == (tmm + tnn) / 2.0 - root
  {
    var d := (tmm - tnn) * 0.5;
    var t := mu - (tmm + tnn) / 2.0;
    ProductOf(tmm - mu, tnn - mu, d - t, -d - t);
    Conjugate(d, t);
    assert Sq(t) == Sq(root);
    DifferenceOfSquares(t, root);
    ZeroProduct(root + t, t - root);
  }

  /** Half the gap between the diagonal entries never exceeds the root. */
  lemma HalfGapBound(d: real, tmn: real, root: real)
    requires root >= 0.0 && Sq(root) == Sq(d) + Sq(tmn)
    ensures Abs(d) <= root
  {
    SquareNonneg(tmn);
    if d < 0.0 {
      NegSquare(d);
    }
    RootBound(Abs(d), root);
  }

  /** The closed form picks the root of the characteristic polynomial on the side
      of `tnn`: no eigenvalue is closer to `tnn`. */
  lemma NearestEigenvalue(tmm: real, tnn: real, tmn: real, root: real, r: real)
    requires root >= 0.0
    requires Sq(root) == Sq((tmm - tnn) * 0.5) + Sq(tmn)
    requires r == (tmm + tnn) / 2.0 - Signum((tmm - tnn) * 0.5) * root
    ensures IsEigenvalue(tmm, tnn, tmn, r)
    ensures forall mu :: IsEigenvalue(tmm, tnn, tmn, mu) ==> Abs(r - tnn) <= Abs(mu - tnn)
  {
    var d := (tmm - tnn) * 0.5;
    HalfGapBound(d, tmn, root);
    if d >= 0.0 {
      ProductOf(tmm - r, tnn - r, d + root, root - d);
      DifferenceOfSquares(root, d);
    } else {
      ProductOf(tmm - r, tnn - r, d - root, -root - d);
      DifferenceOfSquares(-root, d);
      NegSquare(root);
    }
    forall mu | IsEigenvalue(tmm, tnn, tmn, mu)
      ensures Abs(r - tnn) <= Abs(mu - tnn)
    {
      EigenvaluesOfBlock(tmm, tnn, tmn, root, mu);
    }
  }

  /** A block that is already diagonal needs no shift beyond its corner entry. */
  lemma ShiftOfDiagonalBlock(tmm: real, tnn: real, sqrt: real -> real)
    requires IsSqrt(sqrt)
    ensures WilkinsonShift(tmm, tnn, 0.0, sqrt) == tnn
  {
  }

  /** [[0, 42], [42, 0]]: the shift is the eigenvalue -42. */
  lemma ShiftOfZeroDiagonal(sqrt: real -> real)
    requires IsSqrt(sqrt)
    ensures WilkinsonShift(0.0, 0.0, 42.0, sqrt) == -42.0
  {
    var root := sqrt(1764.0);
    DifferenceOfSquares(root, 42.0);
    ZeroProduct(42.0 + root, root - 42.0);
    ShiftClosedForm(0.0, 0.0, 42.0, sqrt);
    assert root == 42.0;
  }

  /** [[42, 20], [20, -42]]: the eigenvalues are plus and minus sqrt(2164), and the
      shift is the negative one, nearer the corner entry -42. */
  lemma ShiftOfZeroTrace(sqrt: real -> real)
    requires IsSqrt(sqrt)
    ensures WilkinsonShift(42.0, -42.0, 20.0, sqrt) == -sqrt(2164.0)
  {
    ShiftClosedForm(42.0, -42.0, 20.0, sqrt);
    assert Sq(42.0) + Sq(20.0) == 2164.0;
  }

  /** [[2, 4], [4, 8]]: the eigenvalues are 0 and 10, and the shift is 10. */
  lemma ShiftOfZeroDeterminant(sqrt: real -> real)
    requires IsSqrt(sqrt)
    ensures WilkinsonShift(2.0, 8.0, 4.0, sqrt) == 10.0
  {
    var root := sqrt(25.0);
    DifferenceOfSquares(root, 5.0);
    ZeroProduct(5.0 + root, root - 5.0);
    assert Sq(-3.0) + Sq(4.0) == 25.0;
    ShiftClosedForm(2.0, 8.0, 4.0, sqrt);
    assert root == 5.0;
  }

  /** [[42, 0], [0, 64]]: the shift is the corner entry 64. */
  lemma ShiftOfZeroOffDiagonal(sqrt: real -> real)
    requires IsSqrt(sqrt)
    ensures WilkinsonShift(42.0, 64.0, 0.0, sqrt) == 64.0
  {
  }
}
