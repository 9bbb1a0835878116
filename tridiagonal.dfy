/** The tridiagonal state the QR iteration works on, and the negligibility tests
    its deflation relies on. */
module Tridiagonal {
  import opened Primitives
  import opened RealFacts

  /** The main diagonal and the off-diagonal of a symmetric tridiagonal matrix. */
  datatype Bands = Bands(diag: seq<real>, off: seq<real>)

  /** An active window of the matrix: `start` and `end` are diagonal indices, the
      window is empty when they coincide. */
  datatype Window = Window(start: nat, end: nat)

  /** off-diagonal entry `k` couples diagonal entries `k` and `k + 1`. */
  predicate Shaped(t: Bands)
  {
    |t.off| + 1 == |t.diag|
  }

  /** `off[m]` is small relative to the two diagonal entries it couples. The sum
      in the threshold makes the order of the two entries immaterial, so the test
      after a sweep and the test of the scans are this one predicate. */
  predicate Negligible(t: Bands, m: nat, eps: real)
    requires Shaped(t) && m < |t.off|
  {
    Abs(t.off[m]) <= Tolerance(eps, t.diag[m + 1], t.diag[m])
  }

  /** The convergence threshold for a coupling between diagonal entries `a` and
      `b`: `eps` relative to their magnitudes. */
  function Tolerance(eps: real, a: real, b: real): real
  {
    eps * (Abs(a) + Abs(b))
  }

  /** With a non-negative `eps`, a zero coupling is negligible. */
  lemma ZeroCouplingNegligible(t: Bands, m: nat, eps: real)
    requires Shaped(t) && m < |t.off| && eps >= 0.0 && t.off[m] == 0.0
    ensures Negligible(t, m, eps)
  {
    MulNonneg(eps, Abs(t.diag[m + 1]) + Abs(t.diag[m]));
  }

  /** The split test of the leading scan: exactly zero, or negligible. */
  predicate Decoupled(t: Bands, m: nat, eps: real)
    requires Shaped(t) && m < |t.off|
  {
    t.off[m] == 0.0 || Negligible(t, m, eps)
  }

  /** The sum of a sequence of reals; the trace of the matrix is the sum of its
      diagonal. */
  function Sum(s: seq<real>): real
  {
    if s == [] then 0.0 else s[0] + Sum(s[1..])
  }

  /** Replacing two adjacent entries by two others with the same sum keeps the sum. */
  lemma {:induction false} SumOfPairUpdate(s: seq<real>, i: nat, a: real, b: real)
    requires i + 1 < |s| && a + b == s[i] + s[i + 1]
    ensures Sum(s[i := a][i + 1 := b]) == Sum(s)
  {
    var u := s[i := a][i + 1 := b];
    if i == 0 {
      assert u[1..][1..] == s[1..][1..];
    } else {
      assert u[1..] == s[1..][i - 1 := a][i := b];
      SumOfPairUpdate(s[1..], i - 1, a, b);
    }
  }
}
