/** The driver of the symmetric eigendecomposition (`try_new`): repeated QR sweeps
    on a shrinking active window of the tridiagonal form, closed-form solution of
    2x2 windows, re-delimitation after each step, and the iteration cap. The
    tridiagonal form itself is the input; the eigenvector matrix is not part of this
    model. */
module SymmetricEigen {
  import opened Primitives
  import opened Tridiagonal
  import opened Shift
  import opened Deflation
  import opened QrSweep

  /** `Matrix2::eigenvalues`, applied to [[m11, m12], [m12, m22]], yields the two
      eigenvalues of the block, which sum to its trace. */
  ghost predicate SolvesBlock(eigen2: (real, real, real) -> Vec2)
  {
    forall m11, m12, m22 :: SolvesBlockAt(eigen2, m11, m12, m22)
  }

  predicate SolvesBlockAt(eigen2: (real, real, real) -> Vec2, m11: real, m12: real, m22: real)
  {
    var e := eigen2(m11, m12, m22);
    IsEigenvalue(m11, m22, m12, e.x) && IsEigenvalue(m11, m22, m12, e.y) && e.x + e.y == m11 + m22
  }

  /** The 2x2 branch: the window's diagonal entries are replaced by the eigenvalues
      of the window; nothing else changes. */
  function TwoByTwo(t: Bands, start: nat, eigen2: (real, real, real) -> Vec2): (u: Bands)
    requires Shaped(t) && start + 1 < |t.diag|
    ensures Shaped(u) && |u.diag| == |t.diag| && u.off == t.off
  {
    var e := eigen2(t.diag[start], t.off[start], t.diag[start + 1]);
    Bands(t.diag[start := e.x][start + 1 := e.y], t.off)
  }

  /** With an exact 2x2 solver the window's new diagonal entries are the eigenvalues
      of the old window, and the trace is kept. */
  lemma TwoByTwoSolves(t: Bands, start: nat, eigen2: (real, real, real) -> Vec2)
    requires Shaped(t) && start + 1 < |t.diag| && SolvesBlock(eigen2)
    ensures var u := TwoByTwo(t, start, eigen2);
            IsEigenvalue(t.diag[start], t.diag[start + 1], t.off[start], u.diag[start]) &&
            IsEigenvalue(t.diag[start], t.diag[start + 1], t.off[start], u.diag[start + 1]) &&
            Sum(u.diag) == Sum(t.diag) &&
            forall k :: 0 <= k < |t.diag| && k != start && k != start + 1 ==> u.diag[k] == t.diag[k]
  {
    var e := eigen2(t.diag[start], t.off[start], t.diag[start + 1]);
    assert SolvesBlockAt(eigen2, t.diag[start], t.off[start], t.diag[start + 1]);
    SumOfPairUpdate(t.diag, start, e.x, e.y);
  }

  /** The body of one iteration on the window `w`, before re-delimiting: the new
      bands and the lowered end. A window of three rows or more is swept and loses
      its last row when that row's coupling has become negligible; a 2x2 window is
      solved and always loses its last row. Only the window changes. */
  function Reduce(t: Bands, w: Window, eps: real, cancelY: Vec2 -> Option<Givens>,
                  eigen2: (real, real, real) -> Vec2, sqrt: real -> real): (r: (Bands, nat))
    requires Shaped(t) && w.start < w.end < |t.diag| && IsSqrt(sqrt)
    ensures Shaped(r.0) && |r.0.diag| == |t.diag|
    ensures w.end - 1 <= r.1 <= w.end
    ensures w.end == w.start + 1 ==> r.1 == w.end - 1
    ensures w.end > w.start + 1 ==> (r.1 == w.end - 1 <==> Negligible(r.0, w.end - 1, eps))
  {
    if w.end - w.start + 1 > 2 then
      var u := SweepWindow(t, w.start, w.end, cancelY, sqrt);
      (u, if Negligible(u, w.end - 1, eps) then w.end - 1 else w.end)
    else
      (TwoByTwo(t, w.start, eigen2), w.end - 1)
  }

  /** Only the window changes in an iteration's body. */
  lemma ReduceFrame(t: Bands, w: Window, eps: real, cancelY: Vec2 -> Option<Givens>,
                    eigen2: (real, real, real) -> Vec2, sqrt: real -> real)
    requires Shaped(t) && w.start < w.end < |t.diag| && IsSqrt(sqrt)
    ensures var r := Reduce(t, w, eps, cancelY, eigen2, sqrt);
            (forall k :: 0 <= k < |t.diag| && (k < w.start || k > w.end) ==> r.0.diag[k] == t.diag[k]) &&
            (forall k :: 0 <= k < |t.off| && (k < w.start || k >= w.end) ==> r.0.off[k] == t.off[k])
  {
    if w.end - w.start + 1 > 2 {
      SweepWindowFrame(t, w.start, w.end, cancelY, sqrt);
    }
  }

  /** One iteration on the window `w`: `Reduce`, then re-delimiting up to the
      lowered end. The window's end never increases, and the rows after it are
      left alone. */
  function Iterate(t: Bands, w: Window, eps: real, cancelY: Vec2 -> Option<Givens>,
                   eigen2: (real, real, real) -> Vec2, sqrt: real -> real): (r: (Bands, Window))
    requires Shaped(t) && w.start < w.end < |t.diag| && IsSqrt(sqrt)
    ensures Shaped(r.0) && |r.0.diag| == |t.diag|
    ensures r.1.start <= r.1.end <= w.end
  {
    var (u, e) := Reduce(t, w, eps, cancelY, eigen2, sqrt);
    (Delimited(u, e, eps), Delimit(u, e, eps))
  }

  /** The rows after the window, which have converged, are left alone by an
      iteration. */
  lemma IterateFrame(t: Bands, w: Window, eps: real, cancelY: Vec2 -> Option<Givens>,
                     eigen2: (real, real, real) -> Vec2, sqrt: real -> real)
    requires Shaped(t) && w.start < w.end < |t.diag| && IsSqrt(sqrt)
    ensures var r := Iterate(t, w, eps, cancelY, eigen2, sqrt);
            (forall k :: w.end < k < |t.diag| ==> r.0.diag[k] == t.diag[k]) &&
            (forall k :: w.end <= k < |t.off| ==> r.0.off[k] == t.off[k])
  {
    var red := Reduce(t, w, eps, cancelY, eigen2, sqrt);
    ReduceFrame(t, w, eps, cancelY, eigen2, sqrt);
    DelimitedChanges(red.0, red.1, eps);
  }

  /** How a decomposition ends: with the eigenvalues (the final diagonal), with the
      iteration cap reached, or, when there is no cap, with the fuel that bounds
      this model's unbounded loop spent. */
  datatype Outcome = Converged(eigenvalues: seq<real>) | IterationLimit | OutOfFuel

  /** The `while end != start` loop from the window `w` with `niter` iterations
      done: the outcome and the final iteration count. */
  function Iteration(t: Bands, w: Window, niter: nat, eps: real, maxNiter: nat, fuel: nat,
                     cancelY: Vec2 -> Option<Givens>, eigen2: (real, real, real) -> Vec2,
                     sqrt: real -> real): (r: (Outcome, nat))
    requires Shaped(t) && w.start <= w.end < |t.diag| && IsSqrt(sqrt)
    requires maxNiter > 0 ==> niter < maxNiter
    requires maxNiter == 0 ==> niter <= fuel
    decreases if maxNiter > 0 then maxNiter - niter else fuel - niter, 2
  {
    if w.end == w.start then (Converged(t.diag), niter)
    else if maxNiter == 0 && niter == fuel then (OutOfFuel, niter)
    else Advance(t, w, niter, eps, maxNiter, fuel, cancelY, eigen2, sqrt)
  }

  /** One pass of the loop body on a non-empty window, as far as the outcome goes:
      the iteration is counted, and a count that reaches the cap ends the loop with
      `None` whatever the iteration did to the bands; otherwise the loop goes on. */
  function Advance(t: Bands, w: Window, niter: nat, eps: real, maxNiter: nat, fuel: nat,
                   cancelY: Vec2 -> Option<Givens>, eigen2: (real, real, real) -> Vec2,
                   sqrt: real -> real): (r: (Outcome, nat))
    requires Shaped(t) && w.start < w.end < |t.diag| && IsSqrt(sqrt)
    requires maxNiter > 0 ==> niter < maxNiter
    requires maxNiter == 0 ==> niter < fuel
    decreases if maxNiter > 0 then maxNiter - niter else fuel - niter, 1
  {
    if niter + 1 == maxNiter then (IterationLimit, niter + 1)
    else Continue(t, w, niter, eps, maxNiter, fuel, cancelY, eigen2, sqrt)
  }

  /** A pass below the cap: the iteration, then the loop from the new bands and
      window with one more iteration counted. */
  function Continue(t: Bands, w: Window, niter: nat, eps: real, maxNiter: nat, fuel: nat,
                    cancelY: Vec2 -> Option<Givens>, eigen2: (real, real, real) -> Vec2,
                    sqrt: real -> real): (r: (Outcome, nat))
    requires Shaped(t) && w.start < w.end < |t.diag| && IsSqrt(sqrt)
    requires maxNiter > 0 ==> niter + 1 < maxNiter
    requires maxNiter == 0 ==> niter < fuel
    decreases if maxNiter > 0 then maxNiter - niter else fuel - niter, 0
  {
    var step := Iterate(t, w, eps, cancelY, eigen2, sqrt);
    Iteration(step.0, step.1, niter + 1, eps, maxNiter, fuel, cancelY, eigen2, sqrt)
  }

  /** `try_new` on the tridiagonal form `t`: a 1x1 matrix is its own eigenvalue;
      otherwise the loop runs from the first delimited window. */
  function Decompose(t: Bands, eps: real, maxNiter: nat, fuel: nat,
                     cancelY: Vec2 -> Option<Givens>, eigen2: (real, real, real) -> Vec2,
                     sqrt: real -> real): (r: (Outcome, nat))
    requires Shaped(t) && IsSqrt(sqrt)
  {
    var dim := |t.diag|;
    if dim == 1 then (Converged(t.diag), 0)
    else Iteration(Delimited(t, dim - 1, eps), Delimit(t, dim - 1, eps), 0, eps, maxNiter, fuel,
                   cancelY, eigen2, sqrt)
  }

  /** How the count `k` an outcome `o` is reported with relates to the cap: the
      count never passes the cap (or, with no cap, the fuel); the outcome is
      `IterationLimit` exactly when the count has reached a nonzero cap; it is
      `OutOfFuel` only with no cap and the fuel spent; with no cap, stopping before
      the fuel is spent means convergence; and converged eigenvalues are as many as
      the rows. */
  predicate Accounted(o: Outcome, k: nat, niter: nat, maxNiter: nat, fuel: nat, dim: nat)
  {
    niter <= k &&
    (maxNiter > 0 ==> k <= maxNiter) &&
    (maxNiter == 0 ==> k <= fuel) &&
    (o.IterationLimit? <==> maxNiter > 0 && k == maxNiter) &&
    (o.OutOfFuel? ==> maxNiter == 0 && k == fuel) &&
    (maxNiter == 0 && k < fuel ==> o.Converged?) &&
    (o.Converged? ==> |o.eigenvalues| == dim)
  }

  /** The loop reports its count against the cap as `Accounted` describes. */
  lemma {:induction false} IterationCap(t: Bands, w: Window, niter: nat, eps: real, maxNiter: nat,
                                        fuel: nat, cancelY: Vec2 -> Option<Givens>,
                                        eigen2: (real, real, real) -> Vec2, sqrt: real -> real)
    requires Shaped(t) && w.start <= w.end < |t.diag| && IsSqrt(sqrt)
    requires maxNiter > 0 ==> niter < maxNiter
    requires maxNiter == 0 ==> niter <= fuel
    ensures var r := Iteration(t, w, niter, eps, maxNiter, fuel, cancelY, eigen2, sqrt);
            Accounted(r.0, r.1, niter, maxNiter, fuel, |t.diag|)
    decreases if maxNiter > 0 then maxNiter - niter else fuel - niter, 2
  {
    if w.end != w.start && !(maxNiter == 0 && niter == fuel) {
      AdvanceCap(t, w, niter, eps, maxNiter, fuel, cancelY, eigen2, sqrt);
    }
  }

  lemma {:induction false} AdvanceCap(t: Bands, w: Window, niter: nat, eps: real, maxNiter: nat,
                                      fuel: nat, cancelY: Vec2 -> Option<Givens>,
                                      eigen2: (real, real, real) -> Vec2, sqrt: real -> real)
    requires Shaped(t) && w.start < w.end < |t.diag| && IsSqrt(sqrt)
    requires maxNiter > 0 ==> niter < maxNiter
    requires maxNiter == 0 ==> niter < fuel
    ensures var r := Advance(t, w, niter, eps, maxNiter, fuel, cancelY, eigen2, sqrt);
            niter < r.1 && Accounted(r.0, r.1, niter, maxNiter, fuel, |t.diag|)
    decreases if maxNiter > 0 then maxNiter - niter else fuel - niter, 1
  {
    if niter + 1 != maxNiter {
      ContinueCap(t, w, niter, eps, maxNiter, fuel, cancelY, eigen2, sqrt);
    }
  }

  lemma {:induction false} ContinueCap(t: Bands, w: Window, niter: nat, eps: real, maxNiter: nat,
                                       fuel: nat, cancelY: Vec2 -> Option<Givens>,
                                       eigen2: (real, real, real) -> Vec2, sqrt: real -> real)
    requires Shaped(t) && w.start < w.end < |t.diag| && IsSqrt(sqrt)
    requires maxNiter > 0 ==> niter + 1 < maxNiter
    requires maxNiter == 0 ==> niter < fuel
    ensures var r := Continue(t, w, niter, eps, maxNiter, fuel, cancelY, eigen2, sqrt);
            Accounted(r.0, r.1, niter + 1, maxNiter, fuel, |t.diag|)
    decreases if maxNiter > 0 then maxNiter - niter else fuel - niter, 0
  {
    var step := Iterate(t, w, eps, cancelY, eigen2, sqrt);
    IterationCap(step.0, step.1, niter + 1, eps, maxNiter, fuel, cancelY, eigen2, sqrt);
  }

  /** `try_new` returns `None` exactly when its count reaches a nonzero `max_niter`,
      never with `max_niter == 0`, and on a 1x1 matrix returns its entry without
      iterating. */
  lemma DecomposeCap(t: Bands, eps: real, maxNiter: nat, fuel: nat,
                     cancelY: Vec2 -> Option<Givens>, eigen2: (real, real, real) -> Vec2,
                     sqrt: real -> real)
    requires Shaped(t) && IsSqrt(sqrt)
    ensures var r := Decompose(t, eps, maxNiter, fuel, cancelY, eigen2, sqrt);
            Accounted(r.0, r.1, 0, maxNiter, fuel, |t.diag|) &&
            (maxNiter == 0 ==> !r.0.IterationLimit?) &&
            (|t.diag| == 1 ==> r == (Converged(t.diag), 0))
  {
    var dim := |t.diag|;
    if dim > 1 {
      IterationCap(Delimited(t, dim - 1, eps), Delimit(t, dim - 1, eps), 0, eps, maxNiter, fuel,
                   cancelY, eigen2, sqrt);
    }
  }

  /** A diagonal matrix, whose couplings are all zero, is fully deflated at once: with
      a non-negative tolerance, `try_new` returns its diagonal, in its original order,
      after no iteration. */
  lemma DecomposeDiagonal(t: Bands, eps: real, maxNiter: nat, fuel: nat,
                          cancelY: Vec2 -> Option<Givens>, eigen2: (real, real, real) -> Vec2,
                          sqrt: real -> real)
    requires Shaped(t) && IsSqrt(sqrt) && eps >= 0.0
    requires forall k :: 0 <= k < |t.off| ==> t.off[k] == 0.0
    ensures Decompose(t, eps, maxNiter, fuel, cancelY, eigen2, sqrt) == (Converged(t.diag), 0)
  {
    var dim := |t.diag|;
    if dim > 1 {
      forall k | 0 <= k < dim - 1
        ensures Negligible(t, k, eps)
      {
        ZeroCouplingNegligible(t, k, eps);
      }
      DelimitMeets(t, dim - 1, eps);
      assert Delimit(t, dim - 1, eps) == Window(0, 0);
      assert Delimited(t, dim - 1, eps) == t;
    }
  }

  /** One iteration keeps the trace when the primitives are exact. */
  lemma IterateKeepsTrace(t: Bands, w: Window, eps: real, cancelY: Vec2 -> Option<Givens>,
                          eigen2: (real, real, real) -> Vec2, sqrt: real -> real)
    requires Shaped(t) && w.start < w.end < |t.diag| && IsSqrt(sqrt)
    requires UnitRotations(cancelY) && SolvesBlock(eigen2)
    ensures Sum(Iterate(t, w, eps, cancelY, eigen2, sqrt).0.diag) == Sum(t.diag)
  {
    if w.end - w.start + 1 > 2 {
      SweepKeepsTrace(t, w.start, w.end, w.start, Seed(t, w.start, w.end, sqrt), cancelY);
    } else {
      TwoByTwoSolves(t, w.start, eigen2);
    }
  }

  /** The loop keeps the trace: the eigenvalues it converges to sum to the trace of
      the tridiagonal form. */
  lemma {:induction false} IterationKeepsTrace(t: Bands, w: Window, niter: nat, eps: real,
                                               maxNiter: nat, fuel: nat,
                                               cancelY: Vec2 -> Option<Givens>,
                                               eigen2: (real, real, real) -> Vec2,
                                               sqrt: real -> real)
    requires Shaped(t) && w.start <= w.end < |t.diag| && IsSqrt(sqrt)
    requires maxNiter > 0 ==> niter < maxNiter
    requires maxNiter == 0 ==> niter <= fuel
    requires UnitRotations(cancelY) && SolvesBlock(eigen2)
    ensures var r := Iteration(t, w, niter, eps, maxNiter, fuel, cancelY, eigen2, sqrt);
            r.0.Converged? ==> Sum(r.0.eigenvalues) == Sum(t.diag)
    decreases if maxNiter > 0 then maxNiter - niter else fuel - niter, 2
  {
    if w.end != w.start && !(maxNiter == 0 && niter == fuel) {
      AdvanceKeepsTrace(t, w, niter, eps, maxNiter, fuel, cancelY, eigen2, sqrt);
    }
  }

  lemma {:induction false} AdvanceKeepsTrace(t: Bands, w: Window, niter: nat, eps: real,
                                             maxNiter: nat, fuel: nat,
                                             cancelY: Vec2 -> Option<Givens>,
                                             eigen2: (real, real, real) -> Vec2,
                                             sqrt: real -> real)
    requires Shaped(t) && w.start < w.end < |t.diag| && IsSqrt(sqrt)
    requires maxNiter > 0 ==> niter < maxNiter
    requires maxNiter == 0 ==> niter < fuel
    requires UnitRotations(cancelY) && SolvesBlock(eigen2)
    ensures var r := Advance(t, w, niter, eps, maxNiter, fuel, cancelY, eigen2, sqrt);
            r.0.Converged? ==> Sum(r.0.eigenvalues) == Sum(t.diag)
    decreases if maxNiter > 0 then maxNiter - niter else fuel - niter, 1
  {
    if niter + 1 != maxNiter {
      ContinueKeepsTrace(t, w, niter, eps, maxNiter, fuel, cancelY, eigen2, sqrt);
    }
  }

  lemma {:induction false} ContinueKeepsTrace(t: Bands, w: Window, niter: nat, eps: real,
                                              maxNiter: nat, fuel: nat,
                                              cancelY: Vec2 -> Option<Givens>,
                                              eigen2: (real, real, real) -> Vec2,
                                              sqrt: real -> real)
    requires Shaped(t) && w.start < w.end < |t.diag| && IsSqrt(sqrt)
    requires maxNiter > 0 ==> niter + 1 < maxNiter
    requires maxNiter == 0 ==> niter < fuel
    requires UnitRotations(cancelY) && SolvesBlock(eigen2)
    ensures var r := Continue(t, w, niter, eps, maxNiter, fuel, cancelY, eigen2, sqrt);
            r.0.Converged? ==> Sum(r.0.eigenvalues) == Sum(t.diag)
    decreases if maxNiter > 0 then maxNiter - niter else fuel - niter, 0
  {
    var step := Iterate(t, w, eps, cancelY, eigen2, sqrt);
    IterateKeepsTrace(t, w, eps, cancelY, eigen2, sqrt);
    IterationKeepsTrace(step.0, step.1, niter + 1, eps, maxNiter, fuel, cancelY, eigen2, sqrt);
  }

  /** The eigenvalues `try_new` returns sum to the trace of the tridiagonal form. */
  lemma DecomposeKeepsTrace(t: Bands, eps: real, maxNiter: nat, fuel: nat,
                            cancelY: Vec2 -> Option<Givens>, eigen2: (real, real, real) -> Vec2,
                            sqrt: real -> real)
    requires Shaped(t) && IsSqrt(sqrt) && UnitRotations(cancelY) && SolvesBlock(eigen2)
    ensures var r := Decompose(t, eps, maxNiter, fuel, cancelY, eigen2, sqrt);
            r.0.Converged? ==> Sum(r.0.eigenvalues) == Sum(t.diag)
  {
    var dim := |t.diag|;
    if dim > 1 {
      IterationKeepsTrace(Delimited(t, dim - 1, eps), Delimit(t, dim - 1, eps), 0, eps, maxNiter,
                          fuel, cancelY, eigen2, sqrt);
    }
  }

  /** One turn of the loop from a non-empty window with fuel left: one iteration,
      then the cap test, then the rest of the loop. */
  lemma IterationUnrolled(t: Bands, w: Window, niter: nat, eps: real, maxNiter: nat, fuel: nat,
                          cancelY: Vec2 -> Option<Givens>, eigen2: (real, real, real) -> Vec2,
                          sqrt: real -> real)
    requires Shaped(t) && w.start < w.end < |t.diag| && IsSqrt(sqrt)
    requires maxNiter > 0 ==> niter < maxNiter
    requires maxNiter == 0 ==> niter < fuel
    ensures var step := Iterate(t, w, eps, cancelY, eigen2, sqrt);
            Iteration(t, w, niter, eps, maxNiter, fuel, cancelY, eigen2, sqrt) ==
            if niter + 1 == maxNiter then (IterationLimit, niter + 1)
            else Iteration(step.0, step.1, niter + 1, eps, maxNiter, fuel, cancelY, eigen2, sqrt)
  {
    if niter + 1 != maxNiter {
      assert Iteration(t, w, niter, eps, maxNiter, fuel, cancelY, eigen2, sqrt) ==
             Continue(t, w, niter, eps, maxNiter, fuel, cancelY, eigen2, sqrt);
    }
  }

  /** The loop as written, against the loop with no cap and fuel enough to reach the
      cap: the capped run returns what the free run returns when that run converges
      in fewer than `maxNiter` passes, and `None` with count `maxNiter` otherwise. A
      run that needs exactly `maxNiter` passes is cut off by the cap. */
  lemma {:induction false} IterationAgainstUncapped(t: Bands, w: Window, niter: nat, eps: real,
                                                    maxNiter: nat, fuel: nat,
                                                    cancelY: Vec2 -> Option<Givens>,
                                                    eigen2: (real, real, real) -> Vec2,
                                                    sqrt: real -> real)
    requires Shaped(t) && w.start <= w.end < |t.diag| && IsSqrt(sqrt)
    requires niter < maxNiter <= fuel
    ensures var capped := Iteration(t, w, niter, eps, maxNiter, fuel, cancelY, eigen2, sqrt);
            var free := Iteration(t, w, niter, eps, 0, fuel, cancelY, eigen2, sqrt);
            if free.0.Converged? && free.1 < maxNiter then capped == free
            else capped == (IterationLimit, maxNiter)
    decreases maxNiter - niter
  {
    if w.start < w.end {
      var step := Iterate(t, w, eps, cancelY, eigen2, sqrt);
      IterationUnrolled(t, w, niter, eps, maxNiter, fuel, cancelY, eigen2, sqrt);
      IterationUnrolled(t, w, niter, eps, 0, fuel, cancelY, eigen2, sqrt);
      IterationCap(step.0, step.1, niter + 1, eps, 0, fuel, cancelY, eigen2, sqrt);
      if niter + 1 < maxNiter {
        IterationAgainstUncapped(step.0, step.1, niter + 1, eps, maxNiter, fuel, cancelY, eigen2, sqrt);
      }
    }
  }

  /** `try_new` as written, against `try_new` with no cap: the same result when the
      free run converges in fewer than `maxNiter` passes, `None` otherwise. */
  lemma DecomposeAgainstUncapped(t: Bands, eps: real, maxNiter: nat, fuel: nat,
                                 cancelY: Vec2 -> Option<Givens>, eigen2: (real, real, real) -> Vec2,
                                 sqrt: real -> real)
    requires Shaped(t) && IsSqrt(sqrt) && 0 < maxNiter <= fuel
    ensures var capped := Decompose(t, eps, maxNiter, fuel, cancelY, eigen2, sqrt);
            var free := Decompose(t, eps, 0, fuel, cancelY, eigen2, sqrt);
            if free.0.Converged? && free.1 < maxNiter then capped == free
            else capped == (IterationLimit, maxNiter)
  {
    var dim := |t.diag|;
    if dim > 1 {
      IterationAgainstUncapped(Delimited(t, dim - 1, eps), Delimit(t, dim - 1, eps), 0, eps,
                               maxNiter, fuel, cancelY, eigen2, sqrt);
    }
  }

  /** The loop with the cap as documented: `None` only when the window is still
      non-empty after `maxNiter` passes, so the cap is tested only while
      `end != start`. */
  function CheckedIteration(t: Bands, w: Window, niter: nat, eps: real, maxNiter: nat, fuel: nat,
                            cancelY: Vec2 -> Option<Givens>, eigen2: (real, real, real) -> Vec2,
                            sqrt: real -> real): (r: (Outcome, nat))
    requires Shaped(t) && w.start <= w.end < |t.diag| && IsSqrt(sqrt)
    requires maxNiter > 0 ==> niter <= maxNiter
    requires maxNiter == 0 ==> niter <= fuel
    decreases if maxNiter > 0 then maxNiter - niter else fuel - niter, 1
  {
    if w.end == w.start then (Converged(t.diag), niter)
    else if maxNiter > 0 && niter == maxNiter then (IterationLimit, niter)
    else if maxNiter == 0 && niter == fuel then (OutOfFuel, niter)
    else CheckedContinue(t, w, niter, eps, maxNiter, fuel, cancelY, eigen2, sqrt)
  }

  /** A pass below the cap of the documented loop: the iteration, then the loop with
      one more iteration counted. */
  function CheckedContinue(t: Bands, w: Window, niter: nat, eps: real, maxNiter: nat, fuel: nat,
                           cancelY: Vec2 -> Option<Givens>, eigen2: (real, real, real) -> Vec2,
                           sqrt: real -> real): (r: (Outcome, nat))
    requires Shaped(t) && w.start < w.end < |t.diag| && IsSqrt(sqrt)
    requires maxNiter > 0 ==> niter < maxNiter
    requires maxNiter == 0 ==> niter < fuel
    decreases if maxNiter > 0 then maxNiter - niter else fuel - niter, 0
  {
    var step := Iterate(t, w, eps, cancelY, eigen2, sqrt);
    CheckedIteration(step.0, step.1, niter + 1, eps, maxNiter, fuel, cancelY, eigen2, sqrt)
  }

  /** `try_new` with the cap as documented. */
  function DecomposeChecked(t: Bands, eps: real, maxNiter: nat, fuel: nat,
                            cancelY: Vec2 -> Option<Givens>, eigen2: (real, real, real) -> Vec2,
                            sqrt: real -> real): (r: (Outcome, nat))
    requires Shaped(t) && IsSqrt(sqrt)
  {
    var dim := |t.diag|;
    if dim == 1 then (Converged(t.diag), 0)
    else CheckedIteration(Delimited(t, dim - 1, eps), Delimit(t, dim - 1, eps), 0, eps, maxNiter,
                          fuel, cancelY, eigen2, sqrt)
  }

  /** The documented loop against the loop with no cap: the same result when the
      free run converges within `maxNiter` passes, `None` with count `maxNiter` only
      when it needs more. */
  lemma {:induction false} CheckedAgainstUncapped(t: Bands, w: Window, niter: nat, eps: real,
                                                  maxNiter: nat, fuel: nat,
                                                  cancelY: Vec2 -> Option<Givens>,
                                                  eigen2: (real, real, real) -> Vec2,
                                                  sqrt: real -> real)
    requires Shaped(t) && w.start <= w.end < |t.diag| && IsSqrt(sqrt)
    requires 0 < maxNiter && niter <= maxNiter <= fuel
    ensures var checked := CheckedIteration(t, w, niter, eps, maxNiter, fuel, cancelY, eigen2, sqrt);
            var free := Iteration(t, w, niter, eps, 0, fuel, cancelY, eigen2, sqrt);
            if free.0.Converged? && free.1 <= maxNiter then checked == free
            else checked == (IterationLimit, maxNiter)
    decreases maxNiter - niter
  {
    if w.start < w.end {
      if niter == maxNiter {
        if niter < fuel {
          AdvanceCap(t, w, niter, eps, 0, fuel, cancelY, eigen2, sqrt);
        }
      } else {
        var step := Iterate(t, w, eps, cancelY, eigen2, sqrt);
        IterationUnrolled(t, w, niter, eps, 0, fuel, cancelY, eigen2, sqrt);
        assert CheckedIteration(t, w, niter, eps, maxNiter, fuel, cancelY, eigen2, sqrt) ==
               CheckedIteration(step.0, step.1, niter + 1, eps, maxNiter, fuel, cancelY, eigen2, sqrt);
        CheckedAgainstUncapped(step.0, step.1, niter + 1, eps, maxNiter, fuel, cancelY, eigen2, sqrt);
      }
    }
  }

  /** `try_new` with the documented cap, against `try_new` with no cap. */
  lemma DecomposeCheckedAgainstUncapped(t: Bands, eps: real, maxNiter: nat, fuel: nat,
                                        cancelY: Vec2 -> Option<Givens>,
                                        eigen2: (real, real, real) -> Vec2, sqrt: real -> real)
    requires Shaped(t) && IsSqrt(sqrt) && 0 < maxNiter <= fuel
    ensures var checked := DecomposeChecked(t, eps, maxNiter, fuel, cancelY, eigen2, sqrt);
            var free := Decompose(t, eps, 0, fuel, cancelY, eigen2, sqrt);
            if free.0.Converged? && free.1 <= maxNiter then checked == free
            else checked == (IterationLimit, maxNiter)
  {
    var dim := |t.diag|;
    if dim > 1 {
      CheckedAgainstUncapped(Delimited(t, dim - 1, eps), Delimit(t, dim - 1, eps), 0, eps,
                             maxNiter, fuel, cancelY, eigen2, sqrt);
    }
  }

  /** A 2x2 matrix whose coupling is not negligible is solved by one pass, yet with
      `max_niter == 1` the loop as written returns `None`; the documented loop
      returns the eigenvalues, as the loop with no cap does. */
  lemma CapCutsOffConvergedPair(a: real, b: real, c: real, eps: real, fuel: nat,
                                cancelY: Vec2 -> Option<Givens>, eigen2: (real, real, real) -> Vec2,
                                sqrt: real -> real)
    requires IsSqrt(sqrt) && fuel >= 1 && Abs(c) > Tolerance(eps, b, a)
    ensures var t := Bands([a, b], [c]);
            var solved := (Converged(TwoByTwo(t, 0, eigen2).diag), 1);
            Decompose(t, eps, 0, fuel, cancelY, eigen2, sqrt) == solved &&
            Decompose(t, eps, 1, fuel, cancelY, eigen2, sqrt) == (IterationLimit, 1) &&
            DecomposeChecked(t, eps, 1, fuel, cancelY, eigen2, sqrt) == solved
  {
    var t := Bands([a, b], [c]);
    var w := Window(0, 1);
    assert !Negligible(t, 0, eps);
    assert Delimit(t, 1, eps) == w && Delimited(t, 1, eps) == t;
    var u := TwoByTwo(t, 0, eigen2);
    assert Reduce(t, w, eps, cancelY, eigen2, sqrt) == (u, 0);
    assert Iterate(t, w, eps, cancelY, eigen2, sqrt) == (u, Window(0, 0));
    IterationUnrolled(t, w, 0, eps, 0, fuel, cancelY, eigen2, sqrt);
    IterationUnrolled(t, w, 0, eps, 1, fuel, cancelY, eigen2, sqrt);
    assert Iteration(u, Window(0, 0), 1, eps, 0, fuel, cancelY, eigen2, sqrt) == (Converged(u.diag), 1);
    assert CheckedIteration(t, w, 0, eps, 1, fuel, cancelY, eigen2, sqrt) ==
           CheckedContinue(t, w, 0, eps, 1, fuel, cancelY, eigen2, sqrt);
    assert CheckedIteration(u, Window(0, 0), 1, eps, 1, fuel, cancelY, eigen2, sqrt) == (Converged(u.diag), 1);
  }

  /** The body of the `while end != start` loop of `try_new` before re-delimiting,
      in place: a sweep or the 2x2 closed form on the window
      `[start, end]`; the result is the lowered end. */
  method ReduceWindow(diag: array<real>, offDiag: array<real>, start: nat, end: nat, eps: real,
                      cancelY: Vec2 -> Option<Givens>, eigen2: (real, real, real) -> Vec2,
                      sqrt: real -> real)
    returns (lowered: nat)
    requires diag != offDiag && offDiag.Length + 1 == diag.Length && IsSqrt(sqrt)
    requires start < end < diag.Length
    modifies diag, offDiag
    ensures (Bands(diag[..], offDiag[..]), lowered) ==
            Reduce(old(Bands(diag[..], offDiag[..])), Window(start, end), eps, cancelY, eigen2, sqrt)
  {
    lowered := end;
    var subdim := end - start + 1;
    if subdim > 2 {
      var m, n := end - 1, end;
      Sweep(diag, offDiag, start, end, cancelY, sqrt);
      if Abs(offDiag[m]) <= Tolerance(eps, diag[m], diag[n]) {
        lowered := end - 1;
      }
    } else if subdim == 2 {
      var e := eigen2(diag[start], offDiag[start], diag[start + 1]);
      diag[start] := e.x;
      diag[start + 1] := e.y;
      lowered := end - 1;
    }
  }

  /** One pass of the loop body of `try_new`, in place: reduce the
      window `[start, end]`, then re-delimit up to the lowered end; the result is
      the new window. */
  method Step(diag: array<real>, offDiag: array<real>, start: nat, end: nat, eps: real,
              cancelY: Vec2 -> Option<Givens>, eigen2: (real, real, real) -> Vec2,
              sqrt: real -> real)
    returns (newStart: nat, newEnd: nat)
    requires diag != offDiag && offDiag.Length + 1 == diag.Length && IsSqrt(sqrt)
    requires start < end < diag.Length
    modifies diag, offDiag
    ensures (Bands(diag[..], offDiag[..]), Window(newStart, newEnd)) ==
            Iterate(old(Bands(diag[..], offDiag[..])), Window(start, end), eps, cancelY, eigen2, sqrt)
  {
    var lowered := ReduceWindow(diag, offDiag, start, end, eps, cancelY, eigen2, sqrt);
    newStart, newEnd := DelimitSubproblem(diag, offDiag, lowered, eps);
  }

  /** The `while end != start` loop of `try_new`, in place, from the
      window `[start, end]` with `niter` iterations done. The results are the
      outcome and the final iteration count. */
  method Run(diag: array<real>, offDiag: array<real>, start: nat, end: nat, niter: nat, eps: real,
             maxNiter: nat, fuel: nat, cancelY: Vec2 -> Option<Givens>,
             eigen2: (real, real, real) -> Vec2, sqrt: real -> real)
    returns (r: Outcome, count: nat)
    requires diag != offDiag && offDiag.Length + 1 == diag.Length && IsSqrt(sqrt)
    requires start <= end < diag.Length
    requires maxNiter > 0 ==> niter < maxNiter
    requires maxNiter == 0 ==> niter <= fuel
    modifies diag, offDiag
    ensures (r, count) == Iteration(old(Bands(diag[..], offDiag[..])), Window(start, end), niter,
                                    eps, maxNiter, fuel, cancelY, eigen2, sqrt)
  {
    ghost var result := Iteration(Bands(diag[..], offDiag[..]), Window(start, end), niter, eps,
                                  maxNiter, fuel, cancelY, eigen2, sqrt);
    var first: nat, last: nat := start, end;
    count := niter;
    while last != first
      invariant first <= last < diag.Length
      invariant maxNiter > 0 ==> count < maxNiter
      invariant maxNiter == 0 ==> count <= fuel
      invariant Iteration(Bands(diag[..], offDiag[..]), Window(first, last), count, eps, maxNiter,
                          fuel, cancelY, eigen2, sqrt) == result
      decreases if maxNiter > 0 then maxNiter - count else fuel - count
    {
      if maxNiter == 0 && count == fuel {
        return OutOfFuel, count;
      }
      ghost var t, w := Bands(diag[..], offDiag[..]), Window(first, last);
      IterationUnrolled(t, w, count, eps, maxNiter, fuel, cancelY, eigen2, sqrt);
      first, last := Step(diag, offDiag, first, last, eps, cancelY, eigen2, sqrt);
      count := count + 1;
      if count == maxNiter {
        return IterationLimit, count;
      }
    }
    r := Converged(diag[..]);
  }

  /** `try_new` on the tridiagonal form held in `diag` and `offDiag`, updating both
      in place. The result is the outcome and the number of iterations done. */
  method TryNew(diag: array<real>, offDiag: array<real>, eps: real, maxNiter: nat, fuel: nat,
                cancelY: Vec2 -> Option<Givens>, eigen2: (real, real, real) -> Vec2,
                sqrt: real -> real)
    returns (r: Outcome, niter: nat)
    requires diag != offDiag && offDiag.Length + 1 == diag.Length && IsSqrt(sqrt)
    modifies diag, offDiag
    ensures (r, niter) == Decompose(old(Bands(diag[..], offDiag[..])), eps, maxNiter, fuel,
                                    cancelY, eigen2, sqrt)
  {
    ghost var t0 := Bands(diag[..], offDiag[..]);
    var dim := diag.Length;
    if dim == 1 {
      return Converged(diag[..]), 0;
    }
    var start: nat, end: nat := DelimitSubproblem(diag, offDiag, dim - 1, eps);
    r, niter := Run(diag, offDiag, start, end, 0, eps, maxNiter, fuel, cancelY, eigen2, sqrt);
  }
}
