# Symmetric tridiagonal QR iteration (nalgebra `SymmetricEigen`)

This project models the core of nalgebra's symmetric eigendecomposition,
`src/linalg/symmetric_eigen.rs`:

- `delimit_subproblem`: the deflation scan. It finds the active window `(start, end)`
  of the tridiagonal form and flushes the coupling just above that window to zero.
- The window control of `try_new`:
  - the 1x1 early return;
  - the dispatch on the window size: an implicit-shift QR sweep that chases a bulge
    with Givens rotations, or the closed-form 2x2 solution;
  - the lowering of `end`;
  - re-delimitation after every pass;
  - the global iteration cap `max_niter`.
- `wilkinson_shift`: the eigenvalue of the trailing 2x2 block nearest its corner entry.

Every scalar is a `real`, so there is no rounding. Three external routines are
parameters of the model:

- `cancel_y` is `Vec2 -> Option<Givens>`;
- `Matrix2::eigenvalues` is `(m11, m12, m22) -> Vec2`;
- the square root is `real -> real`, constrained by `IsSqrt`.

Some properties hold only when those parameters behave:

- the trace lemmas assume that `cancel_y` yields unit rotations (`UnitRotations`);
- they also assume that the 2x2 routine returns true eigenvalues (`SolvesBlock`).

The structure follows the source:

- `Tridiagonal` holds the bands, windows and negligibility tests.
- `Deflation` holds `delimit_subproblem`: the spec functions `Delimit` and
  `Delimited`, the description `IsDelimitation`, and the in-place method
  `DelimitSubproblem`.
- `Shift` holds `wilkinson_shift` and the source's shift tests.
- `QrSweep` holds the sweep. The pure `SweepFrom` and `SweepWindow` sit beside the
  in-place methods `RotationStep`, `Chase` and `Sweep`.
- `SymmetricEigen` holds the driver:
  - the pure `Reduce`, `Iterate`, `Iteration` and `Decompose`;
  - the in-place methods `ReduceWindow`, `Step`, `Run` and `TryNew`;
  - `CheckedIteration` and `DecomposeChecked`, the loop with the cap as documented
    (see "## Findings").

`Iteration`, `Advance`, `Continue`, `Decompose`, `CheckedIteration`, `CheckedContinue`
and `DecomposeChecked` carry no contract of their own: their rows in "## Model" name
the lemmas that state their properties.

Each method is proved equal to its pure counterpart, and the properties are lemmas
about the pure functions.

The `while end != start` loop of `try_new` is written as three mutually recursive
functions:

- `Iteration` tests for an empty window;
- `Advance` counts the pass and applies the cap;
- `Continue` performs one pass (`Iterate`) and recurses.

With `max_niter == 0` the source loop need not terminate. The model bounds it by a
`fuel` count and reports `OutOfFuel` when the fuel is spent.

## Model

| member | source | states |
|---|---|---|
| Primitives.Signum | src/linalg/symmetric_eigen.rs:232 | the sign used in the shift is +1 or -1, and it is +1 exactly for non-negative arguments (zero counts as positive) |
| Primitives.Abs | src/linalg/symmetric_eigen.rs:180 | `.abs()` of a scalar, as used in the convergence tests (lines 124, 180 and 196): the result is non-negative and is `x` or `-x` |
| Tridiagonal.Tolerance | src/linalg/symmetric_eigen.rs:180 | the threshold `eps * (abs(a) + abs(b))` of the convergence tests at lines 124, 180 and 196. It has no contract of its own; it is used by `Tridiagonal.Negligible` |
| Tridiagonal.Negligible | src/linalg/symmetric_eigen.rs:180 | the convergence test `abs(off_diag[m]) <= eps * (abs(diag[m + 1]) + abs(diag[m]))`, shared by the first scan and by the test after a sweep (line 124). It is a predicate with no contract; `Deflation.TrailingBoundMeets` and `SymmetricEigen.Reduce` state what follows from it |
| Tridiagonal.ZeroCouplingNegligible | src/linalg/symmetric_eigen.rs:180 | with a non-negative `eps`, a zero coupling passes the convergence test |
| Tridiagonal.Decoupled | src/linalg/symmetric_eigen.rs:195-196 | the split test of the second scan: the coupling is exactly zero or negligible. It is a predicate with no contract; `Deflation.LeadingBoundMeets` states what follows from it |
| Deflation.TrailingBound | src/linalg/symmetric_eigen.rs:175-185 | the first scan never moves past `end` |
| Deflation.TrailingBoundMeets | src/linalg/symmetric_eigen.rs:175-185 | the first scan stops at the least `n` such that every coupling in `[n, end)` is negligible; when `n > 0`, coupling `n - 1` is not negligible |
| Deflation.LeadingBound | src/linalg/symmetric_eigen.rs:191-202 | the second scan never moves past its start `n - 1` |
| Deflation.LeadingBoundMeets | src/linalg/symmetric_eigen.rs:191-202 | the second scan stops at the least `s` such that no coupling in `[s, n - 1)` is zero or negligible; when `s > 0`, coupling `s - 1` is zero or negligible |
| Deflation.Delimit | src/linalg/symmetric_eigen.rs:175-204 | the window returned satisfies `start <= end' <= end`, and is never `(s, s)` with `s > 0` |
| Deflation.DelimitMeets | src/linalg/symmetric_eigen.rs:175-204 | the window is `(0, 0)` exactly when every coupling below `end` is negligible; otherwise `s < n <= end`, coupling `n - 1` is not negligible, those in `[n, end)` are, none in `[s, n - 1)` is zero or negligible, and coupling `s - 1` is when `s > 0` |
| Deflation.DelimitationUnique | src/linalg/symmetric_eigen.rs:167-205 | only one window meets that description, so it characterises `delimit_subproblem`'s result independently of the scans |
| Deflation.Delimited | src/linalg/symmetric_eigen.rs:167-170 | the diagonal, a shared borrow, is left as it was, and the off-diagonal keeps its length |
| Deflation.DelimitedChanges | src/linalg/symmetric_eigen.rs:195-198 | after the call `off_diag[s - 1] == 0` when `s > 0`; every other off-diagonal entry is unchanged |
| Deflation.DelimitIdempotent | src/linalg/symmetric_eigen.rs:145-149 | delimiting again after a delimitation finds the same window and changes nothing more |
| Deflation.DelimitSubproblem | src/linalg/symmetric_eigen.rs:167-205 | the two in-place scans return `Delimit` of the input and leave the arrays as `Delimited` describes |
| Shift.WilkinsonShift | src/linalg/symmetric_eigen.rs:221-237 | the shift is an eigenvalue of [[tmm, tmn], [tmn, tnn]], and no eigenvalue of that block is nearer `tnn` |
| Shift.ShiftDenominator | src/linalg/symmetric_eigen.rs:229-232 | when `tmn != 0`, the denominator `d + signum(d) * sqrt(d^2 + tmn^2)` is nonzero and has the sign of `signum(d)` |
| Shift.ShiftQuotient | src/linalg/symmetric_eigen.rs:232 | the quotient `tmn^2 / (d + signum(d) * root)` equals `signum(d) * root - d` |
| Shift.ShiftClosedForm | src/linalg/symmetric_eigen.rs:228-233 | when `tmn != 0`, the shift equals `(tmm + tnn) / 2 - signum(d) * sqrt(d^2 + tmn^2)` |
| Shift.EigenvaluesOfBlock | src/linalg/symmetric_eigen.rs:221-226 | every eigenvalue of the block is its mean diagonal plus or minus the root |
| Shift.HalfGapBound | src/linalg/symmetric_eigen.rs:231-232 | `abs(d)` never exceeds `sqrt(d^2 + tmn^2)` |
| Shift.NearestEigenvalue | src/linalg/symmetric_eigen.rs:221-233 | the closed form is an eigenvalue, and the one nearest `tnn` |
| Shift.ShiftOfDiagonalBlock | src/linalg/symmetric_eigen.rs:234-236 | `wilkinson_shift(tmm, tnn, 0) == tnn`. This covers the tests `wilkinson_shift_zero` (lines 266-271) and `wilkinson_shift_zero_diag_diff_and_zero_off_diagonal` (lines 295-300) |
| Shift.ShiftOfZeroDiagonal | src/linalg/symmetric_eigen.rs:274-279 | the shift of [[0, 42], [42, 0]] is -42 |
| Shift.ShiftOfZeroOffDiagonal | src/linalg/symmetric_eigen.rs:281-286 | the shift of [[42, 0], [0, 64]] is 64 |
| Shift.ShiftOfZeroTrace | src/linalg/symmetric_eigen.rs:288-293 | the shift of [[42, 20], [20, -42]] is `-sqrt(2164)`, the eigenvalue on the side of -42 |
| Shift.ShiftOfZeroDeterminant | src/linalg/symmetric_eigen.rs:302-307 | the shift of [[2, 4], [4, 8]] is 10 |
| QrSweep.Seed | src/linalg/symmetric_eigen.rs:80-85 | the first bulge vector's first component is `diag[start]` minus an eigenvalue of the trailing block `[end - 1, end]`, and no eigenvalue of that block is nearer `diag[end]` |
| QrSweep.RotatedHead | src/linalg/symmetric_eigen.rs:101-107 | the new `diag[i]`, `(c^2 * mii + s^2 * mjj) - 2cs * mij`. It has no contract of its own; `QrSweep.RotationKeepsPairSum` states its property |
| QrSweep.RotatedTail | src/linalg/symmetric_eigen.rs:101-108 | the new `diag[i + 1]`, `(s^2 * mii + c^2 * mjj) + 2cs * mij`. It has no contract of its own; `QrSweep.RotationKeepsPairSum` states its property |
| QrSweep.RotatedCoupling | src/linalg/symmetric_eigen.rs:101-109 | the new `off_diag[i]`, `cs * (mii - mjj) + mij * (c^2 - s^2)`. It has no contract of its own; `QrSweep.RotateAtFrame` places the write |
| QrSweep.ChasedCoupling | src/linalg/symmetric_eigen.rs:114 | the next coupling after the bulge moves down, `off_diag[i + 1] * cos`. It has no contract of its own; `QrSweep.RotateAtFrame` places the write at `i + 1`, inside the window |
| QrSweep.NextBulge | src/linalg/symmetric_eigen.rs:113 | the second component of the next bulge vector, `-sin * off_diag[i + 1]`. It has no contract of its own; it is used by `QrSweep.RotateAt`, and `QrSweep.RotateAtFrame` states that at the last step it is not produced and the vector passes on unchanged |
| QrSweep.RotateAt | src/linalg/symmetric_eigen.rs:91-115 | one rotation step keeps the tridiagonal shape and the lengths of both bands |
| QrSweep.RotateAtFrame | src/linalg/symmetric_eigen.rs:92-115 | step `i` writes the diagonal only at `i` and `i + 1`, and the off-diagonal only at `i - 1`, `i` and `i + 1` inside the window; at its last step it hands the bulge vector on unchanged |
| QrSweep.SweepFrom | src/linalg/symmetric_eigen.rs:88-122 | the sweep from step `i` keeps the tridiagonal shape and the band lengths |
| QrSweep.SweepOn | src/linalg/symmetric_eigen.rs:91-118 | a step that `cancel_y` accepts, followed by the rest of the sweep, keeps the shape and the band lengths |
| QrSweep.SweepWindow | src/linalg/symmetric_eigen.rs:79-122 | a whole sweep keeps the shape and the band lengths |
| QrSweep.SweepFromFrame | src/linalg/symmetric_eigen.rs:88-122 | from step `i` on, the sweep writes the diagonal only in `[i, end]` and the off-diagonal only in `[max(start, i - 1), end)` |
| QrSweep.SweepWindowFrame | src/linalg/symmetric_eigen.rs:79-122 | a sweep over `[start, end]` writes only `diag[start..=end]` and `off_diag[start..end]` |
| QrSweep.SweepFromUnrolled | src/linalg/symmetric_eigen.rs:88-118 | the step equation of the loop, which `QrSweep.Chase` uses to keep its loop invariant: when `cancel_y` yields a rotation, the sweep from step `i` is that rotation followed by the sweep from step `i + 1`. It is one unfolding of `SweepFrom`, not a further property |
| QrSweep.SweepStopsWhenDeclined | src/linalg/symmetric_eigen.rs:119-121 | the stop equation of the loop, the `break`: from the first vector `cancel_y` declines, nothing changes. It is one unfolding of `SweepFrom`, not a further property |
| QrSweep.RotationKeepsPairSum | src/linalg/symmetric_eigen.rs:101-108 | a unit rotation keeps `diag[i] + diag[i + 1]` |
| QrSweep.RotateAtKeepsTrace | src/linalg/symmetric_eigen.rs:97-108 | a step with a unit rotation keeps the trace |
| QrSweep.SweepKeepsTrace | src/linalg/symmetric_eigen.rs:88-122 | a sweep whose rotations are all unit keeps the trace |
| QrSweep.RotationStep | src/linalg/symmetric_eigen.rs:91-115 | the in-place step leaves the bands `RotateAt` describes and returns its next bulge vector |
| QrSweep.Chase | src/linalg/symmetric_eigen.rs:88-122 | the in-place `for` loop with its early `break` leaves the bands `SweepFrom` describes |
| QrSweep.Sweep | src/linalg/symmetric_eigen.rs:79-122 | the in-place sweep, seeded by the Wilkinson shift, leaves the bands `SweepWindow` describes |
| SymmetricEigen.TwoByTwo | src/linalg/symmetric_eigen.rs:128-136 | the 2x2 branch keeps the shape and leaves the off-diagonal untouched |
| SymmetricEigen.TwoByTwoSolves | src/linalg/symmetric_eigen.rs:129-136 | with an exact 2x2 solver, the two new diagonal entries are eigenvalues of the old window, the trace is kept, and no other diagonal entry changes |
| SymmetricEigen.Reduce | src/linalg/symmetric_eigen.rs:77-143 | the 2x2 branch lowers `end` by exactly one; the sweep branch lowers it by at most one, and lowers it exactly when coupling `end - 1` has become negligible |
| SymmetricEigen.ReduceFrame | src/linalg/symmetric_eigen.rs:77-143 | the loop body writes the diagonal only inside `[start, end]` and the off-diagonal only inside `[start, end)` |
| SymmetricEigen.Iterate | src/linalg/symmetric_eigen.rs:77-149 | after a pass and its re-delimitation, the new window's end is no greater than the old one |
| SymmetricEigen.IterateFrame | src/linalg/symmetric_eigen.rs:77-149 | a pass leaves the converged rows after the window alone |
| SymmetricEigen.Iteration | src/linalg/symmetric_eigen.rs:76-155 | the `while end != start` loop from a window with `niter` passes done: the eigenvalues once the window is empty, otherwise one more counted pass; with no cap, `OutOfFuel` once the fuel is spent. It has no contract of its own; `SymmetricEigen.IterationCap`, `SymmetricEigen.IterationKeepsTrace`, `SymmetricEigen.IterationUnrolled` and `SymmetricEigen.IterationAgainstUncapped` state its properties |
| SymmetricEigen.Advance | src/linalg/symmetric_eigen.rs:151-154 | a pass on a non-empty window, as far as the count goes: `None` when the incremented count reaches `max_niter`, whatever the pass did; otherwise the pass goes on. It has no contract of its own; `SymmetricEigen.AdvanceCap` and `SymmetricEigen.AdvanceKeepsTrace` state its properties |
| SymmetricEigen.Continue | src/linalg/symmetric_eigen.rs:145-151 | a pass below the cap: `Iterate`, then the loop with the count one higher. It has no contract of its own; `SymmetricEigen.ContinueCap` and `SymmetricEigen.ContinueKeepsTrace` state its properties |
| SymmetricEigen.Decompose | src/linalg/symmetric_eigen.rs:64-155 | `try_new` on the tridiagonal form: a 1x1 matrix returns at once, otherwise the loop runs from the first delimited window. It has no contract of its own; `SymmetricEigen.DecomposeCap`, `SymmetricEigen.DecomposeKeepsTrace`, `SymmetricEigen.DecomposeDiagonal` and `SymmetricEigen.DecomposeAgainstUncapped` state its properties |
| SymmetricEigen.CheckedIteration | src/linalg/symmetric_eigen.rs:46-48 | the loop with the cap as documented: the eigenvalues once the window is empty, and `None` only when the window is still non-empty after `max_niter` passes. It has no contract of its own; `SymmetricEigen.CheckedAgainstUncapped` states its property |
| SymmetricEigen.CheckedContinue | src/linalg/symmetric_eigen.rs:145-151 | a pass below the documented cap: `Iterate`, then `CheckedIteration` with the count one higher. It has no contract of its own; `SymmetricEigen.CheckedAgainstUncapped` covers it |
| SymmetricEigen.DecomposeChecked | src/linalg/symmetric_eigen.rs:46-74 | `try_new` with the documented cap. It has no contract of its own; `SymmetricEigen.DecomposeCheckedAgainstUncapped` states its property |
| SymmetricEigen.DecomposeDiagonal | src/linalg/symmetric_eigen.rs:73-76 | with `eps >= 0`, a matrix whose off-diagonal is all zero is delimited to `(0, 0)` at once, never enters the loop, and returns its diagonal unchanged, in the original order, with count 0. The first scan (line 180) has no zero test, so with a negative `eps` a zero coupling between diagonal entries that are not both zero is not negligible, and the loop may be entered |
| SymmetricEigen.IterationUnrolled | src/linalg/symmetric_eigen.rs:145-154 | a pass on a non-empty window is one iteration, then the cap test, then the rest of the loop with the count one higher |
| SymmetricEigen.IterationCap | src/linalg/symmetric_eigen.rs:151-154 | the loop never reports a count past the cap; it returns `None` exactly when the count reaches a nonzero cap; with no cap, it stops before the fuel is spent only by converging; converged eigenvalues number as many as the rows |
| SymmetricEigen.AdvanceCap | src/linalg/symmetric_eigen.rs:151-154 | a counted pass raises the count and keeps it accounted against the cap |
| SymmetricEigen.ContinueCap | src/linalg/symmetric_eigen.rs:145-154 | a pass below the cap, followed by the rest of the loop, keeps the count accounted |
| SymmetricEigen.DecomposeCap | src/linalg/symmetric_eigen.rs:64-154 | `try_new` returns `None` exactly when its count reaches a nonzero `max_niter`, and never when `max_niter == 0`; a 1x1 matrix returns its entry without iterating |
| SymmetricEigen.IterationAgainstUncapped | src/linalg/symmetric_eigen.rs:145-155 | against the loop with no cap, the loop with cap `M` returns the same result when the uncapped run converges in fewer than `M` passes, and `None` with count `M` otherwise, including a run that converges in exactly `M` passes |
| SymmetricEigen.DecomposeAgainstUncapped | src/linalg/symmetric_eigen.rs:64-155 | the same comparison for `try_new` as a whole |
| SymmetricEigen.CapCutsOffConvergedPair | src/linalg/symmetric_eigen.rs:128-154 | one pass solves a 2x2 matrix whose coupling is not negligible, yet with `max_niter == 1` the code returns `None`. The uncapped loop and the documented loop both return the eigenvalues |
| SymmetricEigen.CheckedAgainstUncapped | src/linalg/symmetric_eigen.rs:46-48 | the loop with the cap as documented returns what the uncapped loop returns when that run converges within `M` passes, and `None` with count `M` only when it needs more |
| SymmetricEigen.DecomposeCheckedAgainstUncapped | src/linalg/symmetric_eigen.rs:46-48 | the same comparison for `try_new` with the documented cap |
| SymmetricEigen.IterateKeepsTrace | src/linalg/symmetric_eigen.rs:77-149 | with exact primitives, a pass keeps the trace |
| SymmetricEigen.IterationKeepsTrace | src/linalg/symmetric_eigen.rs:76-155 | converged eigenvalues sum to the trace of the window's starting bands |
| SymmetricEigen.AdvanceKeepsTrace | src/linalg/symmetric_eigen.rs:77-154 | the same for a counted pass |
| SymmetricEigen.ContinueKeepsTrace | src/linalg/symmetric_eigen.rs:77-154 | the same for a pass below the cap |
| SymmetricEigen.DecomposeKeepsTrace | src/linalg/symmetric_eigen.rs:64-163 | the eigenvalues `try_new` returns sum to the trace of the tridiagonal form |
| SymmetricEigen.ReduceWindow | src/linalg/symmetric_eigen.rs:77-143 | the in-place loop body leaves the bands and the lowered end that `Reduce` describes |
| SymmetricEigen.Step | src/linalg/symmetric_eigen.rs:77-149 | the in-place pass leaves the bands and the window that `Iterate` describes |
| SymmetricEigen.Run | src/linalg/symmetric_eigen.rs:73-155 | the in-place `while end != start` loop returns the outcome and count that `Iteration` describes |
| SymmetricEigen.TryNew | src/linalg/symmetric_eigen.rs:49-165 | the in-place `try_new` on the tridiagonal form returns the outcome and count that `Decompose` describes |

## Findings

| source | as written | input that shows it | evidently intended | confidence | as-written member | corrected member |
|---|---|---|---|---|---|---|
| src/linalg/symmetric_eigen.rs:151-154 | each pass is counted, and `None` is returned as soon as the count equals `max_niter`, even when that pass has just emptied the window | a 2x2 matrix whose off-diagonal entry is not negligible, with `max_niter = 1`: one pass solves it, yet `try_new` returns `None` | lines 46-48 say `None` comes only when `max_niter` iterations are exceeded, so a run that converges within `max_niter` passes should return its eigenvalues; the cap should be tested only while `end != start` | medium; not executed | SymmetricEigen.CapCutsOffConvergedPair, SymmetricEigen.IterationAgainstUncapped | SymmetricEigen.CheckedAgainstUncapped, SymmetricEigen.DecomposeCheckedAgainstUncapped |

The in-place methods `Run` and `TryNew` keep the code as written. The documented
behaviour is the pure loop `CheckedIteration` and `DecomposeChecked`.

## Left out

- SymmetricEigen.TryNew: with `max_niter == 0` the source loop runs until it
  converges, which it need not do. The model stops after `fuel` passes and returns
  `OutOfFuel`, which the source has no counterpart for. The same fuel bound applies
  to `SymmetricEigen.Run` and `SymmetricEigen.Iteration`.
- Convergence and accuracy of the QR iteration: the model states neither.
- The eigenvector matrix `q` is not modelled, so the model omits:
  - its rotations (lines 117 and 137-140);
  - `rot.inverse()`, `rotate_rows` and `try_normalize`.
- Normalisation by `m.amax()` and the final rescaling (lines 56-60, 65 and 157) are
  not modelled: they only multiply by a scalar. The model starts from the bands.
- `SymmetricTridiagonal::new(m).unpack()` (line 62) is not part of this model. Its
  output is the arbitrary pair of arrays passed in, with `offDiag.Length + 1 == diag.Length`.
- `givens::cancel_y`, `Matrix2::eigenvalues` and `sqrt` are external. They are
  function parameters, with the properties the lemmas need stated as predicates.
- `Matrix2::eigenvalues` is modelled as total, so the `unwrap` panic at line 131 is
  not modelled.
- The non-square `assert!` (line 53) is not modelled: the input is already in the
  shape of a square matrix's bands.
- `dim == 0` is excluded by the shape requirement. On such input the source would
  compute `dim - 1` on a `usize`.
- Floating point is not modelled:
  - there is no rounding;
  - there is no `-0.0`, so `signum` of zero is +1;
  - `wilkinson_shift_random` (lines 253-264) checks the shift numerically on random
    matrices, and the model replaces that with the general nearest-eigenvalue
    contract of `Shift.WilkinsonShift`.
- `new` (lines 31-36) is `try_new` with the default epsilon and `max_niter == 0`,
  then an `unwrap`. It is not modelled separately.
- `recompose` (lines 210-218) is a dense matrix product and is not part of this model.
