/** Locating the active window of the QR iteration: the trailing converged part of
    the off-diagonal is skipped, then the unreduced block above it is bounded by
    the nearest decoupling entry, which is flushed to zero. */
module Deflation {
  import opened Primitives
  import opened Tridiagonal

  /** The trailing scan: from `end` down, the first `n` whose coupling `off[n - 1]`
      is not negligible, or 0. */
  function TrailingBound(t: Bands, end: nat, eps: real): (n: nat)
    requires Shaped(t) && end <= |t.off|
    ensures n <= end
    decreases end
  {
    if end == 0 then 0
    else if !Negligible(t, end - 1, eps) then end
    else TrailingBound(t, end - 1, eps)
  }

  /** The trailing scan stops at the least `n <= end` such that every `off[k]` with
      `n <= k < end` is negligible. */
  lemma {:induction false} TrailingBoundMeets(t: Bands, end: nat, eps: real)
    requires Shaped(t) && end <= |t.off|
    ensures var n := TrailingBound(t, end, eps);
            (forall k :: n <= k < end ==> Negligible(t, k, eps)) &&
            (n > 0 ==> !Negligible(t, n - 1, eps))
    decreases end
  {
    if end > 0 && Negligible(t, end - 1, eps) {
      TrailingBoundMeets(t, end - 1, eps);
    }
  }

  /** The leading scan: from `s` down, the first `r` whose coupling `off[r - 1]`
      decouples, or 0. */
  function LeadingBound(t: Bands, s: nat, eps: real): (r: nat)
    requires Shaped(t) && s <= |t.off|
    ensures r <= s
    decreases s
  {
    if s == 0 then 0
    else if Decoupled(t, s - 1, eps) then s
    else LeadingBound(t, s - 1, eps)
  }

  /** The leading scan stops at the least `r <= s` such that no `off[k]` with
      `r <= k < s` decouples its neighbours. */
  lemma {:induction false} LeadingBoundMeets(t: Bands, s: nat, eps: real)
    requires Shaped(t) && s <= |t.off|
    ensures var r := LeadingBound(t, s, eps);
            (forall k :: r <= k < s ==> !Decoupled(t, k, eps)) &&
            (r > 0 ==> Decoupled(t, r - 1, eps))
    decreases s
  {
    if s > 0 && !Decoupled(t, s - 1, eps) {
      LeadingBoundMeets(t, s - 1, eps);
    }
  }

  /** What a window returned for the leading `end + 1` rows means, independently
      of how it is found: either everything there has converged and the window is
      (0, 0), or `end'` is the last unconverged coupling, everything after it up
      to `end` is negligible, and `start` is the first row of the unreduced block
      ending at `end'`. */
  predicate IsDelimitation(t: Bands, end: nat, eps: real, w: Window)
    requires Shaped(t) && end <= |t.off|
  {
    (w == Window(0, 0) && forall k :: 0 <= k < end ==> Negligible(t, k, eps)) ||
    (w.start < w.end <= end &&
     !Negligible(t, w.end - 1, eps) &&
     (forall k :: w.end <= k < end ==> Negligible(t, k, eps)) &&
     (forall k :: w.start <= k < w.end - 1 ==> !Decoupled(t, k, eps)) &&
     (w.start > 0 ==> Decoupled(t, w.start - 1, eps)))
  }

  /** The window `delimit_subproblem` returns. */
  function Delimit(t: Bands, end: nat, eps: real): (w: Window)
    requires Shaped(t) && end <= |t.off|
    ensures w.start <= w.end <= end
    ensures w.end > 0 ==> w.start < w.end
  {
    var n := TrailingBound(t, end, eps);
    if n == 0 then Window(0, 0) else Window(LeadingBound(t, n - 1, eps), n)
  }

  /** The window found meets the description, and it is (0, 0) exactly when every
      coupling up to `end` is negligible. */
  lemma DelimitMeets(t: Bands, end: nat, eps: real)
    requires Shaped(t) && end <= |t.off|
    ensures IsDelimitation(t, end, eps, Delimit(t, end, eps))
    ensures Delimit(t, end, eps) == Window(0, 0) <==> forall k :: 0 <= k < end ==> Negligible(t, k, eps)
  {
    var n := TrailingBound(t, end, eps);
    TrailingBoundMeets(t, end, eps);
    if n > 0 {
      LeadingBoundMeets(t, n - 1, eps);
    }
  }

  /** The state `delimit_subproblem` leaves. */
  function Delimited(t: Bands, end: nat, eps: real): (u: Bands)
    requires Shaped(t) && end <= |t.off|
    ensures Shaped(u) && u.diag == t.diag && |u.off| == |t.off|
  {
    var w := Delimit(t, end, eps);
    if w.start > 0 then Bands(t.diag, t.off[w.start - 1 := 0.0]) else t
  }

  /** The diagonal is untouched and, of the off-diagonal, only the entry above the
      window, if any, changes, to zero. */
  lemma DelimitedChanges(t: Bands, end: nat, eps: real)
    requires Shaped(t) && end <= |t.off|
    ensures var w, u := Delimit(t, end, eps), Delimited(t, end, eps);
            (w.start > 0 ==> u.off[w.start - 1] == 0.0) &&
            forall k :: 0 <= k < |u.off| && k + 1 != w.start ==> u.off[k] == t.off[k]
  {
  }

  /** Only one window meets the description: the scans find the unique one. */
  lemma DelimitationUnique(t: Bands, end: nat, eps: real, w: Window)
    requires Shaped(t) && end <= |t.off|
    requires IsDelimitation(t, end, eps, w)
    ensures w == Delimit(t, end, eps)
  {
    var v := Delimit(t, end, eps);
    DelimitMeets(t, end, eps);
    assert w.end == v.end;
    assert w.start == v.start;
  }

  /** Delimiting again after a delimitation finds the same window and changes
      nothing more: the re-delimitation in the iteration is stable. */
  lemma DelimitIdempotent(t: Bands, end: nat, eps: real)
    requires Shaped(t) && end <= |t.off|
    ensures Delimit(Delimited(t, end, eps), end, eps) == Delimit(t, end, eps)
    ensures Delimited(Delimited(t, end, eps), end, eps) == Delimited(t, end, eps)
  {
    var w := Delimit(t, end, eps);
    var u := Delimited(t, end, eps);
    DelimitMeets(t, end, eps);
    DelimitedChanges(t, end, eps);
    forall k | 0 <= k < |t.off| && k + 1 != w.start
      ensures Negligible(u, k, eps) == Negligible(t, k, eps)
      ensures Decoupled(u, k, eps) == Decoupled(t, k, eps)
    {
      SameCoupling(t, u, k, eps);
    }
    assert IsDelimitation(u, end, eps, w);
    DelimitationUnique(u, end, eps, w);
    if w.start > 0 {
      assert u.off[w.start - 1 := 0.0] == u.off;
    }
  }

  lemma SameCoupling(t: Bands, u: Bands, k: nat, eps: real)
    requires Shaped(t) && Shaped(u) && t.diag == u.diag
    requires k < |t.off| && k < |u.off| && t.off[k] == u.off[k]
    ensures Negligible(u, k, eps) == Negligible(t, k, eps)
    ensures Decoupled(u, k, eps) == Decoupled(t, k, eps)
  {
  }

  /** `delimit_subproblem` on the diagonal `diag` and off-diagonal `offDiag`, for
      the leading `end + 1` rows. */
  method DelimitSubproblem(diag: array<real>, offDiag: array<real>, end: nat, eps: real)
    returns (start: nat, stop: nat)
    requires diag != offDiag
    requires offDiag.Length + 1 == diag.Length && end <= offDiag.Length
    modifies offDiag
    ensures Window(start, stop) == Delimit(Bands(diag[..], old(offDiag[..])), end, eps)
    ensures Bands(diag[..], offDiag[..]) == Delimited(Bands(diag[..], old(offDiag[..])), end, eps)
  {
    ghost var t := Bands(diag[..], offDiag[..]);
    var n: nat := end;
    while n > 0
      invariant n <= end
      invariant TrailingBound(t, n, eps) == TrailingBound(t, end, eps)
    {
      var m := n - 1;
      if Abs(offDiag[m]) > Tolerance(eps, diag[n], diag[m]) {
        assert !Negligible(t, m, eps);
        break;
      }
      n := m;
    }
    assert n == TrailingBound(t, end, eps);
    if n == 0 {
      return 0, 0;
    }
    var newStart: nat := n - 1;
    while newStart > 0
      invariant newStart <= n - 1
      invariant LeadingBound(t, newStart, eps) == LeadingBound(t, n - 1, eps)
      invariant offDiag[..] == t.off
    {
      var m := newStart - 1;
      if offDiag[m] == 0.0 || Abs(offDiag[m]) <= Tolerance(eps, diag[newStart], diag[m]) {
        assert Decoupled(t, m, eps);
        offDiag[m] := 0.0;
        assert offDiag[..] == t.off[m := 0.0];
        break;
      }
      newStart := m;
    }
    return newStart, n;
  }
}
