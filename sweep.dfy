/** One implicit-shift QR sweep over an active window of at least three rows: a
    bulge is introduced at the top of the window by the Wilkinson shift and chased
    down to the bottom with Givens rotations. The accumulation of the rotations
    into the eigenvector matrix is not part of this model. */
module QrSweep {
  import opened Primitives
  import opened Tridiagonal
  import opened Shift

  /** The vector the first rotation of a sweep over `[start, end]` cancels: the top
      row's offset from the shift, which is the eigenvalue of the trailing 2x2 block
      nearest its last diagonal entry, and the top coupling. */
  function Seed(t: Bands, start: nat, end: nat, sqrt: real -> real): (v: Vec2)
    requires Shaped(t) && start < end < |t.diag| && IsSqrt(sqrt)
    ensures var m := end - 1;
            IsEigenvalue(t.diag[m], t.diag[end], t.off[m], t.diag[start] - v.x) &&
            forall mu :: IsEigenvalue(t.diag[m], t.diag[end], t.off[m], mu) ==>
              Abs(t.diag[start] - v.x - t.diag[end]) <= Abs(mu - t.diag[end])
  {
    Vec2(t.diag[start] - WilkinsonShift(t.diag[end - 1], t.diag[end], t.off[end - 1], sqrt),
         t.off[start])
  }

  /** A rotation is a proper Givens rotation when its cosine and sine lie on the
      unit circle. */
  predicate IsUnit(g: Givens)
  {
    Sq(g.cos) + Sq(g.sin) == 1.0
  }

  /** `cancel_y` only ever yields proper rotations. */
  ghost predicate UnitRotations(cancelY: Vec2 -> Option<Givens>)
  {
    forall v :: cancelY(v).Some? ==> IsUnit(cancelY(v).value)
  }

  /** The entries a rotation `g` leaves in the 2x2 block [[mii, mij], [mij, mjj]]:
      its two diagonal entries and its coupling. */
  function RotatedHead(g: Givens, mii: real, mjj: real, mij: real): real
  {
    (Sq(g.cos) * mii + Sq(g.sin) * mjj) - g.cos * g.sin * 2.0 * mij
  }

  function RotatedTail(g: Givens, mii: real, mjj: real, mij: real): real
  {
    (Sq(g.sin) * mii + Sq(g.cos) * mjj) + g.cos * g.sin * 2.0 * mij
  }

  function RotatedCoupling(g: Givens, mii: real, mjj: real, mij: real): real
  {
    g.cos * g.sin * (mii - mjj) + mij * (Sq(g.cos) - Sq(g.sin))
  }

  /** Chasing the bulge one row down: the next coupling loses the factor `cos` and
      the sine part of it becomes the new bulge. */
  function ChasedCoupling(g: Givens, next: real): real
  {
    next * g.cos
  }

  function NextBulge(g: Givens, next: real): real
  {
    -g.sin * next
  }

  /** Step `i` of a sweep over `[start, end]` with the rotation `g` that cancels the
      current bulge vector `v`: the new bands, and the next bulge vector. */
  function RotateAt(t: Bands, start: nat, end: nat, i: nat, g: Givens, v: Vec2): (r: (Bands, Vec2))
    requires Shaped(t) && start <= i < end < |t.diag|
    ensures Shaped(r.0) && |r.0.diag| == |t.diag|
  {
    var j := i + 1;
    var off1 := if i > start then t.off[i - 1 := g.norm] else t.off;
    var mii, mjj, mij := t.diag[i], t.diag[j], off1[i];
    var diag := t.diag[i := RotatedHead(g, mii, mjj, mij)][j := RotatedTail(g, mii, mjj, mij)];
    var off2 := off1[i := RotatedCoupling(g, mii, mjj, mij)];
    if i != end - 1 then
      (Bands(diag, off2[i + 1 := ChasedCoupling(g, off2[i + 1])]), Vec2(off2[i], NextBulge(g, off2[i + 1])))
    else
      (Bands(diag, off2), v)
  }

  /** A step writes the diagonal at rows `i` and `i + 1` only, the off-diagonal at
      `i - 1` (inside the window), `i` and `i + 1` (inside the window) only, and at
      the last step hands the bulge vector on unchanged. */
  lemma RotateAtFrame(t: Bands, start: nat, end: nat, i: nat, g: Givens, v: Vec2)
    requires Shaped(t) && start <= i < end < |t.diag|
    ensures var r := RotateAt(t, start, end, i, g, v);
            (forall k :: 0 <= k < |t.diag| && k != i && k != i + 1 ==> r.0.diag[k] == t.diag[k]) &&
            (forall k :: 0 <= k < |t.off| && (k < start || k + 1 < i || k > i + 1 || k >= end) ==>
               r.0.off[k] == t.off[k]) &&
            (i + 1 == end ==> r.1 == v)
  {
  }

  /** The sweep from step `i` on: the rotations of steps `i .. end - 1` in turn,
      stopping at the first vector `cancel_y` declines. Only the window changes:
      the diagonal in `[i, end]` and the off-diagonal in `[start, end)`, and of
      the latter nothing below `i - 1`. */
  function SweepFrom(t: Bands, start: nat, end: nat, i: nat, v: Vec2,
                     cancelY: Vec2 -> Option<Givens>): (u: Bands)
    requires Shaped(t) && start <= i <= end < |t.diag|
    ensures Shaped(u) && |u.diag| == |t.diag|
    decreases end - i, 1
  {
    if i == end then t
    else match cancelY(v)
      case None => t
      case Some(g) => SweepOn(t, start, end, i, g, v, cancelY)
  }

  /** The sweep from step `i` on, once `cancel_y` has yielded the rotation `g` for
      the bulge vector `v`: that rotation, then the sweep from step `i + 1`. */
  function SweepOn(t: Bands, start: nat, end: nat, i: nat, g: Givens, v: Vec2,
                   cancelY: Vec2 -> Option<Givens>): (u: Bands)
    requires Shaped(t) && start <= i < end < |t.diag|
    ensures Shaped(u) && |u.diag| == |t.diag|
    decreases end - i, 0
  {
    var r := RotateAt(t, start, end, i, g, v);
    SweepFrom(r.0, start, end, i + 1, r.1, cancelY)
  }

  /** The whole sweep over `[start, end]`, seeded by the Wilkinson shift of the
      trailing 2x2 block. */
  function SweepWindow(t: Bands, start: nat, end: nat, cancelY: Vec2 -> Option<Givens>,
                       sqrt: real -> real): (u: Bands)
    requires Shaped(t) && start < end < |t.diag| && IsSqrt(sqrt)
    ensures Shaped(u) && |u.diag| == |t.diag|
  {
    SweepFrom(t, start, end, start, Seed(t, start, end, sqrt), cancelY)
  }

  /** Only the window changes: from step `i` on, the diagonal in `[i, end]` and the
      off-diagonal in `[start, end)`, and of the latter nothing below `i - 1`. */
  lemma {:induction false} SweepFromFrame(t: Bands, start: nat, end: nat, i: nat, v: Vec2,
                                          cancelY: Vec2 -> Option<Givens>)
    requires Shaped(t) && start <= i <= end < |t.diag|
    ensures var u := SweepFrom(t, start, end, i, v, cancelY);
            (forall k :: 0 <= k < |t.diag| && (k < i || k > end) ==> u.diag[k] == t.diag[k]) &&
            (forall k :: 0 <= k < |t.off| && (k < start || k + 1 < i || k >= end) ==> u.off[k] == t.off[k])
    decreases end - i
  {
    if i < end && cancelY(v).Some? {
      var g := cancelY(v).value;
      var r := RotateAt(t, start, end, i, g, v);
      RotateAtFrame(t, start, end, i, g, v);
      SweepFromFrame(r.0, start, end, i + 1, r.1, cancelY);
    }
  }

  /** A sweep writes nothing outside its window `[start, end]`. */
  lemma SweepWindowFrame(t: Bands, start: nat, end: nat, cancelY: Vec2 -> Option<Givens>,
                         sqrt: real -> real)
    requires Shaped(t) && start < end < |t.diag| && IsSqrt(sqrt)
    ensures var u := SweepWindow(t, start, end, cancelY, sqrt);
            (forall k :: 0 <= k < |t.diag| && (k < start || k > end) ==> u.diag[k] == t.diag[k]) &&
            (forall k :: 0 <= k < |t.off| && (k < start || k >= end) ==> u.off[k] == t.off[k])
  {
    SweepFromFrame(t, start, end, start, Seed(t, start, end, sqrt), cancelY);
  }

  /** A step the rotation `g` takes: the sweep from step `i` is the sweep from step
      `i + 1` after that rotation. */
  lemma SweepFromUnrolled(t: Bands, start: nat, end: nat, i: nat, v: Vec2, g: Givens,
                          cancelY: Vec2 -> Option<Givens>)
    requires Shaped(t) && start <= i < end < |t.diag| && cancelY(v) == Some(g)
    ensures var r := RotateAt(t, start, end, i, g, v);
            SweepFrom(t, start, end, i, v, cancelY) == SweepFrom(r.0, start, end, i + 1, r.1, cancelY)
  {
  }

  /** The sweep stops at the first vector `cancel_y` declines: nothing from that
      step on changes. */
  lemma SweepStopsWhenDeclined(t: Bands, start: nat, end: nat, i: nat, v: Vec2,
                               cancelY: Vec2 -> Option<Givens>)
    requires Shaped(t) && start <= i < end < |t.diag| && cancelY(v).None?
    ensures SweepFrom(t, start, end, i, v, cancelY) == t
  {
  }

  /** A proper rotation keeps the sum of the two diagonal entries it mixes. */
  lemma RotationKeepsPairSum(g: Givens, mii: real, mjj: real, mij: real)
    requires IsUnit(g)
    ensures RotatedHead(g, mii, mjj, mij) + RotatedTail(g, mii, mjj, mij) == mii + mjj
  {
    var cc, ss, b := Sq(g.cos), Sq(g.sin), g.cos * g.sin * 2.0 * mij;
    assert cc * mii + ss * mii == (cc + ss) * mii;
    assert ss * mjj + cc * mjj == (cc + ss) * mjj;
  }

  /** So a proper rotation step keeps the trace. */
  lemma RotateAtKeepsTrace(t: Bands, start: nat, end: nat, i: nat, g: Givens, v: Vec2)
    requires Shaped(t) && start <= i < end < |t.diag| && IsUnit(g)
    ensures Sum(RotateAt(t, start, end, i, g, v).0.diag) == Sum(t.diag)
  {
    var mii, mjj, mij := t.diag[i], t.diag[i + 1], t.off[i];
    var head, tail := RotatedHead(g, mii, mjj, mij), RotatedTail(g, mii, mjj, mij);
    assert RotateAt(t, start, end, i, g, v).0.diag == t.diag[i := head][i + 1 := tail];
    RotationKeepsPairSum(g, mii, mjj, mij);
    SumOfPairUpdate(t.diag, i, head, tail);
  }

  /** A sweep whose rotations are proper keeps the trace of the matrix. */
  lemma {:induction false} SweepKeepsTrace(t: Bands, start: nat, end: nat, i: nat, v: Vec2,
                                           cancelY: Vec2 -> Option<Givens>)
    requires Shaped(t) && start <= i <= end < |t.diag| && UnitRotations(cancelY)
    ensures Sum(SweepFrom(t, start, end, i, v, cancelY).diag) == Sum(t.diag)
    decreases end - i
  {
    if i < end && cancelY(v).Some? {
      var g := cancelY(v).value;
      var r := RotateAt(t, start, end, i, g, v);
      RotateAtKeepsTrace(t, start, end, i, g, v);
      SweepKeepsTrace(r.0, start, end, i + 1, r.1, cancelY);
    }
  }

  /** One step of the sweep, in place: the rotation
      `g` applied at row `i`; the result is the next bulge vector. */
  method RotationStep(diag: array<real>, offDiag: array<real>, start: nat, end: nat, i: nat,
                      g: Givens, v: Vec2) returns (next: Vec2)
    requires diag != offDiag && offDiag.Length + 1 == diag.Length
    requires start <= i < end < diag.Length
    modifies diag, offDiag
    ensures (Bands(diag[..], offDiag[..]), next) == RotateAt(old(Bands(diag[..], offDiag[..])), start, end, i, g, v)
  {
    ghost var before := Bands(diag[..], offDiag[..]);
    var j := i + 1;
    if i > start {
      offDiag[i - 1] := g.norm;
    }
    ghost var off1 := offDiag[..];
    assert off1 == if i > start then before.off[i - 1 := g.norm] else before.off;
    var mii, mjj, mij := diag[i], diag[j], offDiag[i];
    diag[i] := RotatedHead(g, mii, mjj, mij);
    diag[j] := RotatedTail(g, mii, mjj, mij);
    assert diag[..] == before.diag[i := RotatedHead(g, mii, mjj, mij)][j := RotatedTail(g, mii, mjj, mij)];
    offDiag[i] := RotatedCoupling(g, mii, mjj, mij);
    ghost var off2 := offDiag[..];
    assert off2 == off1[i := RotatedCoupling(g, mii, mjj, mij)];
    next := v;
    if i != end - 1 {
      next := Vec2(offDiag[i], NextBulge(g, offDiag[i + 1]));
      offDiag[i + 1] := ChasedCoupling(g, offDiag[i + 1]);
      assert offDiag[..] == off2[i + 1 := ChasedCoupling(g, off2[i + 1])];
    }
  }

  /** The bulge chase of `try_new`, in place on `diag` and
      `offDiag`: the rotations of steps `start .. end - 1` from the bulge vector
      `v`, stopping at the first vector `cancel_y` declines. */
  method Chase(diag: array<real>, offDiag: array<real>, start: nat, end: nat, v: Vec2,
               cancelY: Vec2 -> Option<Givens>)
    requires diag != offDiag && offDiag.Length + 1 == diag.Length
    requires start <= end < diag.Length
    modifies diag, offDiag
    ensures Bands(diag[..], offDiag[..]) == SweepFrom(old(Bands(diag[..], offDiag[..])), start, end, start, v, cancelY)
  {
    ghost var goal := SweepFrom(Bands(diag[..], offDiag[..]), start, end, start, v, cancelY);
    var bulge := v;
    for i := start to end
      invariant SweepFrom(Bands(diag[..], offDiag[..]), start, end, i, bulge, cancelY) == goal
    {
      match cancelY(bulge) {
        case None =>
          break;
        case Some(g) =>
          ghost var t := Bands(diag[..], offDiag[..]);
          SweepFromUnrolled(t, start, end, i, bulge, g, cancelY);
          ghost var r := RotateAt(t, start, end, i, g, bulge);
          bulge := RotationStep(diag, offDiag, start, end, i, g, bulge);
          assert Bands(diag[..], offDiag[..]) == r.0 && bulge == r.1;
      }
    }
  }

  /** The sweep of `try_new`, in place on `diag` and `offDiag`, over
      the window `[start, end]` of at least three rows: the seed from the Wilkinson
      shift, then the chase. */
  method Sweep(diag: array<real>, offDiag: array<real>, start: nat, end: nat,
               cancelY: Vec2 -> Option<Givens>, sqrt: real -> real)
    requires diag != offDiag && offDiag.Length + 1 == diag.Length
    requires start + 2 <= end < diag.Length && IsSqrt(sqrt)
    modifies diag, offDiag
    ensures Bands(diag[..], offDiag[..]) == SweepWindow(old(Bands(diag[..], offDiag[..])), start, end, cancelY, sqrt)
  {
    ghost var t0 := Bands(diag[..], offDiag[..]);
    var m, n := end - 1, end;
    var v := Vec2(diag[start] - WilkinsonShift(diag[m], diag[n], offDiag[m], sqrt), offDiag[start]);
    assert v == Seed(t0, start, end, sqrt);
    Chase(diag, offDiag, start, end, v, cancelY);
  }
}
