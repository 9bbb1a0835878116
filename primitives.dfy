/** Scalar helpers and the shapes of the external routines the QR iteration calls.
    Every scalar of the source is modelled as a `real` (no rounding). */
module Primitives {

  datatype Option<T> = None | Some(value: T)

  /** A 2-vector, as `Vector2` in the source. */
  datatype Vec2 = Vec2(x: real, y: real)

  /** What a successful `givens::cancel_y` yields: the rotation (by its cosine and
      sine) and the norm left in the first component. */
  datatype Givens = Givens(cos: real, sin: real, norm: real)

  function Abs(x: real): (r: real)
    ensures r >= 0.0 && (r == x || r == -x)
  {
    if x < 0.0 then -x else x
  }

  /** The sign of a real, with the sign of zero taken as +1. */
  function Signum(x: real): (r: real)
    ensures r == 1.0 || r == -1.0
    ensures r == 1.0 <==> x >= 0.0
  {
    if x >= 0.0 then 1.0 else -1.0
  }

  /** The square of `x`. The second factor is written `Same(x)` so that the solver
      keeps the product as one of two terms instead of a power, which its
      arithmetic handles incompletely. */
  function Sq(x: real): real
  {
    x * Same(x)
  }

  /** The identity. It is a proof device for `Sq` only and has no meaning in the
      model. */
  function Same(x: real): real
  {
    x
  }

  /** `sqrt` behaves as the square root on the non-negative reals. */
  ghost predicate IsSqrt(sqrt: real -> real)
  {
    forall x :: x >= 0.0 ==> sqrt(x) >= 0.0 && Sq(sqrt(x)) == x
  }
}
