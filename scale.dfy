/**
  The scale arithmetic of the gesture: the wheel and pinch candidate
  formulas (onWheel, onTouchMove) and the min/max clamp of updateScale.

  A bound is `Some(b)` when the option holds a number and `None` otherwise
  (the default `null`, which fails the `typeof ... === 'number'` test).
*/
module ScaleMath {
  import opened Wrappers

  predicate AtLeast(x: real, minScale: Option<real>) {
    minScale.Some? ==> minScale.value <= x
  }

  predicate AtMost(x: real, maxScale: Option<real>) {
    maxScale.Some? ==> x <= maxScale.value
  }

  /** `x` satisfies every bound that is configured. */
  predicate Within(x: real, minScale: Option<real>, maxScale: Option<real>) {
    AtLeast(x, minScale) && AtMost(x, maxScale)
  }

  /** The bounds leave room for some scale: both configured implies min <= max. */
  predicate Ordered(minScale: Option<real>, maxScale: Option<real>) {
    minScale.Some? && maxScale.Some? ==> minScale.value <= maxScale.value
  }

  /**
    updateScale's bound check: the minimum is tested first, the maximum only
    when the minimum did not apply.
  */
  function Clamp(candidate: real, minScale: Option<real>, maxScale: Option<real>): (r: real)
    ensures Ordered(minScale, maxScale) ==> Within(r, minScale, maxScale)
    ensures Within(candidate, minScale, maxScale) ==> r == candidate
    ensures r == candidate || (minScale.Some? && r == minScale.value) || (maxScale.Some? && r == maxScale.value)
  {
    if minScale.Some? && candidate < minScale.value then minScale.value
    else if maxScale.Some? && candidate > maxScale.value then maxScale.value
    else candidate
  }

  /** With ordered bounds the clamped value is the in-bounds scale nearest to the candidate. */
  lemma ClampIsNearest(candidate: real, minScale: Option<real>, maxScale: Option<real>, other: real)
    requires Ordered(minScale, maxScale)
    requires Within(other, minScale, maxScale)
    ensures Gap(Clamp(candidate, minScale, maxScale), candidate) <= Gap(other, candidate)
  {
  }

  /** The absolute difference of two scales. */
  function Gap(x: real, y: real): real {
    if x <= y then y - x else x - y
  }

  /** With ordered bounds, a larger candidate never gives a smaller scale. */
  lemma ClampMonotone(c1: real, c2: real, minScale: Option<real>, maxScale: Option<real>)
    requires Ordered(minScale, maxScale)
    requires c1 <= c2
    ensures Clamp(c1, minScale, maxScale) <= Clamp(c2, minScale, maxScale)
  {
  }

  /** With ordered bounds, clamping twice is clamping once. */
  lemma ClampIdempotent(candidate: real, minScale: Option<real>, maxScale: Option<real>)
    requires Ordered(minScale, maxScale)
    ensures Clamp(Clamp(candidate, minScale, maxScale), minScale, maxScale) == Clamp(candidate, minScale, maxScale)
  {
  }

  /**
    With inverted bounds (min > max) a candidate below the minimum still
    becomes the minimum, which lies above the maximum: the minimum test wins.
  */
  lemma ClampInvertedMinWins(candidate: real, minScale: real, maxScale: real)
    requires maxScale < minScale && candidate < minScale
    ensures Clamp(candidate, Some(minScale), Some(maxScale)) == minScale
    ensures !Within(Clamp(candidate, Some(minScale), Some(maxScale)), Some(minScale), Some(maxScale))
  {
  }

  /**
    onWheel's candidate `scale + -deltaY / wheelScaleSize`: the step, scaled
    back by the divisor, is the negated wheel delta.
  */
  function WheelCandidate(scale: real, deltaY: real, wheelScaleSize: real): (r: real)
    requires wheelScaleSize != 0.0
    ensures (r - scale) * wheelScaleSize == -deltaY
  {
    scale + -deltaY / wheelScaleSize
  }

  /** With a positive divisor, scrolling down (positive deltaY) zooms out, up zooms in, and no delta changes nothing. */
  lemma WheelDirection(scale: real, deltaY: real, wheelScaleSize: real)
    requires 0.0 < wheelScaleSize
    ensures WheelCandidate(scale, deltaY, wheelScaleSize) < scale <==> 0.0 < deltaY
    ensures WheelCandidate(scale, deltaY, wheelScaleSize) > scale <==> deltaY < 0.0
    ensures WheelCandidate(scale, deltaY, wheelScaleSize) == scale <==> deltaY == 0.0
  {
  }

  /** `if (this.touchScaleSize)`: the option is a number other than zero (NaN is not modelled). */
  predicate Truthy(touchScaleSize: Option<real>) {
    touchScaleSize.Some? && touchScaleSize.value != 0.0
  }

  /** The divisor of the pinch formula: touchScaleSize when truthy, else the start distance. */
  function PinchDivisor(startDistance: real, touchScaleSize: Option<real>): real {
    if Truthy(touchScaleSize) then touchScaleSize.value else startDistance
  }

  /** The pinch formula divides by a non-zero number (the source does not guard the start distance). */
  predicate PinchDefined(startDistance: real, touchScaleSize: Option<real>) {
    PinchDivisor(startDistance, touchScaleSize) != 0.0
  }

  /**
    onTouchMove's candidate: `startScale + (d - d0) / d0`, or
    `startScale + (d - d0) / touchScaleSize` when touchScaleSize is truthy.
    The change of scale, scaled back by the divisor, is the change of distance.
    (The source computes the ratio first and discards it when touchScaleSize
    is truthy; the model does not evaluate the discarded quotient.)
  */
  function PinchCandidate(startScale: real, startDistance: real, currentDistance: real, touchScaleSize: Option<real>): (r: real)
    requires PinchDefined(startDistance, touchScaleSize)
    ensures (r - startScale) * PinchDivisor(startDistance, touchScaleSize) == currentDistance - startDistance
  {
    if Truthy(touchScaleSize) then startScale + (currentDistance - startDistance) / touchScaleSize.value
    else startScale + (currentDistance - startDistance) / startDistance
  }

  /** Not moving the fingers gives back the start scale; with a positive divisor, spreading zooms in and pinching zooms out. */
  lemma PinchDirection(startScale: real, startDistance: real, currentDistance: real, touchScaleSize: Option<real>)
    requires 0.0 < PinchDivisor(startDistance, touchScaleSize)
    ensures PinchCandidate(startScale, startDistance, currentDistance, touchScaleSize) == startScale <==> currentDistance == startDistance
    ensures PinchCandidate(startScale, startDistance, currentDistance, touchScaleSize) > startScale <==> currentDistance > startDistance
    ensures PinchCandidate(startScale, startDistance, currentDistance, touchScaleSize) < startScale <==> currentDistance < startDistance
  {
  }
}
