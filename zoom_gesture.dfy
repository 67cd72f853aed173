/**
  The ZoomGesture state machine: wheel and touch handlers that turn input
  events into a clamped zoom scale and notify the `change` subscribers.

  Handlers are methods called directly (the `.bind(this)` table and the
  DOM registration are host wiring). `Math.sqrt` is the constructor's
  `root` argument. Every call made to a subscriber is appended to the
  ghost `log`, so that what the `forEach` loops do can be stated.
*/
module Zoom {
  import opened Wrappers
  import opened Geometry
  import opened ScaleMath
  import opened Listeners

  /** The constructor options; the JavaScript defaults are DEFAULT_OPTIONS. */
  datatype Options = Options(
    initScale: real,
    wheelScaleSize: real,
    touchScaleSize: Option<real>,
    minScale: Option<real>,
    maxScale: Option<real>)

  /** `initScale = 1`, `wheelScaleSize = 300`, no touchScaleSize, `minScale = maxScale = null`. */
  const DEFAULT_OPTIONS: Options := Options(1.0, 300.0, None, None, None)

  datatype WheelEvent = WheelEvent(deltaY: real)

  /** `e.touches` (the touches now on the surface) and `e.changedTouches` (the ones this event is about). */
  datatype TouchEvent = TouchEvent(touches: seq<Touch>, changedTouches: seq<Touch>)

  /** How a handler returns: normally, or by the TypeError that a missing touch provokes. */
  datatype Completion = Normal | Threw(error: LookupError)

  class ZoomGesture {
    const wheelScaleSize: real
    const touchScaleSize: Option<real>
    const minScale: Option<real>
    const maxScale: Option<real>
    const root: real -> real

    var scale: real
    /** The identifiers of the pinch session, `[]` when no pinch is in progress. */
    var touchIds: seq<int>
    var touchStartDistance: real
    /** `undefined` in the source until the first pinch starts. */
    var touchStartScale: Option<real>
    /** `listeners.change`, in registration order. */
    var listeners: seq<Callback>

    /** Every subscriber call made so far, oldest first. */
    ghost var log: seq<Notification>

    /** The session invariant: no pinch, or a pinch of exactly two touches whose start scale is recorded. */
    ghost predicate Valid()
      reads this
    {
      && (|touchIds| == 0 || |touchIds| == 2)
      && (touchIds != [] ==> touchStartScale.Some?)
    }

    predicate BoundsOrdered()
      reads this
    {
      Ordered(minScale, maxScale)
    }

    predicate ScaleInBounds()
      reads this
    {
      Within(scale, minScale, maxScale)
    }

    /**
      A move over `touches` does not divide by zero: there is no session, a
      tracked touch is missing (the lookup throws before the division), or
      the pinch divisor is non-zero.
    */
    predicate MoveDefined(touches: seq<Touch>)
      reads this
    {
      || |touchIds| != 2
      || DistanceBetweenTouches(touches).Err?
      || PinchDefined(touchStartDistance, touchScaleSize)
    }

    constructor (options: Options, root: real -> real)
      ensures Valid()
      ensures scale == options.initScale
      ensures wheelScaleSize == options.wheelScaleSize && touchScaleSize == options.touchScaleSize
      ensures minScale == options.minScale && maxScale == options.maxScale
      ensures this.root == root
      ensures touchIds == [] && touchStartDistance == 0.0 && touchStartScale == None
      ensures listeners == [] && log == []
    {
      scale := options.initScale;
      wheelScaleSize := options.wheelScaleSize;
      touchScaleSize := options.touchScaleSize;
      minScale := options.minScale;
      maxScale := options.maxScale;
      this.root := root;
      touchIds := [];
      touchStartDistance := 0.0;
      touchStartScale := None;
      listeners := [];
      log := [];
    }

    /** Calls every `change` subscriber with the stored scale, in registration order. */
    method Notify()
      modifies this`log
      ensures log == old(log) + Broadcast(listeners, scale)
    {
      for i := 0 to |listeners|
        invariant log == old(log) + Broadcast(listeners[..i], scale)
      {
        assert listeners[..i + 1][..i] == listeners[..i];
        log := log + [Notification(listeners[i], scale)];
      }
      assert listeners[..|listeners|] == listeners;
    }

    /** Stores the clamped candidate and notifies every subscriber of it. */
    method UpdateScale(candidate: real)
      requires Valid()
      modifies this`scale, this`log
      ensures Valid()
      ensures scale == Clamp(candidate, minScale, maxScale)
      ensures BoundsOrdered() ==> ScaleInBounds()
      ensures log == old(log) + Broadcast(listeners, scale)
    {
      scale := Clamp(candidate, minScale, maxScale);
      Notify();
    }

    /** Stores `s` as it is, without clamping, and notifies every subscriber of it. */
    method SetScale(s: real)
      requires Valid()
      modifies this`scale, this`log
      ensures Valid()
      ensures scale == s
      ensures log == old(log) + Broadcast(listeners, s)
    {
      scale := s;
      Notify();
    }

    /** One wheel step: the wheel candidate, clamped and broadcast. */
    method OnWheel(e: WheelEvent)
      requires Valid()
      requires wheelScaleSize != 0.0
      modifies this`scale, this`log
      ensures Valid()
      ensures scale == Clamp(WheelCandidate(old(scale), e.deltaY, wheelScaleSize), minScale, maxScale)
      ensures BoundsOrdered() ==> ScaleInBounds()
      ensures log == old(log) + Broadcast(listeners, scale)
    {
      UpdateScale(WheelCandidate(scale, e.deltaY, wheelScaleSize));
    }

    /**
      Exactly two touches start a pinch session, recording their identifiers
      in list order, their distance and the current scale; any other count
      ends the session. Neither the scale nor the subscribers change.
    */
    method OnTouchStart(e: TouchEvent)
      requires Valid()
      modifies this`touchIds, this`touchStartDistance, this`touchStartScale
      ensures Valid()
      ensures |e.touches| != 2 ==> touchIds == []
      ensures |e.touches| != 2 ==> touchStartDistance == old(touchStartDistance) && touchStartScale == old(touchStartScale)
      ensures |e.touches| == 2 ==> touchIds == [e.touches[0].identifier, e.touches[1].identifier]
      ensures |e.touches| == 2 ==> touchStartScale == Some(scale)
      ensures |e.touches| == 2 ==> Distance(e.touches, touchIds[0], touchIds[1], root) == Ok(touchStartDistance)
      ensures |e.touches| == 2 && e.touches[0].identifier != e.touches[1].identifier ==>
        touchStartDistance == root(SquaredDistance(e.touches[0], e.touches[1]))
    {
      if |e.touches| != 2 {
        touchIds := [];
        return;
      }
      touchIds := [e.touches[0].identifier, e.touches[1].identifier];
      var first := e.touches[0];
      var second := e.touches[1];
      assert first in e.touches && second in e.touches;
      var distance := DistanceBetweenTouches(e.touches);
      assert distance.Ok?;
      if first.identifier != second.identifier {
        assert FindTouch(e.touches, first.identifier) == Some(first);
        assert FindFrom(e.touches, second.identifier, 0) == FindFrom(e.touches, second.identifier, 1);
        assert FindTouch(e.touches, second.identifier) == Some(second);
      }
      touchStartDistance := distance.value;
      touchStartScale := Some(scale);
    }

    /**
      touchend and touchcancel: while a session exists, any event that
      reports a changed touch ends it, whichever identifiers it carries.
    */
    method OnTouchEnd(e: TouchEvent)
      requires Valid()
      modifies this`touchIds
      ensures Valid()
      ensures old(touchIds) == [] ==> touchIds == []
      ensures old(touchIds) != [] && |e.changedTouches| > 0 ==> touchIds == []
      ensures |e.changedTouches| == 0 ==> touchIds == old(touchIds)
    {
      if |touchIds| != 2 {
        return;
      }
      var idsToRemove := seq(|e.changedTouches|, i requires 0 <= i < |e.changedTouches| => e.changedTouches[i].identifier);
      if |idsToRemove| > 0 {
        touchIds := [];
      }
    }

    /**
      During a session, the pinch candidate for the current distance of the
      two tracked touches is clamped and broadcast; without a session nothing
      happens; a tracked touch missing from `touches` throws before any change.
    */
    method OnTouchMove(e: TouchEvent) returns (completion: Completion)
      requires Valid()
      requires MoveDefined(e.touches)
      modifies this`scale, this`log
      ensures Valid()
      ensures touchIds == [] ==> completion == Normal && scale == old(scale) && log == old(log)
      ensures touchIds != [] && DistanceBetweenTouches(e.touches).Err? ==>
        completion == Threw(TouchNotFound) && scale == old(scale) && log == old(log)
      ensures touchIds != [] && DistanceBetweenTouches(e.touches).Ok? ==>
        && completion == Normal
        && scale == Clamp(PinchCandidate(touchStartScale.value, touchStartDistance, DistanceBetweenTouches(e.touches).value, touchScaleSize), minScale, maxScale)
        && log == old(log) + Broadcast(listeners, scale)
      ensures BoundsOrdered() && old(ScaleInBounds()) ==> ScaleInBounds()
    {
      if touchIds == [] {
        return Normal;
      }
      var currentDistance := DistanceBetweenTouches(e.touches);
      if currentDistance.Err? {
        return Threw(currentDistance.error);
      }
      var resultScale := PinchCandidate(touchStartScale.value, touchStartDistance, currentDistance.value, touchScaleSize);
      UpdateScale(resultScale);
      return Normal;
    }

    /**
      getDistanceBetweenTouches: the distance between the touches that carry
      the two tracked identifiers, found by identifier and not by position;
      an error when either is missing.
    */
    function DistanceBetweenTouches(touches: seq<Touch>): (r: Result<real, LookupError>)
      reads this
      requires |touchIds| == 2
      ensures r.Ok? <==> HasTouch(touches, touchIds[0]) && HasTouch(touches, touchIds[1])
      ensures r.Ok? && IsSquareRoot(root) ==> 0.0 <= r.value
    {
      Distance(touches, touchIds[0], touchIds[1], root)
    }

    /** `on`: appends the callback for `change` (duplicates allowed); other names are ignored. */
    method On(event: string, callback: Callback)
      requires Valid()
      modifies this`listeners
      ensures Valid()
      ensures IsKnownEvent(event) ==> listeners == old(listeners) + [callback]
      ensures !IsKnownEvent(event) ==> listeners == old(listeners)
    {
      if !IsKnownEvent(event) {
        return;
      }
      listeners := listeners + [callback];
    }

    /** `off`: removes every occurrence of the callback for `change`; other names are ignored. */
    method Off(event: string, callback: Callback)
      requires Valid()
      modifies this`listeners
      ensures Valid()
      ensures IsKnownEvent(event) ==> listeners == Without(old(listeners), callback)
      ensures !IsKnownEvent(event) ==> listeners == old(listeners)
    {
      if !IsKnownEvent(event) {
        return;
      }
      listeners := Without(listeners, callback);
    }
  }
}
