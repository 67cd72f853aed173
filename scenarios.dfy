/**
  Client checks: each method drives a ZoomGesture through a short event
  sequence and asserts what the contracts of the handlers promise. Nothing
  here is executed; the verifier proves the assertions from the contracts.
*/
module Scenarios {
  import opened Wrappers
  import opened Geometry
  import opened ScaleMath
  import opened Listeners
  import opened Zoom

  /** A wheel step of deltaY = -300 with divisor 300 asks for scale 2, clamped to a maximum of 1.5. */
  method WheelStepIsClamped(root: real -> real)
  {
    var g := new ZoomGesture(Options(1.0, 300.0, None, None, Some(1.5)), root);
    var viewer := Callback(1);
    g.On(CHANGE_EVENT, viewer);
    g.OnWheel(WheelEvent(-300.0));
    assert g.scale == 1.5;
    assert g.log == [Notification(viewer, 1.5)];
    g.OnWheel(WheelEvent(150.0));
    assert g.scale == 1.0;
  }

  /** A pinch from 100 to 150 pixels apart, touches reordered, gives 1 + 50/100. */
  method PinchByRatio(root: real -> real)
    requires IsSquareRoot(root)
  {
    RootOfSquare(root, 100.0);
    RootOfSquare(root, 150.0);
    var g := new ZoomGesture(DEFAULT_OPTIONS, root);
    var a := Touch(7, 0.0, 0.0);
    var b := Touch(9, 100.0, 0.0);
    assert SquaredDistance(a, b) == 10000.0;
    g.OnTouchStart(TouchEvent([a, b], [a, b]));
    assert g.touchIds == [7, 9] && g.touchStartDistance == 100.0;
    var b' := Touch(9, 150.0, 0.0);
    var moved := [b', a];
    assert FindTouch(moved, 7) == Some(a) by {
      assert FindFrom(moved, 7, 0) == FindFrom(moved, 7, 1) == Some(1);
    }
    assert FindTouch(moved, 9) == Some(b');
    assert SquaredDistance(a, b') == 22500.0;
    assert g.DistanceBetweenTouches(moved) == Ok(150.0);
    var done := g.OnTouchMove(TouchEvent(moved, [b']));
    assert PinchCandidate(1.0, 100.0, 150.0, None) == 1.5;
    assert done == Normal && g.scale == 1.5;
  }

  /** With touchScaleSize 200 the same spread of 50 pixels adds 50/200. */
  method PinchByDivisor(root: real -> real)
    requires IsSquareRoot(root)
  {
    RootOfSquare(root, 100.0);
    RootOfSquare(root, 150.0);
    var g := new ZoomGesture(Options(2.0, 300.0, Some(200.0), None, None), root);
    var a := Touch(1, 0.0, 0.0);
    var b := Touch(2, 0.0, 100.0);
    assert SquaredDistance(a, b) == 10000.0;
    g.OnTouchStart(TouchEvent([a, b], [b]));
    assert g.touchIds == [1, 2] && g.touchStartDistance == 100.0;
    var b' := Touch(2, 0.0, 150.0);
    var moved := [a, b'];
    assert FindTouch(moved, 1) == Some(a);
    assert FindTouch(moved, 2) == Some(b') by {
      assert FindFrom(moved, 2, 0) == FindFrom(moved, 2, 1) == Some(1);
    }
    assert SquaredDistance(a, b') == 22500.0;
    assert g.DistanceBetweenTouches(moved) == Ok(150.0);
    var done := g.OnTouchMove(TouchEvent(moved, [b']));
    assert PinchCandidate(2.0, 100.0, 150.0, Some(200.0)) == 2.25;
    assert done == Normal && g.scale == 2.25;
  }

  /** Ending one finger of a pinch ends the session: a later move of the other finger notifies nobody. */
  method EndedPinchIgnoresMoves(root: real -> real)
  {
    var g := new ZoomGesture(DEFAULT_OPTIONS, root);
    g.On(CHANGE_EVENT, Callback(1));
    var a := Touch(1, 0.0, 0.0);
    var b := Touch(2, 30.0, 40.0);
    g.OnTouchStart(TouchEvent([a, b], [a, b]));
    g.OnTouchEnd(TouchEvent([b], [a]));
    assert g.touchIds == [];
    var done := g.OnTouchMove(TouchEvent([Touch(2, 60.0, 80.0)], [Touch(2, 60.0, 80.0)]));
    assert done == Normal && g.scale == 1.0 && g.log == [];
  }

  /** A move whose touches lack a tracked identifier throws and changes nothing. */
  method MissingTouchThrows(root: real -> real)
    requires IsSquareRoot(root)
  {
    RootOfSquare(root, 100.0);
    var g := new ZoomGesture(DEFAULT_OPTIONS, root);
    var a := Touch(1, 0.0, 0.0);
    var b := Touch(2, 100.0, 0.0);
    g.OnTouchStart(TouchEvent([a, b], [a, b]));
    var c := Touch(3, 10.0, 10.0);
    assert !HasTouch([b, c], 1);
    var done := g.OnTouchMove(TouchEvent([b, c], [b]));
    assert done == Threw(TouchNotFound) && g.scale == 1.0 && g.touchIds == [1, 2];
  }

  /** setScale stores its argument unclamped, and the same argument twice broadcasts the same scale twice. */
  method SetScaleTwice(root: real -> real)
  {
    var g := new ZoomGesture(Options(1.0, 300.0, None, Some(0.5), Some(3.0)), root);
    var viewer := Callback(4);
    g.On(CHANGE_EVENT, viewer);
    g.SetScale(5.0);
    g.SetScale(5.0);
    assert g.scale == 5.0;
    assert g.log == [Notification(viewer, 5.0), Notification(viewer, 5.0)];
  }

  /** Subscriptions to an unknown event name are ignored; duplicates are kept. */
  method UnknownEventIsIgnored(root: real -> real)
  {
    var g := new ZoomGesture(DEFAULT_OPTIONS, root);
    var one, two := Callback(1), Callback(2);
    g.On(CHANGE_EVENT, one);
    g.On(CHANGE_EVENT, one);
    assert !IsKnownEvent("zoom") by { assert "zoom"[0] != CHANGE_EVENT[0]; }
    g.On("zoom", two);
    g.Off("zoom", one);
    assert g.listeners == [one, one];
  }

  /** `off` drops every copy of a callback and keeps the others. */
  method UnsubscribeRemovesEveryCopy(root: real -> real)
  {
    var g := new ZoomGesture(DEFAULT_OPTIONS, root);
    var one, two := Callback(1), Callback(2);
    g.On(CHANGE_EVENT, one);
    g.On(CHANGE_EVENT, two);
    g.On(CHANGE_EVENT, one);
    assert g.listeners == [one, two, one];
    g.Off(CHANGE_EVENT, one);
    assert Without([one], one) == [] by { assert [one][1..] == []; }
    assert Without([two, one], one) == [two] by { assert [two, one][1..] == [one]; }
    assert Without([one, two, one], one) == [two] by { assert [one, two, one][1..] == [two, one]; }
    assert g.listeners == [two];
  }
}
