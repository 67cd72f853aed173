# ZoomGesture in Dafny

A model of the `ZoomGesture` class of `zoom-gesture.js`. It turns
mouse-wheel deltas and two-finger touch sequences into a zoom scale. The
scale is clamped against optional `minScale`/`maxScale` bounds, and every
subscriber registered for `change` is called with the stored scale.

The class becomes a Dafny `class` with the same mutable fields:
`scale`, the pinch session (`touchIds`, `touchStartDistance`,
`touchStartScale`) and `listeners` (the `listeners.change` array). There is
one method per handler (`OnWheel`, `OnTouchStart`, `OnTouchEnd` (also the
`touchcancel` handler), `OnTouchMove`), plus `UpdateScale`, `SetScale`, `On` and
`Off`. Each method's frame names the fields it may change. Its
postconditions give the new value of those fields in terms of the old
state and the pure formulas. The pure parts are Dafny functions with
their own lemmas:

- `Geometry`: touches, lookup by identifier (`Array.prototype.find`), the
  squared distance and `getDistanceBetweenTouches`.
- `ScaleMath`: the wheel and pinch candidate formulas and the
  min-then-max bound check of `updateScale`.
- `Listeners`: callback handles, `filter` for `off`, and the calls that
  the `forEach` notification makes.

Subscriber calls are recorded in a ghost `log` of `(callback, scale)`
pairs. The `Notify` loop appends one entry per listener.

Modelling choices:

- Numbers are `real`.
- A bound is `Option<real>`: `Some` when `typeof` is `'number'`, `None`
  for the default `null`.
- `touchScaleSize` is truthy when it is `Some(v)` with `v != 0`.
- `Math.sqrt` is the constructor argument `root`. The properties that
  need it to be a square root require `IsSquareRoot(root)`.
- Callbacks are `Callback` handles, compared by equality as `===`
  compares functions.
- A touch is `Touch(identifier, screenX, screenY)`. An event is
  `WheelEvent(deltaY)` or `TouchEvent(touches, changedTouches)`.
- `OnTouchMove` returns `Threw(TouchNotFound)` for the TypeError raised
  when a tracked identifier is missing from `touches`. The throw comes
  before any field is written, so the state is unchanged.

`scenarios.dfy` holds client methods that drive the class through short
event sequences: a clamped wheel step, pinches by ratio and by divisor,
an ended pinch, a missing touch, `setScale` twice, and subscribe and
unsubscribe. Their assertions are proved from the method contracts alone.
The pinch scenarios assume only that `root` is a true square root
(`IsSquareRoot`), and they derive the distances they need with
`RootOfSquare`.

Behaviour of this version of the component, followed by the model:

- `setScale` stores its argument without clamping.
- There is no anchor offset, no double-tap toggle and no `useMouse`
  option.
- `onTouchEnd` ends the session on any non-empty `changedTouches`,
  without looking at identifiers. A third finger's `touchstart` already
  ends the session, so during a session the changed touches are the
  tracked ones.
- A zero start distance is not guarded: the ratio formula divides by it.
- A missing tracked touch throws; the session is not cleared.
- The bound check tests the minimum first. With inverted bounds
  (`minScale > maxScale`), a candidate below the minimum becomes the
  minimum, which lies above the maximum (`ClampInvertedMinWins`);
  `max(min, min(max, c))` would always give the minimum.

## Model

| member | source | states |
|---|---|---|
| `Geometry.FindFrom` | zoom-gesture.js:81-82 | the result is the first position at or after `from` holding the identifier; none means no such position |
| `Geometry.FindTouch` | zoom-gesture.js:81-82 | `find` by identifier: there is a result exactly when some touch carries the identifier; the result is in the list and carries that identifier, and it is the first touch of the list that does |
| `Geometry.SquaredDistance` | zoom-gesture.js:84 | the squared distance is non-negative and is zero for a touch and itself |
| `Geometry.SquaredDistanceSymmetric` | zoom-gesture.js:84 | the squared distance does not depend on the order of the two points |
| `Geometry.Distance` | zoom-gesture.js:79-85 | the lookup succeeds exactly when both identifiers are present; otherwise it is the TypeError |
| `Geometry.DistanceOfPoints` | zoom-gesture.js:79-85 | with unique identifiers, the result is the root of the squared distance of the two touches carrying them, wherever they stand in the list |
| `Geometry.DistanceSymmetric` | zoom-gesture.js:79-85 | swapping the two tracked identifiers gives the same distance or the same error |
| `Geometry.FindTouchIgnoresOrder` | zoom-gesture.js:81-82 | with unique identifiers, lookup gives the same touch in any list with the same touches |
| `Geometry.DistanceIgnoresOrder` | zoom-gesture.js:80-82 | with unique identifiers, any reordering (same multiset) of the touch list gives the same distance |
| `Geometry.DistanceIsEuclidean` | zoom-gesture.js:84 | with a true square root, the distance is non-negative and its square is the squared distance |
| `Geometry.RootOfSquare` | zoom-gesture.js:84 | a true square root of `x * x` is `x` for non-negative `x` (the pinch scenarios derive their distances of 100 and 150 from it) |
| `ScaleMath.Clamp` | zoom-gesture.js:87-94 | with ordered bounds the result satisfies every configured bound; a candidate within the bounds is kept; any other result is one of the configured bounds |
| `ScaleMath.ClampIsNearest` | zoom-gesture.js:90-94 | with ordered bounds the result is the in-bounds scale nearest to the candidate |
| `ScaleMath.ClampMonotone` | zoom-gesture.js:90-94 | with ordered bounds, a larger candidate never gives a smaller scale |
| `ScaleMath.ClampIdempotent` | zoom-gesture.js:90-94 | with ordered bounds, clamping an already clamped scale changes nothing |
| `ScaleMath.ClampInvertedMinWins` | zoom-gesture.js:90-91 | with minScale above maxScale, a candidate below the minimum becomes the minimum, and this breaks the maximum |
| `ScaleMath.WheelCandidate` | zoom-gesture.js:39 | the change of scale times wheelScaleSize is minus deltaY |
| `ScaleMath.WheelDirection` | zoom-gesture.js:39 | with a positive divisor, a positive deltaY lowers the candidate, a negative one raises it, and zero leaves it unchanged (each as an if-and-only-if) |
| `ScaleMath.Truthy` | zoom-gesture.js:71 | `if (this.touchScaleSize)`: the option is set and is not zero |
| `ScaleMath.PinchCandidate` | zoom-gesture.js:68-73 | the change from touchStartScale, times the divisor (touchScaleSize when truthy, else the start distance), is the change of distance |
| `ScaleMath.PinchDirection` | zoom-gesture.js:68-73 | with a positive divisor, an unchanged distance gives the start scale, spreading gives more and pinching less (each as an if-and-only-if) |
| `Listeners.IsKnownEvent` | zoom-gesture.js:114 | the `hasOwnProperty` test of `on` (repeated in `off` at line 120): `change` is the only event name the listeners object holds |
| `Listeners.Broadcast` | zoom-gesture.js:96 | one call per listener, the k-th to the k-th listener, each with the given scale |
| `Listeners.Without` | zoom-gesture.js:122 | the result holds no copy of the callback and every other callback as often as before |
| `Listeners.WithoutConcat` | zoom-gesture.js:122 | filtering a concatenation is concatenating the filtered parts, so the rest keep their order |
| `Listeners.WithoutAbsent` | zoom-gesture.js:122 | removing an unregistered callback changes nothing |
| `Listeners.WithoutIdempotent` | zoom-gesture.js:119-123 | a second `off` of the same callback changes nothing |
| `Listeners.SubscribeThenUnsubscribe` | zoom-gesture.js:113-123 | `on` then `off` of a callback leaves the list that `off` alone would leave |
| `Listeners.WithoutCommutes` | zoom-gesture.js:122 | removing two callbacks gives the same list in either order |
| `Zoom.DEFAULT_OPTIONS` | zoom-gesture.js:8-14 | the destructuring defaults: initScale 1, wheelScaleSize 300, no touchScaleSize, no minScale and no maxScale |
| `Zoom.ZoomGesture.constructor` | zoom-gesture.js:7-35 | the scale is initScale, the options are stored, there is no session, start distance 0, no start scale, and no listeners |
| `Zoom.ZoomGesture.Notify` | zoom-gesture.js:96 | the log grows by exactly one call per listener, in order, with the stored scale |
| `Zoom.ZoomGesture.UpdateScale` | zoom-gesture.js:87-97 | the stored scale is the clamped candidate, within the bounds when they are ordered; every listener is then called once, in order, with that scale |
| `Zoom.ZoomGesture.SetScale` | zoom-gesture.js:107-111 | the argument is stored unclamped and every listener is called once, in order, with it |
| `Zoom.ZoomGesture.OnWheel` | zoom-gesture.js:37-40 | the scale becomes the clamped wheel candidate of the old scale and every listener is told; only scale and log change |
| `Zoom.ZoomGesture.OnTouchStart` | zoom-gesture.js:42-51 | two touches record their identifiers in order, their distance (that of the two points when their identifiers differ) and the current scale; any other count clears the session; scale and listeners never change; the session has length 0 or 2 |
| `Zoom.ZoomGesture.OnTouchEnd` | zoom-gesture.js:53-61 | without a session nothing changes; with one, any non-empty changedTouches clears it; only touchIds may change |
| `Zoom.ZoomGesture.OnTouchMove` | zoom-gesture.js:63-77 | without a session nothing changes; a missing tracked touch throws and changes nothing; otherwise the scale is the clamped pinch candidate for the current distance and every listener is told; ordered bounds that held still hold |
| `Zoom.ZoomGesture.DistanceBetweenTouches` | zoom-gesture.js:79-85 | the distance exists exactly when both tracked identifiers are among the touches, and is non-negative with a true square root |
| `Zoom.ZoomGesture.On` | zoom-gesture.js:113-117 | for `change` the callback is appended (duplicates kept); any other event name changes nothing |
| `Zoom.ZoomGesture.Off` | zoom-gesture.js:119-123 | for `change` the list becomes the filtered list (every copy removed, the rest in order); any other event name changes nothing |

## Left out

- `init` and `destroy` (zoom-gesture.js:99-105): they only register and unregister DOM listeners.
- The `element = window` default and the `.bind(this)` handler table (zoom-gesture.js:8, 15-23): host wiring. The handlers are methods called directly, and `OnTouchEnd` serves `touchcancel` too.
- `e.preventDefault()` (zoom-gesture.js:38, 65): a browser side effect with no effect on the state.
- The module export lines (zoom-gesture.js:3-4).
- IEEE-754 rounding, `NaN` and `Infinity`: numbers are reals.
- Zoom.ZoomGesture.OnWheel: requires `wheelScaleSize != 0`. The source divides by zero there. With `deltaY == 0` the candidate is `NaN` (0/0), and `NaN` is stored. With `deltaY > 0` it is `-Infinity`, which `updateScale` replaces by `minScale` when that is configured and stores otherwise. With `deltaY < 0` it is `+Infinity`, replaced by `maxScale` when configured and stored otherwise. Reals cannot represent the infinite candidate, so the whole case is excluded.
- Zoom.ZoomGesture.OnTouchMove: requires `MoveDefined(e.touches)`: no session, a missing tracked touch (that move throws before dividing), or a non-zero divisor. The source does not guard a zero start distance (two touches starting at the same point) when `touchScaleSize` is not truthy. With an unchanged distance of zero the candidate is `NaN` (0/0), and `NaN` is stored. With a positive current distance it is `+Infinity`, which `updateScale` replaces by `maxScale` when that is configured and stores otherwise. `-Infinity` cannot arise, because the square root is never negative. Reals cannot represent the infinite candidate, so those moves are excluded.
- ScaleMath.PinchCandidate: does not evaluate the ratio that the source computes and then discards when touchScaleSize is truthy. The stored result is the same.
- The body of `Math.sqrt`: it is the `root` parameter. Properties of the distance that need a true square root require `IsSquareRoot(root)`.
- Option handling: the constructor takes a complete `Options` record, and `DEFAULT_OPTIONS` holds the JavaScript defaults. Filling in missing fields one by one, and option values that are not numbers, are not modelled.
- Callback bodies: a callback that throws (this would stop the `forEach` early) and a callback that calls back into the gesture are not modelled.
- Touch lists with repeated identifiers: lookup still returns the first match. The order-independence lemmas assume unique identifiers, as browsers deliver them.
