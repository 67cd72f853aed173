/**
  The geometry the gesture needs: looking touches up by identifier and the
  distance between the two tracked touches (getDistanceBetweenTouches).

  The square root is not defined here: `Math.sqrt` is a host function, so it
  is passed in as `root`, and the properties that depend on its meaning
  require `IsSquareRoot(root)`.
*/
module Geometry {
  import opened Wrappers

  /** A point of contact as a touch event reports it. */
  datatype Touch = Touch(identifier: int, screenX: real, screenY: real)

  /** Destructuring the `undefined` that a failed lookup yields throws a TypeError. */
  datatype LookupError = TouchNotFound

  /** `root` behaves as the non-negative square root on the non-negative reals. */
  ghost predicate IsSquareRoot(root: real -> real) {
    forall x :: 0.0 <= x ==> 0.0 <= root(x) && root(x) * root(x) == x
  }

  predicate HasTouch(touches: seq<Touch>, id: int) {
    exists t :: t in touches && t.identifier == id
  }

  /** No two different touches of the list carry the same identifier (true of every touch list a browser delivers). */
  ghost predicate IdsDetermineTouches(touches: seq<Touch>) {
    forall t, u :: t in touches && u in touches && t.identifier == u.identifier ==> t == u
  }

  /** The first position at or after `from` whose touch carries `id`. */
  function FindFrom(touches: seq<Touch>, id: int, from: nat): (r: Option<nat>)
    requires from <= |touches|
    ensures r.Some? ==> from <= r.value < |touches| && touches[r.value].identifier == id
    ensures r.Some? ==> forall j :: from <= j < r.value ==> touches[j].identifier != id
    ensures r.None? ==> forall j :: from <= j < |touches| ==> touches[j].identifier != id
    decreases |touches| - from
  {
    if from == |touches| then None
    else if touches[from].identifier == id then Some(from)
    else FindFrom(touches, id, from + 1)
  }

  /** `touches.find(x => x.identifier === id)`: the first touch carrying `id`, if any. */
  function FindTouch(touches: seq<Touch>, id: int): (r: Option<Touch>)
    ensures r.Some? <==> HasTouch(touches, id)
    ensures r.Some? ==> r.value in touches && r.value.identifier == id
    ensures forall i :: 0 <= i < |touches| && touches[i].identifier == id && (forall j :: 0 <= j < i ==> touches[j].identifier != id) ==>
      r == Some(touches[i])
  {
    match FindFrom(touches, id, 0)
    case None => None
    case Some(i) => Some(touches[i])
  }

  /** The squared Euclidean distance between the screen positions of two touches. */
  function SquaredDistance(p: Touch, q: Touch): (r: real)
    ensures 0.0 <= r
    ensures p == q ==> r == 0.0
  {
    var dx := q.screenX - p.screenX;
    var dy := q.screenY - p.screenY;
    dx * dx + dy * dy
  }

  /**
    getDistanceBetweenTouches: find the touches carrying `id1` and `id2`
    and return the root of their squared distance; a missing identifier
    is the source's TypeError.
  */
  function Distance(touches: seq<Touch>, id1: int, id2: int, root: real -> real): (r: Result<real, LookupError>)
    ensures r.Ok? <==> HasTouch(touches, id1) && HasTouch(touches, id2)
  {
    match FindTouch(touches, id1)
    case None => Err(TouchNotFound)
    case Some(p) =>
      match FindTouch(touches, id2)
      case None => Err(TouchNotFound)
      case Some(q) => Ok(root(SquaredDistance(p, q)))
  }

  /** When identifiers are unique, the distance is that of the two touches carrying them, wherever they stand. */
  lemma DistanceOfPoints(touches: seq<Touch>, p: Touch, q: Touch, root: real -> real)
    requires IdsDetermineTouches(touches)
    requires p in touches && q in touches
    ensures Distance(touches, p.identifier, q.identifier, root) == Ok(root(SquaredDistance(p, q)))
  {
  }

  /** Squared distance does not depend on which point comes first. */
  lemma SquaredDistanceSymmetric(p: Touch, q: Touch)
    ensures SquaredDistance(p, q) == SquaredDistance(q, p)
  {
  }

  /** Swapping the two tracked identifiers gives the same distance, or the same error. */
  lemma DistanceSymmetric(touches: seq<Touch>, id1: int, id2: int, root: real -> real)
    ensures Distance(touches, id1, id2, root) == Distance(touches, id2, id1, root)
  {
  }

  /** Reordering the touch list (touch lists may reorder between events) does not change the distance. */
  lemma DistanceIgnoresOrder(touches: seq<Touch>, reordered: seq<Touch>, id1: int, id2: int, root: real -> real)
    requires IdsDetermineTouches(touches)
    requires multiset(reordered) == multiset(touches)
    ensures Distance(reordered, id1, id2, root) == Distance(touches, id1, id2, root)
  {
    forall t | t in reordered ensures t in touches {
      assert t in multiset(reordered);
    }
    forall t | t in touches ensures t in reordered {
      assert t in multiset(touches);
    }
    FindTouchIgnoresOrder(touches, reordered, id1);
    FindTouchIgnoresOrder(touches, reordered, id2);
  }

  lemma FindTouchIgnoresOrder(touches: seq<Touch>, reordered: seq<Touch>, id: int)
    requires IdsDetermineTouches(touches)
    requires forall t :: t in reordered <==> t in touches
    ensures FindTouch(reordered, id) == FindTouch(touches, id)
  {
  }

  /** With a genuine square root the distance is non-negative and squares to the squared distance. */
  lemma DistanceIsEuclidean(touches: seq<Touch>, p: Touch, q: Touch, root: real -> real)
    requires IsSquareRoot(root)
    requires IdsDetermineTouches(touches)
    requires p in touches && q in touches
    ensures var d := Distance(touches, p.identifier, q.identifier, root).value;
      0.0 <= d && d * d == SquaredDistance(p, q)
  {
  }

  /** The root of a square is the non-negative number squared. */
  lemma RootOfSquare(root: real -> real, x: real)
    requires IsSquareRoot(root)
    requires 0.0 <= x
    ensures root(x * x) == x
  {
    var r := root(x * x);
    assert 0.0 <= r && r * r == x * x;
    SameSquareSameNumber(r, x);
  }

  lemma SameSquareSameNumber(r: real, x: real)
    requires 0.0 <= r && 0.0 <= x && r * r == x * x
    ensures r == x
  {
    if r > x {
      ProductPositive(r - x, r + x);
    } else if r < x {
      ProductPositive(x - r, x + r);
    }
  }

  lemma ProductPositive(a: real, b: real)
    requires 0.0 < a && 0.0 < b
    ensures 0.0 < a * b
  {
  }
}
