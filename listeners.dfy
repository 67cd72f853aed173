/**
  The `change` subscriber registry of the gesture and what notifying it
  means: `on` appends, `off` filters, and every scale update calls each
  registered callback once, in registration order, with the stored scale.
*/
module Listeners {

  /**
    An opaque handle for a subscriber callback. Callback bodies are not
    modelled; two handles stand for the same function exactly when they
    are equal, as `===` compares functions by identity.
  */
  datatype Callback = Callback(id: nat)

  /** One call `fn(scale)` made to a subscriber. */
  datatype Notification = Notification(listener: Callback, scale: real)

  /** The only key of the `listeners` object; any other name fails `hasOwnProperty`. */
  const CHANGE_EVENT: string := "change"

  predicate IsKnownEvent(event: string) {
    event == CHANGE_EVENT
  }

  /** The calls `listeners.forEach(fn => fn(scale))` makes, in order. */
  function Broadcast(listeners: seq<Callback>, scale: real): (r: seq<Notification>)
    ensures |r| == |listeners|
    ensures forall k :: 0 <= k < |r| ==> r[k] == Notification(listeners[k], scale)
  {
    if listeners == [] then []
    else Broadcast(listeners[..|listeners| - 1], scale) + [Notification(listeners[|listeners| - 1], scale)]
  }

  /** `listeners.filter(x => x !== callback)`: every occurrence of `callback` goes, every other one stays. */
  function Without(listeners: seq<Callback>, callback: Callback): (r: seq<Callback>)
    ensures multiset(r) == multiset(listeners)[callback := 0]
  {
    if listeners == [] then []
    else
      assert listeners == [listeners[0]] + listeners[1..];
      (if listeners[0] == callback then [] else [listeners[0]]) + Without(listeners[1..], callback)
  }

  /** Filtering works piecewise, so the remaining callbacks keep their relative order. */
  lemma {:induction false} WithoutConcat(a: seq<Callback>, b: seq<Callback>, callback: Callback)
    ensures Without(a + b, callback) == Without(a, callback) + Without(b, callback)
  {
    if a == [] {
      assert a + b == b;
    } else {
      assert (a + b)[1..] == a[1..] + b;
      WithoutConcat(a[1..], b, callback);
    }
  }

  /** Removing a callback that is not registered leaves the list as it was. */
  lemma {:induction false} WithoutAbsent(listeners: seq<Callback>, callback: Callback)
    requires callback !in listeners
    ensures Without(listeners, callback) == listeners
  {
    if listeners != [] {
      WithoutAbsent(listeners[1..], callback);
    }
  }

  /** After `off`, the callback is gone, so a second `off` changes nothing. */
  lemma WithoutIdempotent(listeners: seq<Callback>, callback: Callback)
    ensures Without(Without(listeners, callback), callback) == Without(listeners, callback)
  {
    var once := Without(listeners, callback);
    assert callback !in once by {
      assert multiset(once)[callback] == 0;
    }
    WithoutAbsent(once, callback);
  }

  /** `on` then `off` of the same callback removes the new entry and every earlier one. */
  lemma SubscribeThenUnsubscribe(listeners: seq<Callback>, callback: Callback)
    ensures Without(listeners + [callback], callback) == Without(listeners, callback)
  {
    WithoutConcat(listeners, [callback], callback);
    assert Without([callback], callback) == [] by {
      assert [callback][1..] == [];
    }
  }

  /** Unsubscribing two callbacks gives the same list in either order. */
  lemma {:induction false} WithoutCommutes(listeners: seq<Callback>, a: Callback, b: Callback)
    ensures Without(Without(listeners, a), b) == Without(Without(listeners, b), a)
  {
    if listeners != [] {
      var head := [listeners[0]];
      var tail := listeners[1..];
      assert listeners == head + tail;
      WithoutConcat(head, tail, a);
      WithoutConcat(head, tail, b);
      WithoutConcat(Without(head, a), Without(tail, a), b);
      WithoutConcat(Without(head, b), Without(tail, b), a);
      WithoutCommutes(tail, a, b);
      assert head[1..] == [];
    }
  }
}
