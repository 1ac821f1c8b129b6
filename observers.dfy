/**
 * The front end's `Observer` (in its TypeScript and JavaScript versions,
 * which behave alike) and `PubSub`: an ordered list of callbacks that
 * `fire` runs one after another. A callback is known by its identity, the
 * type parameter `C`, which is how `unsubscribe` compares them; running a
 * callback is recorded as a call `(callback, event)`, and the awaiting of
 * each call before the next is the order of that record.
 */
module Observers {

  /** `filter(cb => cb !== unsubscribed)`. */
  function Without<C(==)>(callbacks: seq<C>, unsubscribed: C): seq<C>
    decreases |callbacks|
  {
    if callbacks == [] then []
    else (if callbacks[0] == unsubscribed then [] else [callbacks[0]]) + Without(callbacks[1..], unsubscribed)
  }

  /** What one `fire` does: call every registered callback with the event, in subscription order. */
  function CallsOf<C, E>(callbacks: seq<C>, event: E): seq<(C, E)>
    decreases |callbacks|
  {
    if callbacks == [] then [] else [(callbacks[0], event)] + CallsOf(callbacks[1..], event)
  }

  lemma {:induction false} CallsOfIndexed<C, E>(callbacks: seq<C>, event: E)
    ensures |CallsOf(callbacks, event)| == |callbacks|
    ensures forall i :: 0 <= i < |callbacks| ==> CallsOf(callbacks, event)[i] == (callbacks[i], event)
    decreases |callbacks|
  {
    if callbacks != [] {
      CallsOfIndexed(callbacks[1..], event);
    }
  }

  lemma {:induction false} CallsOfAppend<C, E>(callbacks: seq<C>, cb: C, event: E)
    ensures CallsOf(callbacks + [cb], event) == CallsOf(callbacks, event) + [(cb, event)]
    decreases |callbacks|
  {
    if callbacks == [] {
      assert [cb][1..] == [];
    } else {
      assert (callbacks + [cb])[1..] == callbacks[1..] + [cb];
      CallsOfAppend(callbacks[1..], cb, event);
    }
  }

  /**
   * Unsubscribing removes every registration of that callback and keeps
   * every other registration, in order: every other callback keeps its
   * count, and filtering distributes over concatenation.
   */
  lemma {:induction false} WithoutRemovesAll<C>(callbacks: seq<C>, unsubscribed: C)
    ensures unsubscribed !in Without(callbacks, unsubscribed)
    ensures forall d :: d != unsubscribed ==> multiset(Without(callbacks, unsubscribed))[d] == multiset(callbacks)[d]
    ensures |Without(callbacks, unsubscribed)| == |callbacks| - multiset(callbacks)[unsubscribed]
    decreases |callbacks|
  {
    if callbacks != [] {
      WithoutRemovesAll(callbacks[1..], unsubscribed);
      assert callbacks == [callbacks[0]] + callbacks[1..];
      assert multiset(callbacks) == multiset{callbacks[0]} + multiset(callbacks[1..]);
    }
  }

  lemma {:induction false} WithoutConcat<C>(a: seq<C>, b: seq<C>, unsubscribed: C)
    ensures Without(a + b, unsubscribed) == Without(a, unsubscribed) + Without(b, unsubscribed)
    decreases |a|
  {
    if a == [] {
      assert a + b == b;
    } else {
      assert (a + b)[1..] == a[1..] + b;
      WithoutConcat(a[1..], b, unsubscribed);
    }
  }

  /** Unsubscribing a callback that was never subscribed changes nothing. */
  lemma {:induction false} WithoutUnknownIsIdentity<C>(callbacks: seq<C>, unsubscribed: C)
    requires unsubscribed !in callbacks
    ensures Without(callbacks, unsubscribed) == callbacks
    decreases |callbacks|
  {
    if callbacks != [] {
      assert unsubscribed !in callbacks[1..] by {
        assert callbacks == [callbacks[0]] + callbacks[1..];
      }
      WithoutUnknownIsIdentity(callbacks[1..], unsubscribed);
    }
  }

  /**
   * A callback subscribed twice is called twice per fire; after it is
   * unsubscribed, no later fire calls it, and the other callbacks are
   * called as before.
   */
  lemma SubscribedTwiceCalledTwice<C, E>(cb: C, event: E)
    ensures CallsOf([cb, cb], event) == [(cb, event), (cb, event)]
    ensures CallsOf(Without([cb, cb], cb), event) == []
  {
    assert [cb, cb][1..] == [cb];
    assert [cb][1..] == [];
    assert Without([cb], cb) == [];
    assert Without([cb, cb], cb) == [];
    assert CallsOf([cb], event) == [(cb, event)];
  }

  lemma UnsubscribedNotCalled<C, E>(callbacks: seq<C>, cb: C, event: E)
    ensures forall i :: 0 <= i < |CallsOf(Without(callbacks, cb), event)| ==> CallsOf(Without(callbacks, cb), event)[i].0 != cb
  {
    WithoutRemovesAll(callbacks, cb);
    CallsOfIndexed(Without(callbacks, cb), event);
  }

  /** The loop of `fire`, shared by both classes. */
  method FireAll<C, E>(callbacks: seq<C>, event: E) returns (calls: seq<(C, E)>)
    ensures calls == CallsOf(callbacks, event)
  {
    calls := [];
    for i := 0 to |callbacks|
      invariant calls == CallsOf(callbacks[..i], event)
    {
      assert callbacks[..i + 1] == callbacks[..i] + [callbacks[i]];
      CallsOfAppend(callbacks[..i], callbacks[i], event);
      calls := calls + [(callbacks[i], event)];
    }
    assert callbacks[..|callbacks|] == callbacks;
  }

  class Observer<C(==)> {
    var callbacks: seq<C>

    /** `Observer.make()` and the JavaScript constructor. */
    constructor ()
      ensures callbacks == []
    {
      callbacks := [];
    }

    method Subscribe(cb: C)
      modifies this
      ensures callbacks == old(callbacks) + [cb]
    {
      callbacks := callbacks + [cb];
    }

    method Unsubscribe(unsubscribed: C)
      modifies this
      ensures callbacks == Without(old(callbacks), unsubscribed)
    {
      callbacks := Without(callbacks, unsubscribed);
    }

    method Fire<E>(event: E) returns (calls: seq<(C, E)>)
      ensures calls == CallsOf(callbacks, event)
    {
      calls := FireAll(callbacks, event);
    }
  }

  /** The `Disposable` that `PubSub.subscribe` returns: it remembers the callback it will unsubscribe. */
  datatype Subscription<C> = Subscription(cb: C)

  class PubSub<C(==)> {
    var callbacks: seq<C>

    constructor ()
      ensures callbacks == []
    {
      callbacks := [];
    }

    method Subscribe(cb: C) returns (disposable: Subscription<C>)
      modifies this
      ensures callbacks == old(callbacks) + [cb]
      ensures disposable == Subscription(cb)
    {
      callbacks := callbacks + [cb];
      disposable := Subscription(cb);
    }

    method Fire<E>(event: E) returns (calls: seq<(C, E)>)
      ensures calls == CallsOf(callbacks, event)
    {
      calls := FireAll(callbacks, event);
    }

    /** Disposing a subscription runs the private `unsubscribe` on its callback. */
    method Dispose(disposable: Subscription<C>)
      modifies this
      ensures callbacks == Without(old(callbacks), disposable.cb)
    {
      callbacks := Without(callbacks, disposable.cb);
    }
  }

  /**
   * Two subscribers, a fire, a disposal of the first, another fire: the
   * first fire calls both in order, the second only the one still
   * subscribed.
   */
  method DisposeBetweenFires<C(==), E>(a: C, b: C, e1: E, e2: E) returns (before: seq<(C, E)>, after: seq<(C, E)>)
    requires a != b
    ensures before == [(a, e1), (b, e1)]
    ensures after == [(b, e2)]
  {
    var bus := new PubSub<C>();
    var da := bus.Subscribe(a);
    var db := bus.Subscribe(b);
    assert bus.callbacks == [a, b];
    assert [a, b][1..] == [b] && [b][1..] == [];
    assert CallsOf([b], e1) == [(b, e1)];
    before := bus.Fire(e1);
    bus.Dispose(da);
    assert Without([b], a) == [b] + [];
    assert bus.callbacks == [b];
    assert CallsOf([b], e2) == [(b, e2)] + CallsOf([], e2);
    after := bus.Fire(e2);
  }
}
