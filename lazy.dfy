/**
 * The front end's `Lazy<T>`: a value computed by a callback on first use.
 * The callback is identified with the value it returns, where `None`
 * stands for `null`; the side effects of running it are outside the
 * model, and `calls` counts how often it ran.
 */
module Lazies {
  import opened Wrappers

  const NullCallbackMessage := "this._callback shouldn't be null"

  /** The callback still held, if any, with the value it will return; and the cached value. */
  datatype LazyState<T> = LazyState(callback: Option<Option<T>>, value: Option<T>, calls: nat)

  /**
   * `get`: with no cached value, run the callback once, cache its result
   * and drop it; with neither a value nor a callback, throw.
   */
  function GetOf<T>(s: LazyState<T>): (Result<Option<T>, string>, LazyState<T>)
  {
    if s.value.None? then
      if s.callback.None? then (Err(NullCallbackMessage), s)
      else
        var v := s.callback.value;
        (Ok(v), LazyState(None, v, s.calls + 1))
    else (Ok(s.value), s)
  }

  function From<T>(result: Option<T>): LazyState<T>
  {
    LazyState(Some(result), None, 0)
  }

  /**
   * The first get runs the callback and returns its result; when that was
   * not `null`, every later get returns the same value without running it
   * again.
   */
  lemma FirstGetRunsCallbackOnce<T>(value: T)
    ensures GetOf(From(Some(value))).0 == Ok(Some(value))
    ensures GetOf(From(Some(value))).1.calls == 1 && GetOf(From(Some(value))).1.callback == None
    ensures GetOf(GetOf(From(Some(value))).1) == (Ok(Some(value)), GetOf(From(Some(value))).1)
  {
  }

  /** A cached value is returned unchanged and never runs anything. */
  lemma CachedGetIsStable<T>(s: LazyState<T>)
    requires s.value.Some?
    ensures GetOf(s) == (Ok(s.value), s)
  {
  }

  /** When the callback returned `null`, it has been dropped, so the second get throws. */
  lemma NullResultThrowsOnSecondGet<T>()
    ensures GetOf(From<T>(None)).0 == Ok(None)
    ensures GetOf(GetOf(From<T>(None)).1).0 == Err(NullCallbackMessage)
  {
  }

  /** The callback runs at most once over any number of gets. */
  function GetTimes<T>(s: LazyState<T>, k: nat): LazyState<T>
    decreases k
  {
    if k == 0 then s else GetTimes(GetOf(s).1, k - 1)
  }

  lemma {:induction false} CallbackRunsAtMostOnce<T>(s: LazyState<T>, k: nat)
    requires s.callback.None? ==> s.calls == 1
    requires s.callback.Some? ==> s.calls == 0 && s.value.None?
    ensures GetTimes(s, k).calls <= 1
    ensures GetTimes(s, k).callback.None? ==> GetTimes(s, k).calls == 1
    decreases k
  {
    if k > 0 {
      CallbackRunsAtMostOnce(GetOf(s).1, k - 1);
    }
  }

  class Lazy<T> {
    var callback: Option<Option<T>>
    var value: Option<T>
    ghost var calls: nat

    ghost function State(): LazyState<T>
      reads this
    {
      LazyState(callback, value, calls)
    }

    /** `new Lazy(callback)` and `Lazy.from(callback)`. */
    constructor (result: Option<T>)
      ensures State() == From(result)
    {
      callback := Some(result);
      value := None;
      calls := 0;
    }

    method Get() returns (r: Result<Option<T>, string>)
      modifies this
      ensures (r, State()) == GetOf(old(State()))
    {
      if value.None? {
        if callback.None? {
          return Err(NullCallbackMessage);
        }
        value := callback.value;
        calls := calls + 1;
        callback := None;
      }
      return Ok(value);
    }
  }
}
