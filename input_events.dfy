/**
 * The custom input-event queue of display-sim-core and the part of
 * `Input` that owns it. Event payloads are left abstract as the type
 * parameter `V`, since the queue never looks inside them.
 */
module InputEvents {

  /** `CustomInputEvent`: a growable list of pending events. */
  class CustomInputEvent<V> {
    var values: seq<V>

    /** The default queue is empty. */
    constructor ()
      ensures values == []
    {
      values := [];
    }

    /** `add_value` pushes at the back. */
    method AddValue(value: V)
      modifies this
      ensures values == old(values) + [value]
    {
      values := values + [value];
    }

    /** `reset` truncates the list to length 0. */
    method Reset()
      modifies this
      ensures values == []
    {
      values := values[..0];
    }

    /**
     * `consume_values` swaps an empty list in and hands back the old
     * one, so the caller gets every pending event in insertion order.
     */
    method ConsumeValues() returns (consumed: seq<V>)
      modifies this
      ensures consumed == old(values)
      ensures values == []
    {
      consumed := values;
      values := [];
    }
  }

  /**
   * A whole frame's life of the queue: two events are pushed, the
   * first consume returns them in order and a second consume returns
   * nothing.
   */
  method PushPushConsumeTwice<V>(a: V, b: V) returns (first: seq<V>, second: seq<V>)
    ensures first == [a, b]
    ensures second == []
  {
    var queue := new CustomInputEvent<V>();
    queue.AddValue(a);
    queue.AddValue(b);
    first := queue.ConsumeValues();
    second := queue.ConsumeValues();
  }

  /** A reset in between discards what was pushed before it. */
  method PushResetPushConsume<V>(a: V, b: V) returns (consumed: seq<V>)
    ensures consumed == [b]
  {
    var queue := new CustomInputEvent<V>();
    queue.AddValue(a);
    queue.Reset();
    queue.AddValue(b);
    consumed := queue.ConsumeValues();
  }

  /** The clock and event-queue part of `Input`. */
  class Input<V> {
    var now: real
    const customEvent: CustomInputEvent<V>

    /** `Input::new(now)`: default fields with the given clock reading. */
    constructor (now: real)
      ensures this.now == now
      ensures fresh(customEvent) && customEvent.values == []
    {
      this.now := now;
      customEvent := new CustomInputEvent<V>();
    }

    /** `push_event` forwards to the queue's `add_value`. */
    method PushEvent(event: V)
      modifies customEvent
      ensures customEvent.values == old(customEvent.values) + [event]
    {
      customEvent.AddValue(event);
    }
  }

  /** Events pushed through `Input` come out of its queue in order. */
  method NewInputPushTwice<V>(now: real, a: V, b: V) returns (clock: real, consumed: seq<V>)
    ensures clock == now
    ensures consumed == [a, b]
  {
    var input := new Input<V>(now);
    input.PushEvent(a);
    input.PushEvent(b);
    clock := input.now;
    consumed := input.customEvent.ConsumeValues();
  }
}
