/**
 * The event store of screen-sim-core's simulation state: two parallel
 * lists, one of event kinds and one of values, where a lookup by kind
 * returns the value of the first matching entry. Event payloads are the
 * type parameter `V`; the source's `InputEventValue::None` answer for a
 * missing kind is `None`.
 */
module ScreenSimState {
  import opened Wrappers

  /** The value paired with the first occurrence of `kind`. */
  function FirstValue<V>(kinds: seq<string>, values: seq<V>, kind: string): Option<V>
    requires |kinds| == |values|
    decreases |kinds|
  {
    if kinds == [] then None
    else if kinds[0] == kind then Some(values[0])
    else FirstValue(kinds[1..], values[1..], kind)
  }

  /**
   * The lookup fails exactly when the kind is absent; otherwise it returns
   * the value at an index holding the kind with no earlier such index.
   */
  lemma {:induction false} FirstValueIsFirstMatch<V>(kinds: seq<string>, values: seq<V>, kind: string)
    requires |kinds| == |values|
    ensures FirstValue(kinds, values, kind).None? <==> kind !in kinds
    ensures FirstValue(kinds, values, kind).Some? ==>
              exists i :: 0 <= i < |kinds| && kinds[i] == kind && values[i] == FirstValue(kinds, values, kind).value &&
                          forall j :: 0 <= j < i ==> kinds[j] != kind
    decreases |kinds|
  {
    if kinds != [] && kinds[0] != kind {
      FirstValueIsFirstMatch(kinds[1..], values[1..], kind);
      assert kind in kinds <==> kind in kinds[1..] by {
        assert kinds == [kinds[0]] + kinds[1..];
      }
      if FirstValue(kinds, values, kind).Some? {
        var i :| 0 <= i < |kinds[1..]| && kinds[1..][i] == kind && values[1..][i] == FirstValue(kinds, values, kind).value &&
                 forall j :: 0 <= j < i ==> kinds[1..][j] != kind;
        assert kinds[i + 1] == kind && values[i + 1] == FirstValue(kinds, values, kind).value;
        forall j | 0 <= j < i + 1 ensures kinds[j] != kind {
          if j > 0 {
            assert kinds[j] == kinds[1..][j - 1];
          }
        }
      }
    } else if kinds != [] {
      assert kinds[0] == kind;
    }
  }

  /**
   * Appending an entry never hides an earlier one: a kind already present
   * keeps its first value, and a new kind finds the appended value.
   */
  lemma {:induction false} FirstValueAppend<V>(kinds: seq<string>, values: seq<V>, k: string, v: V, kind: string)
    requires |kinds| == |values|
    ensures FirstValue(kinds + [k], values + [v], kind) ==
              if kind in kinds then FirstValue(kinds, values, kind)
              else if k == kind then Some(v)
              else None
    decreases |kinds|
  {
    if kinds == [] {
      assert kinds + [k] == [k] && values + [v] == [v];
      assert [k][1..] == [];
    } else {
      assert (kinds + [k])[1..] == kinds[1..] + [k];
      assert (values + [v])[1..] == values[1..] + [v];
      FirstValueAppend(kinds[1..], values[1..], k, v, kind);
      assert kind in kinds <==> kinds[0] == kind || kind in kinds[1..] by {
        assert kinds == [kinds[0]] + kinds[1..];
      }
    }
  }

  /** `CustomInputEvent` with its two parallel lists. */
  class CustomInputEvent<V> {
    var values: seq<V>
    var kinds: seq<string>

    /** Every value has its kind. */
    predicate Valid()
      reads this
    {
      |values| == |kinds|
    }

    /** The default store is empty. */
    constructor ()
      ensures Valid() && values == [] && kinds == []
    {
      values, kinds := [], [];
    }

    /** `add_value` pushes the value and its kind, keeping the lists the same length. */
    method AddValue(kind: string, value: V)
      requires Valid()
      modifies this
      ensures Valid()
      ensures values == old(values) + [value] && kinds == old(kinds) + [kind]
    {
      values := values + [value];
      kinds := kinds + [kind];
    }

    /** `get_value`: a scan of the kinds with a running index. */
    method GetValue(kind: string) returns (r: Option<V>)
      requires Valid()
      ensures r == FirstValue(kinds, values, kind)
    {
      var i := 0;
      while i < |kinds|
        invariant 0 <= i <= |kinds|
        invariant FirstValue(kinds, values, kind) == FirstValue(kinds[i..], values[i..], kind)
        decreases |kinds| - i
      {
        if kinds[i] == kind {
          return Some(values[i]);
        }
        assert kinds[i..][1..] == kinds[i + 1..] && values[i..][1..] == values[i + 1..];
        i := i + 1;
      }
      return None;
    }

    /** `reset` truncates both lists. */
    method Reset()
      modifies this
      ensures Valid() && values == [] && kinds == []
    {
      values := values[..0];
      kinds := kinds[..0];
    }
  }

  /**
   * Two events of the same kind: the lookup sees the first, a reset
   * forgets both.
   */
  method FirstOfTwoThenReset<V>(kind: string, a: V, b: V) returns (before: Option<V>, after: Option<V>)
    ensures before == Some(a)
    ensures after == None
  {
    var store := new CustomInputEvent<V>();
    store.AddValue(kind, a);
    store.AddValue(kind, b);
    FirstValueAppend([kind], [a], kind, b, kind);
    assert store.kinds == [kind] + [kind] && store.values == [a] + [b];
    before := store.GetValue(kind);
    store.Reset();
    after := store.GetValue(kind);
  }
}
