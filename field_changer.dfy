/**
 * The generic clamped increment/decrement operators of display-sim-core
 * (`FieldChanger`, field_changer.rs) and of the older screen-sim-core
 * (`FilterParams`, filter_params.rs), instantiated at integers. The field
 * behind `&mut T` is an in/out value; the trigger handler and the event
 * dispatcher become outputs (whether the handler ran, which limit events
 * were dispatched).
 */
module FieldChangers {
  import opened Wrappers
  import GeneralTypes
  import PixelsShadow
  import InternalResolutions
  import Math

  /** `process_with_sums` applies `+=`/`-=`, `process_with_multiplications` `*=`/`/=`. */
  datatype Progression = Sums | Multiplications

  /** The Rust type of the field: a signed integer, or `usize`, whose subtraction below zero panics. */
  datatype Domain = Signed | Unsigned

  /** A `dispatch_minimum_value` or `dispatch_maximum_value` call and its argument. */
  datatype Limit = MinimumValue(min: int) | MaximumValue(max: int)

  /** The builder's fields: inc/dec levels, event value, progression, bounds, and whether a trigger handler is set. */
  datatype FieldChanger = FieldChanger(
    increase: bool, decrease: bool, event: Option<int>,
    velocity: Option<int>, min: Option<int>, max: Option<int>, hasHandler: bool)

  /** `FieldChanger::new`: nothing set but the inc/dec levels. */
  function New(incdec: GeneralTypes.IncDec<bool>): (c: FieldChanger)
    ensures c.increase == incdec.increase && c.decrease == incdec.decrease
    ensures c.event.None? && c.velocity.None? && c.min.None? && c.max.None? && !c.hasHandler
  {
    FieldChanger(incdec.increase, incdec.decrease, None, None, None, None, false)
  }

  /** The new value of the field, whether the handler ran, and the limit events; or a panic. */
  datatype Outcome = Done(value: int, triggered: bool, dispatched: seq<Limit>) | Panicked

  function IncOp(p: Progression, x: int, v: int): int
  {
    if p == Sums then x + v else x * v
  }

  /** The decrement; dividing by a zero progression panics. */
  function DecOp(p: Progression, x: int, v: int): Option<int>
  {
    if p == Sums then Some(x - v) else if v == 0 then None else Some(Math.TruncDiv(x, v))
  }

  /** A `usize` field has non-negative contents, progression, bounds and event value. */
  predicate Fits(d: Domain, value: int, c: FieldChanger)
  {
    d == Unsigned ==>
      value >= 0 && c.event.UnwrapOr(0) >= 0 && c.velocity.UnwrapOr(0) >= 0
      && c.min.UnwrapOr(0) >= 0 && c.max.UnwrapOr(0) >= 0
  }

  /** The decrement panics: a division by zero, or a `usize` going below zero. */
  predicate Fails(d: Domain, x: Option<int>)
  {
    x.None? || (d == Unsigned && x.value < 0)
  }

  function LimitEvents(clampMin: bool, min: int, clampMax: bool, max: int): seq<Limit>
  {
    (if clampMin then [MinimumValue(min)] else []) + (if clampMax then [MaximumValue(max)] else [])
  }

  // ----- display-sim-core: operate_filter -----

  /** The step of `operate_filter`: a limit reached before the update blocks the step towards it; `None` on a division by zero. */
  function StepOf(value: int, c: FieldChanger, p: Progression): Option<int>
  {
    var isMin := c.min.Some? && value <= c.min.value;
    var isMax := c.max.Some? && value >= c.max.value;
    var v := c.velocity.UnwrapOr(0);
    var x1 := if !isMax && c.increase then IncOp(p, value, v) else value;
    if !isMin && c.decrease then DecOp(p, x1, v) else Some(x1)
  }

  /** The rest of `operate_filter` on the stepped value `x`: event override, clamps against the limits, handler. */
  function FinishOf(value: int, x: int, c: FieldChanger): Outcome
  {
    var isMin := c.min.Some? && value <= c.min.value;
    var isMax := c.max.Some? && value >= c.max.value;
    var x3 := if c.event.Some? then c.event.value else x;
    var clampMin := c.min.Some? && (x3 < c.min.value || (isMin && c.decrease));
    var x4 := if clampMin then c.min.value else x3;
    var clampMax := c.max.Some? && (x4 > c.max.value || (isMax && c.increase));
    var x5 := if clampMax then c.max.value else x4;
    Done(x5, x5 != value && c.hasHandler,
         LimitEvents(clampMin, c.min.UnwrapOr(0), clampMax, c.max.UnwrapOr(0)))
  }

  /**
   * `operate_filter`: the limits reached before the update block the step
   * towards them, the event value overrides, then the value is clamped (also
   * when a blocked step pushed against the limit), and the handler runs iff
   * the value changed.
   */
  function OperateFilterOf(value: int, c: FieldChanger, p: Progression, d: Domain): Outcome
    requires Fits(d, value, c)
  {
    var x := StepOf(value, c, p);
    if Fails(d, x) then Panicked else FinishOf(value, x.value, c)
  }

  /** The step of `operate_filter` on the field. */
  method Step(value: int, c: FieldChanger, p: Progression) returns (x: Option<int>)
    ensures x == StepOf(value, c, p)
  {
    var v := value;
    var isMin := c.min.Some? && v <= c.min.value;
    var isMax := c.max.Some? && v >= c.max.value;
    var velocity := if c.velocity.Some? then c.velocity.value else 0;
    if !isMax && c.increase {
      v := IncOp(p, v, velocity);
    }
    if !isMin && c.decrease {
      return DecOp(p, v, velocity);
    }
    x := Some(v);
  }

  /** The event override, clamps and handler of `operate_filter` on the stepped field `x`. */
  method Finish(lastValue: int, x: int, c: FieldChanger) returns (r: Outcome)
    ensures r == FinishOf(lastValue, x, c)
  {
    var v := x;
    var isMin := c.min.Some? && lastValue <= c.min.value;
    var isMax := c.max.Some? && lastValue >= c.max.value;
    if c.event.Some? {
      v := c.event.value;
    }
    var clampMin := c.min.Some? && (v < c.min.value || (isMin && c.decrease));
    if clampMin {
      v := c.min.value;
    }
    var clampMax := c.max.Some? && (v > c.max.value || (isMax && c.increase));
    if clampMax {
      v := c.max.value;
    }
    r := Done(v, lastValue != v && c.hasHandler, LimitEvents(clampMin, c.min.UnwrapOr(0), clampMax, c.max.UnwrapOr(0)));
  }

  /** `operate_filter` as the source runs it, updating the field step by step; a failed step panics. */
  method OperateFilter(value: int, c: FieldChanger, p: Progression, d: Domain) returns (r: Outcome)
    requires Fits(d, value, c)
    ensures r == OperateFilterOf(value, c, p, d)
  {
    var x := Step(value, c, p);
    if Fails(d, x) {
      return Panicked;
    }
    r := Finish(value, x.value, c);
  }

  /** With both bounds set and `min <= max`, the result lies in [min, max]. */
  lemma OperateFilterBounded(value: int, c: FieldChanger, p: Progression, d: Domain)
    requires Fits(d, value, c) && c.min.Some? && c.max.Some? && c.min.value <= c.max.value
    requires OperateFilterOf(value, c, p, d).Done?
    ensures c.min.value <= OperateFilterOf(value, c, p, d).value <= c.max.value
  {
  }

  /** Without bounds, a present event value is the result whatever inc and dec say. */
  lemma OperateFilterEventOverrides(value: int, c: FieldChanger)
    requires c.event.Some? && c.min.None? && c.max.None?
    ensures OperateFilterOf(value, c, Sums, Signed) == Done(c.event.value, c.event.value != value && c.hasHandler, [])
  {
  }

  /** Without bounds or event, sums add the progression on inc, subtract it on dec, and both together cancel. */
  lemma OperateFilterSums(value: int, c: FieldChanger)
    requires c.event.None? && c.min.None? && c.max.None?
    ensures OperateFilterOf(value, c, Sums, Signed).Done?
    ensures OperateFilterOf(value, c, Sums, Signed).value
         == value + (if c.increase then c.velocity.UnwrapOr(0) else 0) - (if c.decrease then c.velocity.UnwrapOr(0) else 0)
  {
  }

  /** The handler runs iff it is set and the value changed. */
  lemma OperateFilterTriggerIffChanged(value: int, c: FieldChanger, p: Progression, d: Domain)
    requires Fits(d, value, c) && OperateFilterOf(value, c, p, d).Done?
    ensures OperateFilterOf(value, c, p, d).triggered <==> (c.hasHandler && OperateFilterOf(value, c, p, d).value != value)
  {
  }

  /** At or below the minimum a decrement is blocked, the value is set to the minimum and the minimum is dispatched. */
  lemma MinimumBlocksDecrement(value: int, c: FieldChanger, p: Progression, d: Domain)
    requires Fits(d, value, c) && c.min.Some? && value <= c.min.value
    requires c.decrease && !c.increase && c.event.None? && c.max.None?
    ensures OperateFilterOf(value, c, p, d) == Done(c.min.value, c.min.value != value && c.hasHandler, [MinimumValue(c.min.value)])
  {
  }

  /**
   * A `usize` field stepped down by sums never underflows when the minimum is
   * at least the progression minus one: the decrement runs only above the
   * minimum.
   */
  lemma NoUnsignedUnderflow(value: int, c: FieldChanger)
    requires Fits(Unsigned, value, c) && c.min.Some? && c.velocity.UnwrapOr(0) <= c.min.value + 1
    ensures OperateFilterOf(value, c, Sums, Unsigned).Done?
  {
  }

  /** A decrement by a zero progression (the default) panics under multiplications. */
  lemma DivisionByZeroPanics(value: int)
    ensures OperateFilterOf(value, New(GeneralTypes.IncDec(false, true)), Multiplications, Signed) == Panicked
  {
  }

  function Sut(increase: bool, decrease: bool): FieldChanger
  {
    New(GeneralTypes.IncDec(increase, decrease)).(hasHandler := true)
  }

  /** The unit tests of field_changer.rs. */
  lemma OperateFilterTests()
    ensures OperateFilterOf(0, Sut(true, false).(event := Some(3)), Sums, Signed).value == 3
    ensures OperateFilterOf(0, Sut(false, false).(velocity := Some(1)), Sums, Signed).value == 0
    ensures OperateFilterOf(0, Sut(true, false).(velocity := Some(1)), Sums, Signed).value == 1
    ensures OperateFilterOf(0, Sut(false, true).(velocity := Some(1)), Sums, Signed).value == -1
    ensures OperateFilterOf(0, Sut(true, true).(velocity := Some(1)), Sums, Signed).value == 0
    ensures OperateFilterOf(0, Sut(false, true).(velocity := Some(1), min := Some(0)), Sums, Signed).value == 0
    ensures OperateFilterOf(0, Sut(true, false).(velocity := Some(1), min := Some(0)), Sums, Signed).value == 1
    ensures OperateFilterOf(0, Sut(true, false).(velocity := Some(1), max := Some(0)), Sums, Signed).value == 0
    ensures OperateFilterOf(0, Sut(false, true).(velocity := Some(1), max := Some(0)), Sums, Signed).value == -1
    ensures OperateFilterOf(0, Sut(false, true).(velocity := Some(1)), Sums, Signed).triggered
    ensures !OperateFilterOf(0, Sut(false, true).(velocity := Some(1), min := Some(0)), Sums, Signed).triggered
    ensures OperateFilterOf(5, Sut(true, false).(velocity := Some(3)), Multiplications, Signed).value == 15
    ensures OperateFilterOf(15, Sut(false, true).(velocity := Some(3)), Multiplications, Signed).value == 5
  {
  }

  // ----- screen-sim-core: the older operate_filter -----

  /** The older update before clamping: inc, dec and event applied unconditionally; `None` on a panic. */
  function RawUpdateOld(value: int, c: FieldChanger, p: Progression, d: Domain): (x: Option<int>)
    requires Fits(d, value, c)
    ensures c.event.Some? && x.Some? ==> x.value == c.event.value
  {
    var v := c.velocity.UnwrapOr(0);
    var x1 := if c.increase then IncOp(p, value, v) else value;
    var x2 := if c.decrease then DecOp(p, x1, v) else Some(x1);
    if Fails(d, x2) then None
    else if c.event.Some? then Some(c.event.value) else x2
  }

  /** The older `operate_filter`: clamping and the handler happen only when the raw update changed the value. */
  function OperateFilterOldOf(value: int, c: FieldChanger, p: Progression, d: Domain): Outcome
    requires Fits(d, value, c)
  {
    var raw := RawUpdateOld(value, c, p, d);
    if raw.None? then Panicked
    else if raw.value == value then Done(value, false, [])
    else
      var x3 := raw.value;
      var clampMin := c.min.Some? && x3 < c.min.value;
      var x4 := if clampMin then c.min.value else x3;
      var clampMax := c.max.Some? && x4 > c.max.value;
      var x5 := if clampMax then c.max.value else x4;
      Done(x5, c.hasHandler, LimitEvents(clampMin, c.min.UnwrapOr(0), clampMax, c.max.UnwrapOr(0)))
  }

  method OperateFilterOld(value: int, c: FieldChanger, p: Progression, d: Domain) returns (r: Outcome)
    requires Fits(d, value, c)
    ensures r == OperateFilterOldOf(value, c, p, d)
  {
    var lastValue := value;
    var x := value;
    var velocity := if c.velocity.Some? then c.velocity.value else 0;
    if c.increase {
      x := IncOp(p, x, velocity);
    }
    if c.decrease {
      var y := DecOp(p, x, velocity);
      if Fails(d, y) {
        return Panicked;
      }
      x := y.value;
    }
    if c.event.Some? {
      x := c.event.value;
    }
    if lastValue == x {
      return Done(x, false, []);
    }
    var clampMin := c.min.Some? && x < c.min.value;
    if clampMin {
      x := c.min.value;
    }
    var clampMax := c.max.Some? && x > c.max.value;
    if clampMax {
      x := c.max.value;
    }
    r := Done(x, c.hasHandler, LimitEvents(clampMin, c.min.UnwrapOr(0), clampMax, c.max.UnwrapOr(0)));
  }

  /** With no inc, dec or event the value is kept, even out of range, and the handler does not run. */
  lemma OldNoInputUnchanged(value: int, c: FieldChanger, p: Progression, d: Domain)
    requires Fits(d, value, c)
    requires !c.increase && !c.decrease && c.event.None?
    ensures OperateFilterOldOf(value, c, p, d) == Done(value, false, [])
  {
  }

  /** When the raw update changes the value, the result lies in [min, max]. */
  lemma OldBoundedWhenChanged(value: int, c: FieldChanger, p: Progression, d: Domain)
    requires Fits(d, value, c)
    requires c.min.Some? && c.max.Some? && c.min.value <= c.max.value
    requires RawUpdateOld(value, c, p, d).Some? && RawUpdateOld(value, c, p, d).value != value
    ensures OperateFilterOldOf(value, c, p, d).Done?
    ensures c.min.value <= OperateFilterOldOf(value, c, p, d).value <= c.max.value
  {
  }

  /** The handler runs whenever the raw update changed the value, even when clamping restores the original. */
  lemma OldHandlerFiresOnRawChange(value: int, c: FieldChanger, p: Progression, d: Domain)
    requires Fits(d, value, c)
    requires c.hasHandler && RawUpdateOld(value, c, p, d).Some? && RawUpdateOld(value, c, p, d).value != value
    ensures OperateFilterOldOf(value, c, p, d).triggered
  {
  }

  lemma OldClampRestoresButTriggers()
    ensures OperateFilterOldOf(0, Sut(false, true).(velocity := Some(1), min := Some(0)), Sums, Signed) == Done(0, true, [MinimumValue(0)])
  {
  }

  /** A present event value is the result when no bound intervenes. */
  lemma OldEventOverrides(value: int, c: FieldChanger, p: Progression, d: Domain)
    requires Fits(d, value, c)
    requires c.event.Some? && c.min.None? && c.max.None? && RawUpdateOld(value, c, p, d).Some?
    ensures OperateFilterOldOf(value, c, p, d).value == c.event.value
  {
  }

  // ----- process_options over the option cursors -----

  /** The `OptionCursor` types the controllers drive: the blanket enum cursor, `ShadowShape` and the UI controller's `InternalResolution`. */
  datatype Cursor =
    | EnumCursor(e: GeneralTypes.EnumValue)
    | ShadowCursor(shadow: nat)
    | ResolutionCursor(res: InternalResolutions.Resolution)

  ghost predicate CursorValid(c: Cursor)
  {
    match c
    case EnumCursor(e) => e.Valid()
    case ShadowCursor(s) => s < PixelsShadow.ShadowsLen
    case ResolutionCursor(r) => InternalResolutions.Reachable(r)
  }

  function CursorNext(c: Cursor): (r: Cursor)
    requires CursorValid(c)
    ensures CursorValid(r)
  {
    match c
    case EnumCursor(e) => GeneralTypes.NextWraps(e); EnumCursor(GeneralTypes.NextOption(e))
    case ShadowCursor(s) => ShadowCursor(PixelsShadow.ShadowNext(s))
    case ResolutionCursor(r) =>
      InternalResolutions.MovesKeepHeightPositive(r, InternalResolutions.Ui);
      ResolutionCursor(InternalResolutions.NextOptionOf(r, InternalResolutions.Ui))
  }

  function CursorPrevious(c: Cursor): (r: Cursor)
    requires CursorValid(c)
    ensures CursorValid(r)
  {
    match c
    case EnumCursor(e) => GeneralTypes.PreviousWraps(e); EnumCursor(GeneralTypes.PreviousOption(e))
    case ShadowCursor(s) => ShadowCursor(PixelsShadow.ShadowPrevious(s))
    case ResolutionCursor(r) =>
      InternalResolutions.MovesKeepHeightPositive(r, InternalResolutions.Ui);
      ResolutionCursor(InternalResolutions.PreviousOptionOf(r, InternalResolutions.Ui))
  }

  function HasReachedMinimumLimit(c: Cursor): bool
  {
    c.ResolutionCursor? && c.res.minimumReached
  }

  function HasReachedMaximumLimit(c: Cursor): bool
  {
    c.ResolutionCursor? && c.res.maximumReached
  }

  datatype LimitKind = Minimum | Maximum

  /** The new option, whether the handler ran, and which limit was dispatched. */
  datatype OptionsOutcome = OptionsOutcome(value: Cursor, triggered: bool, dispatched: Option<LimitKind>)

  /**
   * `process_options`: next on inc, then previous on dec, then the event value;
   * after any of these a reached limit is dispatched (minimum first), and
   * otherwise the handler runs.
   */
  function ProcessOptionsOf(c: Cursor, increase: bool, decrease: bool, event: Option<Cursor>, hasHandler: bool): (r: OptionsOutcome)
    requires CursorValid(c) && (event.Some? ==> CursorValid(event.value))
    ensures CursorValid(r.value)
  {
    var c1 := if increase then CursorNext(c) else c;
    var c2 := if decrease then CursorPrevious(c1) else c1;
    var c3 := if event.Some? then event.value else c2;
    var changed := increase || decrease || event.Some?;
    if !changed then OptionsOutcome(c3, false, None)
    else if HasReachedMinimumLimit(c3) then OptionsOutcome(c3, false, Some(Minimum))
    else if HasReachedMaximumLimit(c3) then OptionsOutcome(c3, false, Some(Maximum))
    else OptionsOutcome(c3, hasHandler, None)
  }

  /** `process_options` as the source runs it; the result is `triggered`, which is what it returns. */
  method ProcessOptions(c: Cursor, increase: bool, decrease: bool, event: Option<Cursor>, hasHandler: bool) returns (r: OptionsOutcome)
    requires CursorValid(c) && (event.Some? ==> CursorValid(event.value))
    ensures r == ProcessOptionsOf(c, increase, decrease, event, hasHandler)
  {
    var x := c;
    var changed := false;
    if increase {
      x := CursorNext(x);
      changed := true;
    }
    if decrease {
      x := CursorPrevious(x);
      changed := true;
    }
    if event.Some? {
      x := event.value;
      changed := true;
    }
    if changed {
      if HasReachedMinimumLimit(x) {
        return OptionsOutcome(x, false, Some(Minimum));
      } else if HasReachedMaximumLimit(x) {
        return OptionsOutcome(x, false, Some(Maximum));
      } else if hasHandler {
        return OptionsOutcome(x, true, None);
      }
    }
    r := OptionsOutcome(x, false, None);
  }

  /** inc moves to the next option, dec to the previous, and both together leave an enum or shadow cursor where it was. */
  lemma ProcessOptionsMoves(c: Cursor, hasHandler: bool)
    requires CursorValid(c)
    ensures ProcessOptionsOf(c, true, false, None, hasHandler).value == CursorNext(c)
    ensures ProcessOptionsOf(c, false, true, None, hasHandler).value == CursorPrevious(c)
    ensures ProcessOptionsOf(c, false, false, None, hasHandler) == OptionsOutcome(c, false, None)
    ensures !c.ResolutionCursor? ==> ProcessOptionsOf(c, true, true, None, hasHandler).value == c
  {
    if c.EnumCursor? {
      GeneralTypes.NextPreviousInverse(c.e);
    } else if c.ShadowCursor? {
      PixelsShadow.ShadowInverse(c.shadow);
    }
  }

  /** A present event sets the option. */
  lemma ProcessOptionsEvent(c: Cursor, increase: bool, decrease: bool, e: Cursor, hasHandler: bool)
    requires CursorValid(c) && CursorValid(e)
    ensures ProcessOptionsOf(c, increase, decrease, Some(e), hasHandler).value == e
  {
  }

  /** The handler runs (and `true` is returned) iff something changed, no limit is reported and a handler is set. */
  lemma ProcessOptionsTriggerIff(c: Cursor, increase: bool, decrease: bool, event: Option<Cursor>, hasHandler: bool)
    requires CursorValid(c) && (event.Some? ==> CursorValid(event.value))
    ensures var r := ProcessOptionsOf(c, increase, decrease, event, hasHandler);
      r.triggered <==> (increase || decrease || event.Some?) && hasHandler
                       && !HasReachedMinimumLimit(r.value) && !HasReachedMaximumLimit(r.value)
  {
  }

  /** The older `process_options` of filter_params.rs calls the handler only when changed and no limit is reached; a limit is dispatched instead. */
  lemma OldProcessOptionsDispatch(c: Cursor, increase: bool, decrease: bool, event: Option<Cursor>, hasHandler: bool)
    requires CursorValid(c) && (event.Some? ==> CursorValid(event.value))
    ensures var r := ProcessOptionsOf(c, increase, decrease, event, hasHandler);
      (r.dispatched == Some(Minimum) <==> (increase || decrease || event.Some?) && HasReachedMinimumLimit(r.value))
      && (r.dispatched == Some(Maximum) <==> (increase || decrease || event.Some?) && !HasReachedMinimumLimit(r.value) && HasReachedMaximumLimit(r.value))
  {
  }

  /** The unit tests of `process_options`, over an enum with variants A, B, C. */
  lemma ProcessOptionsTests()
    ensures ProcessOptionsOf(EnumCursor(GeneralTypes.EnumValue(0, 3)), true, false, Some(EnumCursor(GeneralTypes.EnumValue(2, 3))), true).value.e.index == 2
    ensures ProcessOptionsOf(EnumCursor(GeneralTypes.EnumValue(0, 3)), false, false, None, true).value.e.index == 0
    ensures ProcessOptionsOf(EnumCursor(GeneralTypes.EnumValue(0, 3)), true, false, None, true).value.e.index == 1
    ensures ProcessOptionsOf(EnumCursor(GeneralTypes.EnumValue(1, 3)), false, true, None, true).value.e.index == 0
    ensures ProcessOptionsOf(EnumCursor(GeneralTypes.EnumValue(0, 3)), true, true, None, true).value.e.index == 0
    ensures ProcessOptionsOf(EnumCursor(GeneralTypes.EnumValue(0, 3)), false, true, None, true).triggered
  {
  }
}
