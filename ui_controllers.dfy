/**
 * The integer, enum, preset and internal-resolution UI controllers of
 * display-sim-core (the files under ui_controller). Each controller keeps its raw inputs,
 * a pending event value and its value; `update` runs a `FieldChanger` over
 * them. Event decoding (`EncodedValue`) and the dispatched messages are not
 * modelled: `read_event` takes the decoded value.
 */
module UiControllers {
  import opened Wrappers
  import opened GeneralTypes
  import opened BooleanButtons
  import FieldChangers
  import InternalResolutions

  function ToIntOption(o: Option<nat>): (r: Option<int>)
    ensures r.Some? == o.Some? && (o.Some? ==> r.value == o.value)
  {
    if o.Some? then Some(o.value) else None
  }

  function Clamp(x: int, lo: int, hi: int): int
  {
    if x < lo then lo else if x > hi then hi else x
  }

  // ----- lines per pixel: a usize in [1, 20] -----

  /** The `FieldChanger` both lines-per-pixel controllers build. */
  function LppChanger(input: IncDec<bool>, event: Option<nat>): FieldChangers.FieldChanger
  {
    FieldChangers.FieldChanger(input.increase, input.decrease, ToIntOption(event), Some(1), Some(1), Some(20), true)
  }

  /** One lines-per-pixel `update`: the outcome of `process_with_sums` on the `usize` value. */
  function LppUpdate(value: nat, input: IncDec<bool>, event: Option<nat>): FieldChangers.Outcome
  {
    FieldChangers.OperateFilterOf(value, LppChanger(input, event), FieldChangers.Sums, FieldChangers.Unsigned)
  }

  /** `update` never underflows the `usize` and leaves the value in [1, 20]; it reports a change iff the value changed. */
  lemma LppUpdateBounded(value: nat, input: IncDec<bool>, event: Option<nat>)
    ensures LppUpdate(value, input, event).Done?
    ensures 1 <= LppUpdate(value, input, event).value <= 20
    ensures LppUpdate(value, input, event).triggered <==> LppUpdate(value, input, event).value != value
  {
    FieldChangers.NoUnsignedUnderflow(value, LppChanger(input, event));
    FieldChangers.OperateFilterBounded(value, LppChanger(input, event), FieldChangers.Sums, FieldChangers.Unsigned);
  }

  /** The default value 0 is raised to 1 by the first update without input, and that counts as a change. */
  lemma LppDefaultRaisedToOne()
    ensures LppUpdate(0, IncDec(false, false), None) == FieldChangers.Done(1, true, [FieldChangers.MinimumValue(1)])
  {
  }

  /**
   * An event value is clamped into [1, 20], except that a value already at
   * a limit, with the key pushing against that limit held, is put back on
   * the limit whatever the event says.
   */
  lemma LppEventClamped(value: nat, input: IncDec<bool>, e: nat)
    ensures LppUpdate(value, input, Some(e)).value ==
              if value <= 1 && input.decrease then 1
              else if value >= 20 && input.increase then 20
              else Clamp(e, 1, 20)
    ensures !input.increase && !input.decrease ==> LppUpdate(value, input, Some(e)).value == Clamp(e, 1, 20)
  {
    LppUpdateBounded(value, input, Some(e));
  }

  /** `HorizontalLpp`: raw levels as inputs. */
  class HorizontalLpp {
    var input: IncDec<bool>
    var event: Option<nat>
    var value: nat

    /** `Default`. */
    constructor ()
      ensures input == IncDec(false, false) && event.None? && value == 0
    {
      input, event, value := IncDec(false, false), None, 0;
    }

    /** `From<usize>`. */
    constructor From(v: nat)
      ensures input == IncDec(false, false) && event.None? && value == v
    {
      input, event, value := IncDec(false, false), None, v;
    }

    method Update() returns (changed: bool)
      modifies this
      ensures 1 <= value <= 20
      ensures value == LppUpdate(old(value), input, event).value
      ensures changed == LppUpdate(old(value), input, event).triggered
      ensures input == old(input) && event == old(event)
    {
      var o := FieldChangers.OperateFilter(value, LppChanger(input, event), FieldChangers.Sums, FieldChangers.Unsigned);
      LppUpdateBounded(value, input, event);
      value := o.value;
      changed := o.triggered;
    }

    method ApplyEvent()
      modifies this
      ensures value == (if old(event).Some? then old(event).value else old(value))
      ensures input == old(input) && event == old(event)
    {
      if event.Some? {
        value := event.value;
      }
    }

    method ResetInputs()
      modifies this
      ensures input == IncDec(false, false) && event.None? && value == old(value)
    {
      event := None;
      input := IncDec(false, false);
    }

    method ReadEvent(v: nat)
      modifies this
      ensures event == Some(v) && input == old(input) && value == old(value)
    {
      event := Some(v);
    }

    method ReadKeyInc(pressed: bool)
      modifies this
      ensures input == old(input).(increase := pressed) && event == old(event) && value == old(value)
    {
      input := input.(increase := pressed);
    }

    method ReadKeyDec(pressed: bool)
      modifies this
      ensures input == old(input).(decrease := pressed) && event == old(event) && value == old(value)
    {
      input := input.(decrease := pressed);
    }

    method PostProcessInput()
      modifies this
      ensures event.None? && input == old(input) && value == old(value)
    {
      event := None;
    }
  }

  /** `VerticalLpp`: buttons as inputs, of which only the just-pressed edges count. */
  class VerticalLpp {
    const input: IncDec<BooleanButton>
    var event: Option<nat>
    var value: nat

    ghost predicate Valid()
      reads this
    {
      input.increase != input.decrease
    }

    constructor From(v: nat)
      ensures Valid() && fresh(input.increase) && fresh(input.decrease)
      ensures input.increase.Flags() == Released && input.decrease.Flags() == Released
      ensures event.None? && value == v
    {
      var inc := new BooleanButton();
      var dec := new BooleanButton();
      input := IncDec(inc, dec);
      event, value := None, v;
    }

    method Update() returns (changed: bool)
      modifies this
      ensures 1 <= value <= 20
      ensures value == LppUpdate(old(value), ToJustPressed(input), event).value
      ensures changed == LppUpdate(old(value), ToJustPressed(input), event).triggered
      ensures event == old(event)
    {
      var jp := ToJustPressed(input);
      var o := FieldChangers.OperateFilter(value, LppChanger(jp, event), FieldChangers.Sums, FieldChangers.Unsigned);
      LppUpdateBounded(value, jp, event);
      value := o.value;
      changed := o.triggered;
    }

    /** `reset_inputs` clears the event and the raw levels of both buttons, not their edge flags. */
    method ResetInputs()
      requires Valid()
      modifies this, input.increase, input.decrease
      ensures event.None? && value == old(value)
      ensures !input.increase.input && !input.decrease.input
      ensures input.increase.Flags() == old(input.increase.Flags()) && input.decrease.Flags() == old(input.decrease.Flags())
    {
      event := None;
      input.increase.input := false;
      input.decrease.input := false;
    }

    method ReadEvent(v: nat)
      modifies this
      ensures event == Some(v) && value == old(value)
    {
      event := Some(v);
    }

    method ReadKeyInc(pressed: bool)
      modifies input.increase
      ensures input.increase.input == pressed && input.increase.Flags() == old(input.increase.Flags())
    {
      input.increase.input := pressed;
    }

    method ReadKeyDec(pressed: bool)
      modifies input.decrease
      ensures input.decrease.input == pressed && input.decrease.Flags() == old(input.decrease.Flags())
    {
      input.decrease.input := pressed;
    }

    /** `pre_process_input` tracks both buttons. */
    method PreProcessInput()
      requires Valid()
      modifies input.increase, input.decrease
      ensures input.increase.Flags() == Tracked(old(input.increase.Flags()), input.increase.input)
      ensures input.decrease.Flags() == Tracked(old(input.decrease.Flags()), input.decrease.input)
    {
      TrackBoth(input);
    }

    method PostProcessInput()
      modifies this
      ensures event.None? && value == old(value)
    {
      event := None;
    }
  }

  // ----- brightness colour: an i32 in [0, 100] -----

  function BrightnessChanger(input: IncDec<bool>, event: Option<int>): FieldChangers.FieldChanger
  {
    FieldChangers.FieldChanger(input.increase, input.decrease, event, Some(1), Some(0), Some(100), true)
  }

  function BrightnessUpdate(value: int, input: IncDec<bool>, event: Option<int>): FieldChangers.Outcome
  {
    FieldChangers.OperateFilterOf(value, BrightnessChanger(input, event), FieldChangers.Sums, FieldChangers.Signed)
  }

  /** `update` leaves the value in [0, 100] and reports a change iff the value changed. */
  lemma BrightnessUpdateBounded(value: int, input: IncDec<bool>, event: Option<int>)
    ensures BrightnessUpdate(value, input, event).Done?
    ensures 0 <= BrightnessUpdate(value, input, event).value <= 100
    ensures BrightnessUpdate(value, input, event).triggered <==> BrightnessUpdate(value, input, event).value != value
  {
    FieldChangers.OperateFilterBounded(value, BrightnessChanger(input, event), FieldChangers.Sums, FieldChangers.Signed);
  }

  /** The brightness colour answers to the blur-level keys. */
  const BrightnessKeysInc: seq<string> := ["j", "blur-level-inc"]
  const BrightnessKeysDec: seq<string> := ["shift+j", "blur-level-dec"]

  class BrightnessColor {
    var input: IncDec<bool>
    var event: Option<int>
    var value: int

    constructor From(v: int)
      ensures input == IncDec(false, false) && event.None? && value == v
    {
      input, event, value := IncDec(false, false), None, v;
    }

    method Update() returns (changed: bool)
      modifies this
      ensures 0 <= value <= 100
      ensures value == BrightnessUpdate(old(value), input, event).value
      ensures changed == BrightnessUpdate(old(value), input, event).triggered
      ensures input == old(input) && event == old(event)
    {
      var o := FieldChangers.OperateFilter(value, BrightnessChanger(input, event), FieldChangers.Sums, FieldChangers.Signed);
      BrightnessUpdateBounded(value, input, event);
      value := o.value;
      changed := o.triggered;
    }

    method ApplyEvent()
      modifies this
      ensures value == (if old(event).Some? then old(event).value else old(value))
      ensures input == old(input) && event == old(event)
    {
      if event.Some? {
        value := event.value;
      }
    }

    method ResetInputs()
      modifies this
      ensures input == IncDec(false, false) && event.None? && value == old(value)
    {
      event := None;
      input := IncDec(false, false);
    }

    method ReadEvent(v: int)
      modifies this
      ensures event == Some(v) && input == old(input) && value == old(value)
    {
      event := Some(v);
    }

    method ReadKeyInc(pressed: bool)
      modifies this
      ensures input == old(input).(increase := pressed) && event == old(event) && value == old(value)
    {
      input := input.(increase := pressed);
    }

    method ReadKeyDec(pressed: bool)
      modifies this
      ensures input == old(input).(decrease := pressed) && event == old(event) && value == old(value)
    {
      input := input.(decrease := pressed);
    }

    method PostProcessInput()
      modifies this
      ensures event.None? && input == old(input) && value == old(value)
    {
      event := None;
    }
  }

  // ----- EnumHolder: an enum driven by process_options -----

  /** One `EnumHolder::update`: the stored event is not handed to the `FieldChanger`. */
  function EnumUpdate(value: EnumValue, pressed: IncDec<bool>): (r: FieldChangers.OptionsOutcome)
    requires value.Valid()
    ensures r.value.EnumCursor? && r.value.e.Valid()
  {
    FieldChangers.ProcessOptionsOf(FieldChangers.EnumCursor(value), pressed.increase, pressed.decrease, None, true)
  }

  /** With only inc just pressed the holder moves to the next variant and reports a change; both pressed leave it in place. */
  lemma EnumUpdateMoves(value: EnumValue)
    requires value.Valid()
    ensures EnumUpdate(value, IncDec(true, false)) == FieldChangers.OptionsOutcome(FieldChangers.EnumCursor(NextOption(value)), true, None)
    ensures EnumUpdate(value, IncDec(false, true)) == FieldChangers.OptionsOutcome(FieldChangers.EnumCursor(PreviousOption(value)), true, None)
    ensures EnumUpdate(value, IncDec(true, true)).value.e == value
    ensures EnumUpdate(value, IncDec(false, false)) == FieldChangers.OptionsOutcome(FieldChangers.EnumCursor(value), false, None)
  {
    FieldChangers.ProcessOptionsMoves(FieldChangers.EnumCursor(value), true);
  }

  class EnumHolder {
    const input: IncDec<BooleanButton>
    var event: Option<EnumValue>
    var value: EnumValue

    ghost predicate Valid()
      reads this
    {
      input.increase != input.decrease && value.Valid()
    }

    constructor From(v: EnumValue)
      requires v.Valid()
      ensures Valid() && fresh(input.increase) && fresh(input.decrease)
      ensures input.increase.Flags() == Released && input.decrease.Flags() == Released
      ensures event.None? && value == v
    {
      var inc := new BooleanButton();
      var dec := new BooleanButton();
      input := IncDec(inc, dec);
      event, value := None, v;
    }

    /** `update`: whatever `event` holds, the value follows the just-pressed edges only. */
    method Update() returns (changed: bool)
      requires Valid()
      modifies this
      ensures Valid()
      ensures value == EnumUpdate(old(value), ToJustPressed(input)).value.e
      ensures changed == EnumUpdate(old(value), ToJustPressed(input)).triggered
      ensures event == old(event)
    {
      var jp := ToJustPressed(input);
      var o := FieldChangers.ProcessOptions(FieldChangers.EnumCursor(value), jp.increase, jp.decrease, None, true);
      value := o.value.e;
      changed := o.triggered;
    }

    method ResetInputs()
      requires Valid()
      modifies this, input.increase, input.decrease
      ensures Valid() && event.None? && value == old(value)
      ensures !input.increase.input && input.increase.Flags() == Released
      ensures !input.decrease.input && input.decrease.Flags() == Released
    {
      ResetButtons(input);
      event := None;
    }

    method ReadEvent(v: EnumValue)
      modifies this
      ensures event == Some(v) && value == old(value)
    {
      event := Some(v);
    }

    method ReadKeyInc(pressed: bool)
      modifies input.increase
      ensures input.increase.input == pressed && input.increase.Flags() == old(input.increase.Flags())
    {
      input.increase.input := pressed;
    }

    method ReadKeyDec(pressed: bool)
      modifies input.decrease
      ensures input.decrease.input == pressed && input.decrease.Flags() == old(input.decrease.Flags())
    {
      input.decrease.input := pressed;
    }

    method PreProcessInput()
      requires Valid()
      modifies input.increase, input.decrease
      ensures input.increase.Flags() == Tracked(old(input.increase.Flags()), input.increase.input)
      ensures input.decrease.Flags() == Tracked(old(input.decrease.Flags()), input.decrease.input)
    {
      TrackBoth(input);
    }

    method PostProcessInput()
      modifies this
      ensures event.None? && value == old(value)
    {
      event := None;
    }
  }

  // ----- the filter-preset selector -----

  datatype FilterPresetOptions = Sharp1 | CrtApertureGrille1 | CrtShadowMask1 | CrtShadowMask2 | DemoFlight1 | Custom

  const DefaultFilterPreset := CrtApertureGrille1

  function FilterPresetToString(p: FilterPresetOptions): string
  {
    match p
    case Sharp1 => "sharp-1"
    case CrtApertureGrille1 => "crt-aperture-grille-1"
    case CrtShadowMask1 => "crt-shadow-mask-1"
    case CrtShadowMask2 => "crt-shadow-mask-2"
    case DemoFlight1 => "demo-1"
    case Custom => "custom"
  }

  function FilterPresetFromStr(name: string): Result<FilterPresetOptions, string>
  {
    match name
    case "sharp-1" => Ok(Sharp1)
    case "crt-aperture-grille-1" => Ok(CrtApertureGrille1)
    case "crt-shadow-mask-1" => Ok(CrtShadowMask1)
    case "crt-shadow-mask-2" => Ok(CrtShadowMask2)
    case "demo-1" => Ok(DemoFlight1)
    case "custom" => Ok(Custom)
    case _ => Err("Unknown name for a preset")
  }

  /** Parsing accepts exactly the printed names: `from_str(s) == Ok(p)` iff `s == p.to_string()`; every other name is an `Err`. */
  lemma FilterPresetRoundTrip(p: FilterPresetOptions, name: string)
    ensures FilterPresetFromStr(FilterPresetToString(p)) == Ok(p)
    ensures FilterPresetFromStr(name) == Ok(p) <==> name == FilterPresetToString(p)
    ensures FilterPresetFromStr(name).Err? <==> forall q: FilterPresetOptions :: name != FilterPresetToString(q)
  {
    if FilterPresetFromStr(name).Err? {
      forall q: FilterPresetOptions ensures name != FilterPresetToString(q) {
        var r := FilterPresetFromStr(FilterPresetToString(q));
        assert r.Ok?;
      }
    } else {
      var q := FilterPresetFromStr(name).value;
      assert name == FilterPresetToString(q);
    }
  }

  class FilterPreset {
    var input: IncDec<bool>
    var event: Option<FilterPresetOptions>
    var value: FilterPresetOptions

    /** `Default`. */
    constructor ()
      ensures input == IncDec(false, false) && event.None? && value == DefaultFilterPreset
    {
      input, event, value := IncDec(false, false), None, DefaultFilterPreset;
    }

    /** `update` changes nothing and reports no change. */
    method Update() returns (changed: bool)
      ensures !changed
    {
      changed := false;
    }

    method ApplyEvent()
      modifies this
      ensures value == (if old(event).Some? then old(event).value else old(value))
      ensures input == old(input) && event == old(event)
    {
      if event.Some? {
        value := event.value;
      }
    }

    method ResetInputs()
      modifies this
      ensures input == IncDec(false, false) && event.None? && value == old(value)
    {
      event := None;
      input := IncDec(false, false);
    }

    /** `read_event`: an unknown name is an error and leaves the event as it was. */
    method ReadEvent(name: string) returns (r: Result<(), string>)
      modifies this
      ensures r.Ok? <==> FilterPresetFromStr(name).Ok?
      ensures event == (if r.Ok? then Some(FilterPresetFromStr(name).value) else old(event))
      ensures input == old(input) && value == old(value)
    {
      var parsed := FilterPresetFromStr(name);
      if parsed.Err? {
        return Err(parsed.error);
      }
      event := Some(parsed.value);
      r := Ok(());
    }

    method ReadKeyInc(pressed: bool)
      modifies this
      ensures input == old(input).(increase := pressed) && event == old(event) && value == old(value)
    {
      input := input.(increase := pressed);
    }

    method ReadKeyDec(pressed: bool)
      modifies this
      ensures input == old(input).(decrease := pressed) && event == old(event) && value == old(value)
    {
      input := input.(decrease := pressed);
    }

    method PostProcessInput()
      modifies this
      ensures event.None? && input == old(input) && value == old(value)
    {
      event := None;
    }
  }

  // ----- the internal-resolution controller -----

  const ResolutionKeysInc: seq<string> := ["y", "internal-resolution-inc"]
  const ResolutionKeysDec: seq<string> := ["shift+y", "internal-resolution-dec"]

  /** One `update` of the controller: `process_options` on the resolution with the just-pressed edges. */
  function ResolutionUpdate(r: InternalResolutions.Resolution, pressed: IncDec<bool>): FieldChangers.OptionsOutcome
    requires InternalResolutions.Reachable(r)
  {
    FieldChangers.ProcessOptionsOf(FieldChangers.ResolutionCursor(r), pressed.increase, pressed.decrease, None, true)
  }

  /** The stored result is a change iff a button was just pressed and the move reached no limit. */
  lemma ResolutionUpdateChanged(r: InternalResolutions.Resolution, pressed: IncDec<bool>)
    requires InternalResolutions.Reachable(r)
    ensures var o := ResolutionUpdate(r, pressed);
      o.value.ResolutionCursor? && InternalResolutions.Reachable(o.value.res)
      && (o.triggered <==> (pressed.increase || pressed.decrease) && !o.value.res.minimumReached && !o.value.res.maximumReached)
  {
    FieldChangers.ProcessOptionsTriggerIff(FieldChangers.ResolutionCursor(r), pressed.increase, pressed.decrease, None, true);
  }

  /** The controller: the cursor fields, `changed` and the two buttons. */
  class InternalResolutionController {
    const resolution: InternalResolutions.InternalResolution
    var changed: bool
    const input: IncDec<BooleanButton>

    ghost predicate Valid()
      reads this, resolution
    {
      input.increase != input.decrease && resolution.crate == InternalResolutions.Ui
      && InternalResolutions.Reachable(resolution.State())
    }

    constructor ()
      ensures Valid() && fresh(resolution) && fresh(input.increase) && fresh(input.decrease)
      ensures resolution.State() == InternalResolutions.DefaultResolution && !changed
    {
      resolution := new InternalResolutions.InternalResolution(InternalResolutions.Ui);
      var inc := new BooleanButton();
      var dec := new BooleanButton();
      input := IncDec(inc, dec);
      changed := false;
    }

    /** `update`: `process_options` moves the resolution; its result is stored in `changed` and returned. */
    method Update() returns (result: bool)
      requires Valid()
      modifies this, resolution
      ensures Valid()
      ensures FieldChangers.ResolutionCursor(resolution.State()) == ResolutionUpdate(old(resolution.State()), ToJustPressed(input)).value
      ensures result == changed == ResolutionUpdate(old(resolution.State()), ToJustPressed(input)).triggered
    {
      var jp := ToJustPressed(input);
      ghost var o := ResolutionUpdate(resolution.State(), jp);
      ResolutionUpdateChanged(resolution.State(), jp);
      var moved := false;
      if jp.increase {
        InternalResolutions.MovesKeepHeightPositive(resolution.State(), InternalResolutions.Ui);
        resolution.NextOption();
        moved := true;
      }
      if jp.decrease {
        InternalResolutions.MovesKeepHeightPositive(resolution.State(), InternalResolutions.Ui);
        resolution.PreviousOption();
        moved := true;
      }
      InternalResolutions.MovesKeepHeightPositive(resolution.State(), InternalResolutions.Ui);
      changed := moved && !resolution.HasReachedMinimumLimit() && !resolution.HasReachedMaximumLimit();
      result := changed;
    }

    /** `reset_inputs`: both buttons back to their defaults. */
    method ResetInputs()
      requires Valid()
      modifies input.increase, input.decrease
      ensures !input.increase.input && input.increase.Flags() == Released
      ensures !input.decrease.input && input.decrease.Flags() == Released
    {
      ResetButtons(input);
    }

    method ReadKeyInc(pressed: bool)
      modifies input.increase
      ensures input.increase.input == pressed && input.increase.Flags() == old(input.increase.Flags())
    {
      input.increase.input := pressed;
    }

    method ReadKeyDec(pressed: bool)
      modifies input.decrease
      ensures input.decrease.input == pressed && input.decrease.Flags() == old(input.decrease.Flags())
    {
      input.decrease.input := pressed;
    }

    method PreProcessInput()
      requires Valid()
      modifies input.increase, input.decrease
      ensures input.increase.Flags() == Tracked(old(input.increase.Flags()), input.increase.input)
      ensures input.decrease.Flags() == Tracked(old(input.decrease.Flags()), input.decrease.input)
    {
      TrackBoth(input);
    }
  }
}
