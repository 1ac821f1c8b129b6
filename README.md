# display-sim core, modelled in Dafny

display-sim simulates old displays (CRT aperture grilles, shadow masks,
LCD sharp pixels) in the browser. A Rust core keeps the simulation state.
It reads keyboard and UI input, turns key presses into actions with
modifier keys (shift) taken into account, and steps every filter value
frame by frame. A render crate keeps a stack of off-screen texture
buffers for multi-pass drawing. A TypeScript/JavaScript front end
carries messages between pages (`Mailbox`, `Observer`, `PubSub`, `Lazy`)
and keeps the launcher's options in the browser's local storage. A
Python script stamps the licence header on every source file.

This project models that core in Dafny, one module per component:

- `BooleanButtons`, `GeneralTypes`: the boolean button with its
  just-pressed and just-released edges, button pairs, and the enum cursor
  that selects the next or previous option.
- `Math`: the Euclidean `gcd` loop.
- `PixelsShadow`: the shadow-mask shapes and their cycling.
- `InternalResolutions`, `FieldChangers`, `UiControllers`: resolution
  steps, the field changers that apply increments, decrements and UI
  events with bounds, and the integer and enum UI controllers.
- `InputEvents`, `BooleanActions`, `EarlyActionBindings`,
  `ScreenSimActionBindings`: the input record, and three generations of
  the key-to-action binder, including the modifier rewriting of held
  keys.
- `SimulationState`, `SimulationTicker`, `ScreenSimState`,
  `ScreenSimTicker`: filter presets, their names, the resources, and the
  per-frame update of both cores.
- `TextureBufferStacks`: the render-target stack of the four render crates.
- `Mailboxes`, `Lazies`, `Observers`, `OptionStorage`: the front-end
  services and option stores.
- `LicenseHeaders`: the licence-header scanner and rewriter.
- `Text`, `Wrappers`: decimal rendering and `Option`/`Result`.

Code that updates state in place is modelled as a Dafny `class`. Each
class has a specification function of its old state and its inputs, and
each method states its new state in terms of that function. The
properties are proved as lemmas on the specification functions. Pure
code is modelled as functions and lemmas.

## Model

| member | source | states |
|---|---|---|
| BooleanButtons.Tracked | rust/display-sim-core/src/boolean_button.rs:45-54 | after a track `activated` is the pushed level; `justPressed` iff pushed and not activated before; `justReleased` iff not pushed and activated before |
| BooleanButtons.BooleanButton.constructor | rust/display-sim-core/src/boolean_button.rs:16-20 | a default button has its input and all three flags false |
| BooleanButtons.BooleanButton.Track | rust/display-sim-core/src/boolean_button.rs:45-54 | the flags become `Tracked` of the old flags and the level; the raw input is untouched |
| BooleanButtons.BooleanButton.TrackInput | rust/display-sim-core/src/boolean_button.rs:23-25 | tracks the stored input, so `is_activated()` equals `input` afterwards |
| BooleanButtons.BooleanButton.Reset | rust/display-sim-core/src/general_types.rs:56-65 | `DefaultReset` on a button: input and flags back to the default |
| BooleanButtons.EdgesExclusive | rust/display-sim-core/src/boolean_button.rs:46-52 | the two edge flags are never both set |
| BooleanButtons.RepeatClearsEdges | rust/display-sim-core/src/boolean_button.rs:46-53 | tracking the same level twice leaves both edge flags clear on the second call |
| BooleanButtons.LevelUnchangedNoEdges | rust/screen-sim-core/src/boolean_button.rs:30-39 | an unchanged level produces no edge |
| BooleanButtons.EdgesFollowLevels | rust/screen-sim-core/src/boolean_button.rs:8-10 | over any sequence of frames the button is activated at the last level and an edge flag is set exactly on a false-to-true or true-to-false change between the last two levels |
| GeneralTypes.AnyJustPressedIsAnyActive | rust/display-sim-core/src/general_types.rs:31-42 | `any_just_pressed` is `any_active` of `to_just_pressed`; screen-sim-core's `any_just_pressed` (rust/screen-sim-core/src/simulation_core_state.rs:396-399) is the same disjunction |
| GeneralTypes.AnyJustPressed | rust/display-sim-core/src/general_types.rs:31-33 | `any_just_pressed`; `AnyJustPressedIsAnyActive` and `AnyEdgeAfterTracking` state it |
| GeneralTypes.AnyJustReleased | rust/display-sim-core/src/general_types.rs:34-36 | `any_just_released`; `AnyEdgeAfterTracking` states it |
| GeneralTypes.AnyEdgeAfterTracking | rust/display-sim-core/src/general_types.rs:31-36 | after both buttons are tracked, `any_just_released` holds iff a button that was active is no longer pushed, and `any_just_pressed` iff a button that was inactive is pushed now |
| GeneralTypes.TrackBoth | rust/display-sim-core/src/general_types.rs:21-28 | tracking both buttons of a pair tracks each on its own input |
| GeneralTypes.ResetButtons | rust/display-sim-core/src/general_types.rs:56-65 | `DefaultReset` of a button pair makes both buttons default buttons; likewise rust/screen-sim-core/src/simulation_core_state.rs:411-418 |
| GeneralTypes.ResetLevels | rust/display-sim-core/src/general_types.rs:56-65 | `DefaultReset` of a level pair leaves nothing active; likewise rust/screen-sim-core/src/simulation_core_state.rs:411-418 |
| GeneralTypes.AnyActive | rust/display-sim-core/src/general_types.rs:49-51 | a level pair is active iff either level is set; likewise rust/screen-sim-core/src/simulation_core_state.rs:405-409 |
| GeneralTypes.ToJustPressed | rust/display-sim-core/src/general_types.rs:37-42 | each level of the result is the just-pressed edge of the matching button |
| GeneralTypes.ChangeEnumVariant | rust/display-sim-core/src/general_types.rs:121-127 | the variant at the target index, or variant 0 past the last variant; always a valid variant of the same enum |
| GeneralTypes.NextWraps | rust/display-sim-core/src/general_types.rs:99-104 | `next_option` moves one variant forward and wraps the last variant to 0 |
| GeneralTypes.PreviousWraps | rust/display-sim-core/src/general_types.rs:106-111 | `previous_option` moves one variant back and wraps variant 0 to the last |
| GeneralTypes.NextOption | rust/display-sim-core/src/general_types.rs:99-104 | `next_option`; `NextWraps`, `NextPreviousInverse` and `CheckedCursorAgrees` state it |
| GeneralTypes.PreviousOption | rust/display-sim-core/src/general_types.rs:106-111 | `previous_option`; `PreviousWraps`, `NextPreviousInverse` and `CheckedCursorAgrees` state it |
| GeneralTypes.NextPreviousInverse | rust/display-sim-core/src/general_types.rs:99-127 | next and previous undo each other on every variant |
| GeneralTypes.ChangeEnumVariantChecked | src/screen-sim/general_types.rs:28-35 | the older cursor is `Ok` iff the enum has a variant at all, and then lands on the target or on 0 |
| GeneralTypes.NextEnumVariant | src/screen-sim/general_types.rs:13-18 | the older `next_enum_variant`: `ChangeEnumVariantChecked` aimed one variant forward; `CheckedCursorAgrees` and `CheckedCursorInverse` state its outcome |
| GeneralTypes.PreviousEnumVariant | src/screen-sim/general_types.rs:20-25 | the older `previous_enum_variant`: `ChangeEnumVariantChecked` aimed one variant back, with variant 0 aimed at `len() - 1`; the same two lemmas state its outcome |
| GeneralTypes.CheckedCursorAgrees | src/screen-sim/general_types.rs:13-25 | on a real enum value the older `next/previous_enum_variant` are `Ok` and agree with the blanket cursor |
| GeneralTypes.CheckedCursorInverse | src/screen-sim/general_types.rs:13-35 | the older cursor wraps the last variant to 0 and its two moves undo each other |
| GeneralTypes.TransformU32ToBytes | rust/display-sim-core/src/general_types.rs:137-143 | four bytes, most significant first: `b1<<24 \| b2<<16 \| b3<<8 \| b4 == x` |
| Math.ComputeGcd | rust/display-sim-core/src/math.rs:27-35 | the loop returns `Gcd` of the inputs; it ends because `b` strictly decreases |
| Math.RemainderKeepsDivisors | rust/display-sim-core/src/math.rs:29-33 | a remainder step keeps exactly the common divisors |
| Math.EuclidIsGcd | rust/display-sim-core/src/math.rs:29-34 | the remainder sequence ends on a common divisor that every common divisor divides |
| Math.GcdIsGcd | rust/display-sim-core/src/math.rs:27-35 | `gcd` divides both arguments and every common divisor divides it |
| Math.GcdUnique | rust/display-sim-core/src/math.rs:27-35 | that characterisation fixes the result |
| Math.GcdSymmetric | rust/display-sim-core/src/math.rs:28 | `gcd(a, b) == gcd(b, a)` |
| Math.GcdExamples | rust/display-sim-core/src/math.rs:41-47 | the five values of the unit test |
| Math.TruncDiv | rust/display-sim-core/src/internal_resolution.rs:54 | Rust's integer `/` truncates toward zero: the remainder `a - q * b` is smaller than `b` in magnitude and is zero or has the sign of `a`; likewise the `/=` of a divided progression (field_changer.rs:123) |
| Math.TruncDivRemainder | rust/display-sim-core/src/internal_resolution.rs:54 | the remainder of the truncated quotient lies in [0, abs(b)) for a positive dividend, in (-abs(b), 0] for a negative one, and is 0 for a zero dividend |
| PixelsShadow.ShadowShape.constructor | rust/display-sim-core/src/pixels_shadow.rs:22-25 | the default shape is 0 |
| PixelsShadow.ShadowShape.NextOption | rust/display-sim-core/src/pixels_shadow.rs:34-39 | the value becomes `ShadowNext` of the old value |
| PixelsShadow.ShadowShape.PreviousOption | rust/display-sim-core/src/pixels_shadow.rs:40-45 | the value becomes `ShadowPrevious` of the old value |
| PixelsShadow.ShadowShape.ToString | rust/display-sim-core/src/pixels_shadow.rs:27-31 | `Display` prints decimal digits that parse back to the value |
| PixelsShadow.ShadowStaysInRange | rust/display-sim-core/src/pixels_shadow.rs:34-45 | from [0, 24) both moves stay in [0, 24); next of 23 is 0 and previous of 0 is 23 |
| PixelsShadow.ShadowInverse | rust/display-sim-core/src/pixels_shadow.rs:34-45 | next and previous undo each other on every in-range value |
| PixelsShadow.ShadowNextNIsModular | rust/display-sim-core/src/pixels_shadow.rs:34-39 | k nexts from v land on `(v + k) % 24` |
| PixelsShadow.ShadowFullTurn | rust/display-sim-core/src/pixels_shadow.rs:20-39 | twenty-four nexts are the identity |
| PixelsShadow.ShadowNext | rust/display-sim-core/src/pixels_shadow.rs:34-39 | the shadow shape's `next_option`; `ShadowStaysInRange`, `ShadowInverse`, `ShadowNextNIsModular` and `ShadowFullTurn` state it |
| PixelsShadow.ShadowPrevious | rust/display-sim-core/src/pixels_shadow.rs:40-45 | the shadow shape's `previous_option`; `ShadowStaysInRange` and `ShadowInverse` state it |
| LicenseHeaders.StripBom | scripts/license_headers.py:9-14 | the BOM flag is set iff the text starts with EF BB BF, and the flag's BOM followed by the rest gives back the text |
| LicenseHeaders.StripBomRestore | scripts/license_headers.py:20-21 | a written file whose text starts with a header reads back with the same BOM flag and the same text |
| LicenseHeaders.AssembleHeader | scripts/license_headers.py:36-46 | the header-building loop returns `Header` of the template lines |
| LicenseHeaders.Header | scripts/license_headers.py:36-46 | the header that the template lines make; `AssembleHeader`, `HeaderShape`, `EmptyTemplateHeader` and `HeaderFirstChar` state it, and `CopyrightHeaderFromLicense` for the older script |
| LicenseHeaders.HeaderShape | scripts/license_headers.py:37-46 | the first template line is behind `"/* "`, every later line behind `" * "`, and `" */\n"` closes the header |
| LicenseHeaders.EmptyTemplateHeader | scripts/license_headers.py:46 | an empty template gives just `" */\n"` |
| LicenseHeaders.WriteIff | scripts/license_headers.py:17 | a write happens exactly when the text, after the BOM and the older header are stripped, does not start with the new header (an exact prefix test) |
| LicenseHeaders.WrittenContent | scripts/license_headers.py:19-23 | a written file is `[BOM] ++ new header ++ (text minus the older header)`, with the BOM iff the file had one |
| LicenseHeaders.UpdateSource | scripts/license_headers.py:8-23 | `update_source`: the content written, or nothing; `WriteIff`, `WrittenContent`, `StripOlderOnce`, `OlderThenNewIsKept`, `ExactPrefixOnly`, `RerunStep` and `RerunAddsBlankLine` state it |
| LicenseHeaders.StripOlderOnce | scripts/license_headers.py:15-16 | the older header is removed once, and only when it is an exact prefix |
| LicenseHeaders.OlderThenNewIsKept | scripts/license_headers.py:15-17 | a file holding the older header followed by the new one is left alone, older header included |
| LicenseHeaders.ExactPrefixOnly | scripts/license_headers.py:17 | a header that differs only in whitespace is not recognised and a second header is prepended |
| LicenseHeaders.RerunStep | scripts/license_headers.py:15-19 | with new = old + `"\n"`, a file carrying the new header loses the old part and is rewritten with one more blank line |
| LicenseHeaders.HeaderFirstChar | scripts/license_headers.py:41-46 | every assembled header starts with `'/'` or `' '`, so it never looks like a BOM |
| LicenseHeaders.RerunAddsBlankLine | scripts/license_headers.py:48 | with the arguments of line 48 a rewritten file is rewritten again by the next run, one blank line longer: the update is not idempotent |
| LicenseHeaders.CopyrightWriteIff | scripts/license-headers.py:8-21 | the older script rewrites a file iff its text after the BOM does not start with `"/* Copyright"`, and writes `[BOM] ++ header ++ text` |
| LicenseHeaders.UpdateSourceCopyright | scripts/license-headers.py:8-21 | the older `update_source`: the content written, or nothing; `CopyrightWriteIff` and `CopyrightIdempotent` state it |
| LicenseHeaders.CopyrightIdempotent | scripts/license-headers.py:15-17 | when the header starts with `"/* Copyright"`, a second run writes nothing |
| LicenseHeaders.CopyrightHeaderFromLicense | scripts/license-headers.py:34-44 | the assembled header starts with `"/* Copyright"` iff the template text starts with `"Copyright"` |
| LicenseHeaders.Traverse | scripts/license_headers.py:25-34 | the walk keeps every entry's name and kind, in listing order |
| LicenseHeaders.VisitAll | scripts/license_headers.py:33-34 | each file is updated iff its full path ends with the extension |
| LicenseHeaders.TraverseVisitsFiles | scripts/license_headers.py:25-34 | the files of the walked tree are exactly the tree's files, each visited at its full path; directories are recursed into |
| LicenseHeaders.VisitAllAppend | scripts/license_headers.py:28-34 | visiting two listings in turn is visiting their concatenation |
| InternalResolutions.SetResolutionOf | rust/display-sim-core/src/internal_resolution.rs:42-60 | after `set_resolution` width and height are within the maximum texture size, the width is the table's width of the final height, a positive request never grows, and `maximium_reached` is set iff the requested size exceeded the maximum |
| InternalResolutions.PreviousOptionOf | rust/display-sim-core/src/internal_resolution.rs:101-122 | `previous_option` lands on a nonzero height within the maximum, sets `minimum_reached` exactly when stepping from heights 0..=4 and clears `maximium_reached` unless the new height is clamped again |
| InternalResolutions.NextOptionOf | rust/display-sim-core/src/internal_resolution.rs:82-100 | `next_option` lands on a height of at least 1 within the maximum, clears `minimum_reached` and sets `maximium_reached` when the next height is clamped |
| InternalResolutions.Display | rust/display-sim-core/src/internal_resolution.rs:69-79 | a height up to 1080 prints as its decimal digits followed by `p` (a negative one with a leading `-`), a greater height as the decimal digits of `height / 540` followed by `K`; reading the digits back gives that number |
| InternalResolutions.NextLadder | rust/display-sim-core/src/internal_resolution.rs:84-98 | the ladder 102, 144, 152, 160, 224, 240, 243, 480, 486, 720, 1080; 51..101 go to 102 and non-positive heights to 1080 |
| InternalResolutions.NextDoubles | rust/display-sim-core/src/internal_resolution.rs:97 | every other positive height doubles |
| InternalResolutions.PreviousInvertsLadder | rust/display-sim-core/src/internal_resolution.rs:103-114 | `previous_option` walks the ladder back from every named height |
| InternalResolutions.PreviousHalves | rust/display-sim-core/src/internal_resolution.rs:119 | heights above 4 off the ladder are halved |
| InternalResolutions.WidthTable | rust/display-sim-core/src/internal_resolution.rs:43-55 | widths 160/160/160/256/320/320/640/640 for the named low heights, else `h * 16 / 9` |
| InternalResolutions.ZeroHeightArms | rust/display-sim-core/src/ui_controller/internal_resolution.rs:116-130 | the core moves height 0 to 1080; the UI controller keeps 0 in its `0..=4` arm, which would call `set_resolution(0)` |
| InternalResolutions.DefaultIsReachable | rust/display-sim-core/src/internal_resolution.rs:27-36 | the default 3840x2160 has a nonzero height and the table's width |
| InternalResolutions.MovesKeepHeightPositive | rust/display-sim-core/src/ui_controller/internal_resolution.rs:94-134 | from a positive height both moves give a positive height, so height 0 (and its `unreachable!`) is never reached from the default |
| InternalResolutions.DisplayExamples | rust/display-sim-core/src/ui_controller/internal_resolution.rs:50-60 | the default prints `4K` and height 1080 prints `1080p` |
| InternalResolutions.InternalResolution.constructor | rust/display-sim-core/src/ui_controller/internal_resolution.rs:37-48 | `Default`: 3840x2160, texture limit `i32::MAX`, no flag |
| InternalResolutions.InternalResolution.SetMaxTextureSize | rust/display-sim-core/src/internal_resolution.rs:39-41 | only the texture limit changes |
| InternalResolutions.InternalResolution.SetResolution | rust/display-sim-core/src/ui_controller/internal_resolution.rs:66-84 | the fields become `SetResolutionOf` of the old fields |
| InternalResolutions.InternalResolution.NextOption | rust/display-sim-core/src/ui_controller/internal_resolution.rs:94-112 | the fields become `NextOptionOf` of the old fields |
| InternalResolutions.InternalResolution.PreviousOption | rust/display-sim-core/src/ui_controller/internal_resolution.rs:113-134 | the fields become `PreviousOptionOf` of the old fields, with this controller's `..=-1` first arm |
| InternalResolutions.InternalResolution.ToString | rust/display-sim-core/src/ui_controller/internal_resolution.rs:50-60 | prints `Display` of the fields |
| FieldChangers.Step | rust/display-sim-core/src/field_changer.rs:132-141 | the field after the guarded inc and dec steps is `StepOf` (a limit reached beforehand blocks the step towards it) |
| FieldChangers.StepOf | rust/display-sim-core/src/field_changer.rs:132-141 | the guarded step of `operate_filter`; `Step`, `OperateFilterSums`, `MinimumBlocksDecrement`, `NoUnsignedUnderflow` and `DivisionByZeroPanics` state it |
| FieldChangers.Finish | rust/display-sim-core/src/field_changer.rs:142-163 | the event override, the clamps with their dispatches and the handler give `FinishOf` |
| FieldChangers.New | rust/display-sim-core/src/field_changer.rs:35-47 | a new changer holds the given inc/dec levels and nothing else: no event, velocity, bounds or handler |
| FieldChangers.OperateFilterOf | rust/display-sim-core/src/field_changer.rs:127-164 | the outcome of `operate_filter`: the guarded step, the event override, the clamps with their dispatches and the handler; `OperateFilterBounded`, `OperateFilterEventOverrides`, `OperateFilterSums` and `OperateFilterTriggerIffChanged` state it |
| FieldChangers.OperateFilter | rust/display-sim-core/src/field_changer.rs:127-164 | the whole `operate_filter` run gives `OperateFilterOf`, a panic on a division by zero or a `usize` underflow |
| FieldChangers.OperateFilterBounded | rust/display-sim-core/src/field_changer.rs:145-156 | with both bounds set and min <= max the result lies in [min, max] |
| FieldChangers.OperateFilterEventOverrides | rust/display-sim-core/src/field_changer.rs:142-144 | a present event value is the result whatever inc and dec say |
| FieldChangers.OperateFilterSums | rust/display-sim-core/src/field_changer.rs:136-141 | without bounds or event inc adds the progression, dec subtracts it, both together cancel |
| FieldChangers.OperateFilterTriggerIffChanged | rust/display-sim-core/src/field_changer.rs:157-163 | true is returned iff a handler is set and the value changed |
| FieldChangers.MinimumBlocksDecrement | rust/display-sim-core/src/field_changer.rs:133-149 | at or below the minimum a decrement is blocked, the value is set to the minimum and the minimum is dispatched |
| FieldChangers.NoUnsignedUnderflow | rust/display-sim-core/src/field_changer.rs:133-141 | a `usize` field with a minimum of at least the progression minus one never underflows |
| FieldChangers.DivisionByZeroPanics | rust/display-sim-core/src/field_changer.rs:122-135 | a multiplicative decrement with no progression divides by zero |
| FieldChangers.OperateFilterTests | rust/display-sim-core/src/field_changer.rs:259-360 | the values and trigger results of the unit tests: event 3, 0 -> 1, 0 -> -1, both 0, the min/max blocks, and 5*3 = 15, 15/3 = 5 |
| FieldChangers.RawUpdateOld | rust/screen-sim-core/src/filter_params.rs:118-128 | the older update applies inc, dec and the event unconditionally; a present event wins |
| FieldChangers.OperateFilterOldOf | rust/screen-sim-core/src/filter_params.rs:112-146 | the outcome of the older `operate_filter`: clamps and handler only after a raw change; the `Old...` lemmas state it |
| FieldChangers.OperateFilterOld | rust/screen-sim-core/src/filter_params.rs:112-146 | the older `operate_filter` run gives `OperateFilterOldOf` |
| FieldChangers.OldNoInputUnchanged | rust/screen-sim-core/src/filter_params.rs:118-129 | with no inc, dec or event the value is kept, even out of range, and the handler does not run |
| FieldChangers.OldBoundedWhenChanged | rust/screen-sim-core/src/filter_params.rs:129-141 | when the raw update changed the value, the result lies in [min, max] |
| FieldChangers.OldHandlerFiresOnRawChange | rust/screen-sim-core/src/filter_params.rs:129-144 | the handler runs whenever the raw update changed the value |
| FieldChangers.OldClampRestoresButTriggers | rust/screen-sim-core/src/filter_params.rs:129-144 | a decrement from 0 clamped back to min 0 still runs the handler and dispatches the minimum |
| FieldChangers.OldEventOverrides | rust/screen-sim-core/src/filter_params.rs:126-128 | a present event value is the result when no bound intervenes |
| FieldChangers.CursorNext | rust/display-sim-core/src/field_changer.rs:81-84 | `next_option` of any driven cursor keeps it valid |
| FieldChangers.CursorPrevious | rust/display-sim-core/src/field_changer.rs:85-88 | `previous_option` of any driven cursor keeps it valid |
| FieldChangers.ProcessOptionsOf | rust/display-sim-core/src/field_changer.rs:79-104 | `process_options` keeps the cursor valid |
| FieldChangers.ProcessOptions | rust/display-sim-core/src/field_changer.rs:79-104 | the run of `process_options` gives `ProcessOptionsOf` |
| FieldChangers.ProcessOptionsMoves | rust/display-sim-core/src/field_changer.rs:80-92 | inc moves to the next option, dec to the previous, nothing leaves it and returns false, and both together leave an enum or shadow cursor in place |
| FieldChangers.ProcessOptionsEvent | rust/display-sim-core/src/field_changer.rs:89-92 | a present event sets the option |
| FieldChangers.ProcessOptionsTriggerIff | rust/display-sim-core/src/field_changer.rs:93-103 | true is returned iff something changed, no limit is reported and a handler is set |
| FieldChangers.OldProcessOptionsDispatch | rust/screen-sim-core/src/filter_params.rs:64-87 | a change dispatches the minimum when it is reached, else the maximum when reached, and only otherwise runs the handler |
| FieldChangers.ProcessOptionsTests | rust/display-sim-core/src/field_changer.rs:204-245 | the unit tests over the enum A, B, C |
| UiControllers.LppUpdateBounded | rust/display-sim-core/src/ui_controller/horizontal_lpp.rs:51-59 | a lines-per-pixel update never underflows the `usize`, leaves the value in [1, 20] and reports a change iff the value changed |
| UiControllers.LppDefaultRaisedToOne | rust/display-sim-core/src/ui_controller/horizontal_lpp.rs:24-59 | the default value 0 becomes 1 on the first update without input, dispatches the minimum and counts as a change |
| UiControllers.LppEventClamped | rust/display-sim-core/src/ui_controller/horizontal_lpp.rs:51-59 | an event value is clamped into [1, 20], except that a value already at 1 with decrease held stays 1 and one at 20 with increase held stays 20 (the limit resets of field_changer.rs:146 and 152); with no key held the result is exactly the clamped event |
| UiControllers.LppUpdate | rust/display-sim-core/src/ui_controller/horizontal_lpp.rs:51-59 | the lines-per-pixel `update` on values; `LppUpdateBounded`, `LppEventClamped` and `LppDefaultRaisedToOne` state it |
| UiControllers.HorizontalLpp.constructor | rust/display-sim-core/src/ui_controller/horizontal_lpp.rs:24-29 | `Default`: no input, no event, value 0 |
| UiControllers.HorizontalLpp.From | rust/display-sim-core/src/ui_controller/horizontal_lpp.rs:31-39 | no input, no event, the given value |
| UiControllers.HorizontalLpp.Update | rust/display-sim-core/src/ui_controller/horizontal_lpp.rs:51-59 | the value ends in [1, 20], is the `process_with_sums` outcome over the raw levels and the event, and the result says whether the handler ran |
| UiControllers.HorizontalLpp.ApplyEvent | rust/display-sim-core/src/ui_controller/horizontal_lpp.rs:60-64 | a present event is copied into the value |
| UiControllers.HorizontalLpp.ResetInputs | rust/display-sim-core/src/ui_controller/horizontal_lpp.rs:65-69 | clears both levels and the event, keeps the value |
| UiControllers.HorizontalLpp.ReadEvent | rust/display-sim-core/src/ui_controller/horizontal_lpp.rs:70-73 | stores the decoded event |
| UiControllers.HorizontalLpp.ReadKeyInc | rust/display-sim-core/src/ui_controller/horizontal_lpp.rs:74-76 | sets only the raw increase level |
| UiControllers.HorizontalLpp.ReadKeyDec | rust/display-sim-core/src/ui_controller/horizontal_lpp.rs:77-79 | sets only the raw decrease level |
| UiControllers.HorizontalLpp.PostProcessInput | rust/display-sim-core/src/ui_controller/horizontal_lpp.rs:84-86 | clears only the event |
| UiControllers.VerticalLpp.From | rust/display-sim-core/src/ui_controller/vertical_lpp.rs:33-41 | two fresh default buttons, no event, the given value |
| UiControllers.VerticalLpp.Update | rust/display-sim-core/src/ui_controller/vertical_lpp.rs:53-61 | the value ends in [1, 20], driven only by the just-pressed edges and the event |
| UiControllers.VerticalLpp.ResetInputs | rust/display-sim-core/src/ui_controller/vertical_lpp.rs:62-66 | clears the event and both raw button inputs, not their edge flags |
| UiControllers.VerticalLpp.ReadEvent | rust/display-sim-core/src/ui_controller/vertical_lpp.rs:67-70 | stores the decoded event |
| UiControllers.VerticalLpp.ReadKeyInc | rust/display-sim-core/src/ui_controller/vertical_lpp.rs:71-73 | sets only the increase button's raw input |
| UiControllers.VerticalLpp.ReadKeyDec | rust/display-sim-core/src/ui_controller/vertical_lpp.rs:74-76 | sets only the decrease button's raw input |
| UiControllers.VerticalLpp.PreProcessInput | rust/display-sim-core/src/ui_controller/vertical_lpp.rs:80-82 | tracks both buttons |
| UiControllers.VerticalLpp.PostProcessInput | rust/display-sim-core/src/ui_controller/vertical_lpp.rs:83-85 | clears the event |
| UiControllers.BrightnessUpdateBounded | rust/display-sim-core/src/ui_controller/brightness_color.rs:51-59 | a brightness update leaves the value in [0, 100] and reports a change iff the value changed |
| UiControllers.BrightnessUpdate | rust/display-sim-core/src/ui_controller/brightness_color.rs:51-59 | the brightness `update` on values; `BrightnessUpdateBounded` states it |
| UiControllers.BrightnessColor.From | rust/display-sim-core/src/ui_controller/brightness_color.rs:31-39 | no input, no event, the given value |
| UiControllers.BrightnessColor.Update | rust/display-sim-core/src/ui_controller/brightness_color.rs:51-59 | the value ends in [0, 100] and is the `process_with_sums` outcome |
| UiControllers.BrightnessColor.ApplyEvent | rust/display-sim-core/src/ui_controller/brightness_color.rs:60-65 | a present event is copied into the value |
| UiControllers.BrightnessColor.ResetInputs | rust/display-sim-core/src/ui_controller/brightness_color.rs:66-70 | clears both levels and the event |
| UiControllers.BrightnessColor.ReadEvent | rust/display-sim-core/src/ui_controller/brightness_color.rs:71-74 | stores the decoded event |
| UiControllers.BrightnessColor.ReadKeyInc | rust/display-sim-core/src/ui_controller/brightness_color.rs:75-77 | sets only the raw increase level; the keys are the blur-level keys `"j"` and `"shift+j"` (lines 45-50) |
| UiControllers.BrightnessColor.ReadKeyDec | rust/display-sim-core/src/ui_controller/brightness_color.rs:78-80 | sets only the raw decrease level |
| UiControllers.BrightnessColor.PostProcessInput | rust/display-sim-core/src/ui_controller/brightness_color.rs:85-87 | clears the event |
| UiControllers.EnumUpdate | rust/display-sim-core/src/ui_controller/enum_ui.rs:74-78 | an enum update keeps a valid variant |
| UiControllers.EnumUpdateMoves | rust/display-sim-core/src/ui_controller/enum_ui.rs:74-78 | only inc moves to the next variant and returns true, only dec to the previous; both pressed leave the value, and with neither pressed nothing moves and no change is reported |
| UiControllers.EnumHolder.From | rust/display-sim-core/src/ui_controller/enum_ui.rs:47-59 | two fresh default buttons, no event, the given value |
| UiControllers.EnumHolder.Update | rust/display-sim-core/src/ui_controller/enum_ui.rs:74-78 | the value follows the just-pressed edges only: a stored event never reaches it |
| UiControllers.EnumHolder.ResetInputs | rust/display-sim-core/src/ui_controller/enum_ui.rs:79-82 | both buttons back to default and no event |
| UiControllers.EnumHolder.ReadEvent | rust/display-sim-core/src/ui_controller/enum_ui.rs:83-86 | stores the event and leaves the value |
| UiControllers.EnumHolder.ReadKeyInc | rust/display-sim-core/src/ui_controller/enum_ui.rs:87-89 | sets only the increase button's raw input |
| UiControllers.EnumHolder.ReadKeyDec | rust/display-sim-core/src/ui_controller/enum_ui.rs:90-92 | sets only the decrease button's raw input |
| UiControllers.EnumHolder.PreProcessInput | rust/display-sim-core/src/ui_controller/enum_ui.rs:96-98 | tracks both buttons |
| UiControllers.EnumHolder.PostProcessInput | rust/display-sim-core/src/ui_controller/enum_ui.rs:99-101 | clears the event |
| UiControllers.FilterPresetRoundTrip | rust/display-sim-core/src/ui_controller/filter_preset.rs:51-112 | `from_str(p.to_string()) == p` for all six options, a name parses to p iff it is p's name, and every other name is an `Err` |
| UiControllers.FilterPresetToString | rust/display-sim-core/src/ui_controller/filter_preset.rs:51-62 | `Display` of the options; `FilterPresetRoundTrip` states it |
| UiControllers.FilterPresetFromStr | rust/display-sim-core/src/ui_controller/filter_preset.rs:64-77 | `from_str` of the options, an `Err` for an unknown name; `FilterPresetRoundTrip` states it |
| UiControllers.FilterPreset.constructor | rust/display-sim-core/src/ui_controller/filter_preset.rs:115-119 | the default option is `CrtApertureGrille1` |
| UiControllers.FilterPreset.Update | rust/display-sim-core/src/ui_controller/filter_preset.rs:131-133 | `update` returns false |
| UiControllers.FilterPreset.ApplyEvent | rust/display-sim-core/src/ui_controller/filter_preset.rs:134-138 | the value is set iff an event is present |
| UiControllers.FilterPreset.ResetInputs | rust/display-sim-core/src/ui_controller/filter_preset.rs:139-143 | clears the event and both levels |
| UiControllers.FilterPreset.ReadEvent | rust/display-sim-core/src/ui_controller/filter_preset.rs:144-147 | a known name is stored as the event; an unknown name is an error and leaves the event |
| UiControllers.FilterPreset.ReadKeyInc | rust/display-sim-core/src/ui_controller/filter_preset.rs:148-150 | sets only the raw increase level |
| UiControllers.FilterPreset.ReadKeyDec | rust/display-sim-core/src/ui_controller/filter_preset.rs:151-153 | sets only the raw decrease level |
| UiControllers.FilterPreset.PostProcessInput | rust/display-sim-core/src/ui_controller/filter_preset.rs:158-160 | clears the event |
| UiControllers.ResolutionUpdateChanged | rust/display-sim-core/src/ui_controller/internal_resolution.rs:153-159 | the stored result is true iff a button was just pressed and the move reached neither limit; the resolution stays reachable |
| UiControllers.ResolutionUpdate | rust/display-sim-core/src/ui_controller/internal_resolution.rs:153-159 | the internal-resolution `update` on values; `ResolutionUpdateChanged` states it |
| UiControllers.InternalResolutionController.constructor | rust/display-sim-core/src/ui_controller/internal_resolution.rs:37-48 | the default resolution, two fresh buttons, not changed |
| UiControllers.InternalResolutionController.Update | rust/display-sim-core/src/ui_controller/internal_resolution.rs:153-159 | the resolution moves as `process_options` says, and `changed` and the result are its return value |
| UiControllers.InternalResolutionController.ResetInputs | rust/display-sim-core/src/ui_controller/internal_resolution.rs:161-163 | both buttons back to default |
| UiControllers.InternalResolutionController.ReadKeyInc | rust/display-sim-core/src/ui_controller/internal_resolution.rs:167-169 | sets only the increase button's raw input |
| UiControllers.InternalResolutionController.ReadKeyDec | rust/display-sim-core/src/ui_controller/internal_resolution.rs:170-172 | sets only the decrease button's raw input |
| UiControllers.InternalResolutionController.PreProcessInput | rust/display-sim-core/src/ui_controller/internal_resolution.rs:176-178 | tracks both buttons |
| InputEvents.CustomInputEvent.constructor | rust/display-sim-core/src/input_types.rs:91-95 | the default queue is empty; likewise rust/display-sim-core/src/simulation_core_state.rs:665-669 |
| InputEvents.CustomInputEvent.AddValue | rust/display-sim-core/src/input_types.rs:78-80 | appends the event at the back; likewise rust/display-sim-core/src/simulation_core_state.rs:652-654 |
| InputEvents.CustomInputEvent.Reset | rust/display-sim-core/src/input_types.rs:82-84 | leaves the queue empty; likewise rust/display-sim-core/src/simulation_core_state.rs:656-658 |
| InputEvents.CustomInputEvent.ConsumeValues | rust/display-sim-core/src/input_types.rs:86-88 | returns every pending event in insertion order and leaves the queue empty; likewise rust/display-sim-core/src/simulation_core_state.rs:660-662 |
| InputEvents.PushPushConsumeTwice | rust/display-sim-core/src/input_types.rs:78-88 | two pushes are consumed as `[a, b]`, and a second consume returns nothing |
| InputEvents.PushResetPushConsume | rust/display-sim-core/src/input_types.rs:78-88 | a reset discards what was pushed before it |
| InputEvents.Input.constructor | rust/display-sim-core/src/input_types.rs:217-221 | `Input::new(now)` keeps the clock reading and starts with an empty queue |
| InputEvents.Input.PushEvent | rust/display-sim-core/src/input_types.rs:223-225 | appends the event to the queue |
| InputEvents.NewInputPushTwice | rust/display-sim-core/src/input_types.rs:216-225 | events pushed through `Input` come out of its queue in order, and the clock is the one given |
| ScreenSimState.FirstValueIsFirstMatch | rust/screen-sim-core/src/simulation_core_state.rs:365-374 | the lookup answers nothing iff the kind is absent, and otherwise the value at the first index holding that kind |
| ScreenSimState.FirstValueAppend | rust/screen-sim-core/src/simulation_core_state.rs:361-374 | appending never hides an earlier entry: a present kind keeps its first value, a new one finds the appended value |
| ScreenSimState.CustomInputEvent.constructor | rust/screen-sim-core/src/simulation_core_state.rs:384-388 | both lists empty |
| ScreenSimState.CustomInputEvent.AddValue | rust/screen-sim-core/src/simulation_core_state.rs:361-364 | pushes the value and its kind, keeping both lists the same length |
| ScreenSimState.CustomInputEvent.GetValue | rust/screen-sim-core/src/simulation_core_state.rs:365-374 | the scan returns the first-match lookup |
| ScreenSimState.CustomInputEvent.Reset | rust/screen-sim-core/src/simulation_core_state.rs:378-381 | both lists empty |
| ScreenSimState.FirstOfTwoThenReset | rust/screen-sim-core/src/simulation_core_state.rs:360-381 | of two events of one kind the lookup sees the first; after a reset, none |
| SimulationState.PresetRoundTrip | rust/display-sim-core/src/simulation_core_state.rs:250-311 | parsing inverts printing for every preset, a name parses to `p` iff it is `p`'s name, and every other name is the one `"Unknown name for a preset"` error |
| SimulationState.PresetToString | rust/display-sim-core/src/simulation_core_state.rs:250-261 | the front-end name of each preset; `PresetRoundTrip` states that it is exactly what `PresetFromStr` accepts |
| SimulationState.PresetFromStr | rust/display-sim-core/src/simulation_core_state.rs:263-276 | exact-name parsing, with the one unknown-name error; `PresetRoundTrip` states it |
| SimulationState.PresetDescriptionsDistinct | rust/display-sim-core/src/simulation_core_state.rs:278-289 | no two presets share a menu description |
| SimulationState.PresetDescription | rust/display-sim-core/src/simulation_core_state.rs:278-289 | `get_description`; `PresetDescriptionsDistinct` states it |
| SimulationState.PresetFactoryKind | rust/display-sim-core/src/simulation_core_state.rs:321-453 | every built-in preset labels its result with itself |
| SimulationState.PresetFactory | rust/display-sim-core/src/simulation_core_state.rs:321-453 | the filters of each requested preset; `PresetFactoryKind`, `PresetFactoryCustom` and `PresetFactoryIgnoresSelf` state them |
| SimulationState.PresetFactoryCustom | rust/display-sim-core/src/simulation_core_state.rs:328-331 | a Custom request returns the saved snapshot as it is or, with none, `self` with only its label changed; the Custom preset itself is built at lines 454-458 |
| SimulationState.PresetFactoryIgnoresSelf | rust/display-sim-core/src/simulation_core_state.rs:334-452 | the built-in presets other than the demo ignore `self` and the snapshot; the demo depends on `self` only through the light colour it keeps |
| SimulationState.DefaultFiltersAreApertureGrille | rust/display-sim-core/src/simulation_core_state.rs:213-238 | the default filters equal the default preset's output, labelled with that preset; the default preset is declared at lines 314-318 |
| SimulationState.PresetFactoryKindUnderSavedIsCustom | rust/display-sim-core/src/simulation_core_state.rs:321-333 | while every saved snapshot is Custom, the factory labels its result with the requested preset, Custom included |
| SimulationState.Resources.constructor | rust/display-sim-core/src/simulation_core_state.rs:69-91 | the default resources: no snapshot, reset, not drawable, not quitting, zero timers, default filters |
| SimulationState.Resources.Initialize | rust/display-sim-core/src/simulation_core_state.rs:94-108 | clears quit, marks reset and scaling pending, applies the loader's preset without a snapshot, restarts the timers at `now`, takes the video input, changes nothing else and keeps every snapshot Custom |
| SimulationTicker.FramesCountedWithinSecond | rust/display-sim-core/src/simulation_core_ticker.rs:273-285 | within one second of the mark, every tick adds one to the frame counter, the mark stays and the last tick's time is recorded; likewise rust/screen-sim-core/src/simulation_core_ticker.rs:104-116 |
| SimulationTicker.SecondElapsedResets | rust/display-sim-core/src/simulation_core_ticker.rs:273-285 | a tick restarts the count at 0 and moves the mark to now iff a full second has elapsed; `last_time` is always now; likewise rust/screen-sim-core/src/simulation_core_ticker.rs:104-116 |
| SimulationTicker.TimersStep | rust/display-sim-core/src/simulation_core_ticker.rs:273-285 | the timer step; `FramesCountedWithinSecond` and `SecondElapsedResets` state it; likewise rust/screen-sim-core/src/simulation_core_ticker.rs:104-116 |
| SimulationTicker.AnimationStep | rust/display-sim-core/src/simulation_core_ticker.rs:287-301 | the animation step keeps the steps and the frame cursor in range; likewise rust/screen-sim-core/src/simulation_core_ticker.rs:118-132 |
| SimulationTicker.AnimationStepReloads | rust/display-sim-core/src/simulation_core_ticker.rs:287-301 | the buffer is reloaded iff the state was reset or the frame moved, and the frame only moves to the next one, wrapping at the end; likewise rust/screen-sim-core/src/simulation_core_ticker.rs:118-132 |
| SimulationTicker.SingleFrameReloadsOnlyOnReset | rust/display-sim-core/src/simulation_core_ticker.rs:287-301 | a one-step animation never moves and reloads only on reset; likewise rust/screen-sim-core/src/simulation_core_ticker.rs:118-132 |
| SimulationTicker.ScreenshotFires | rust/display-sim-core/src/simulation_core_ticker.rs:170-182 | with no countdown running, a release fires at once and starts the 120-tick countdown; no release fires nothing |
| SimulationTicker.ScreenshotCooldown | rust/display-sim-core/src/simulation_core_ticker.rs:170-182 | while the countdown runs nothing fires, whatever the input, and it drops by one per tick |
| SimulationTicker.ScreenshotFiresOnce | rust/display-sim-core/src/simulation_core_ticker.rs:170-182 | after a firing tick, the next 120 ticks do not fire however often the key is released |
| SimulationTicker.ScreenshotStep | rust/display-sim-core/src/simulation_core_ticker.rs:170-182 | the screenshot step; `ScreenshotFires`, `ScreenshotCooldown` and `ScreenshotFiresOnce` state it |
| SimulationTicker.PresetSwitchNoops | rust/display-sim-core/src/simulation_core_ticker.rs:484-493 | no event or the active preset changes nothing, and the switch fails iff the name does not parse |
| SimulationTicker.PresetSwitchLands | rust/display-sim-core/src/simulation_core_ticker.rs:490-506 | a parsable name lands on that preset and keeps every saved snapshot Custom |
| SimulationTicker.CustomSnapshotRestored | rust/display-sim-core/src/simulation_core_ticker.rs:494-506 | leaving a changed Custom setup saves it, and switching back to `"custom"` restores exactly it and clears the changed flag |
| SimulationTicker.DemoSwitches | rust/display-sim-core/src/simulation_core_ticker.rs:497-503 | entering the flight demo asks for its initialisation, and leaving it restores the backed-up camera |
| SimulationTicker.SwitchOf | rust/display-sim-core/src/simulation_core_ticker.rs:494-506 | leaving the active preset for another: a changed Custom setup is saved, the camera is restored after the demo, the factory builds the new filters; `PresetSwitchLands`, `CustomSnapshotRestored` and `DemoSwitches` state it |
| SimulationTicker.DemoBacksUpCamera | rust/display-sim-core/src/simulation_core_ticker.rs:630-633 | the first frame of the flight demo clears `needs_initialization` and backs up the camera as it was, and leaving the demo then puts that camera back (lines 497-499) |
| SimulationTicker.DemoStartOf | rust/display-sim-core/src/simulation_core_ticker.rs:630-633 | the first frame of the flight demo; `DemoBacksUpCamera` states it |
| SimulationTicker.BrightnessColorEventIgnored | rust/display-sim-core/src/simulation_core_ticker.rs:348-355 | as written, a brightness-colour event is dropped and a light-colour event overwrites the brightness colour as well |
| SimulationTicker.ColorEventsAsWritten | rust/display-sim-core/src/simulation_core_ticker.rs:348-355 | the colour events as written, both fields read from the light-colour event; `BrightnessColorEventIgnored` states it |
| SimulationTicker.ColorEventsSetTheirField | rust/display-sim-core/src/simulation_core_ticker.rs:348-355 | corrected: each colour event sets exactly its own field and nothing else changes |
| SimulationTicker.ColorEventsOf | rust/display-sim-core/src/simulation_core_ticker.rs:348-355 | the colour events as intended; `ColorEventsSetTheirField` states it |
| SimulationTicker.PromotionOutcome | rust/display-sim-core/src/simulation_core_ticker.rs:472-479 | after a change the setup is Custom, and marked changed if it already was Custom, or it is still the demo; only the label moves and snapshots stay Custom |
| SimulationTicker.PromotedNotYetChanged | rust/display-sim-core/src/simulation_core_ticker.rs:472-479 | a promoted built-in preset is not yet marked changed; a second change marks it |
| SimulationTicker.PromoteOf | rust/display-sim-core/src/simulation_core_ticker.rs:472-479 | the promotion at the end of `update_filters`; `PromotionOutcome` and `PromotedNotYetChanged` state it |
| SimulationTicker.FiltersAfterSwitchKeeps | rust/display-sim-core/src/simulation_core_ticker.rs:342-479 | after the switch the video, the camera, the countdown and the snapshot stay; the changed flag is raised only under Custom; `scaling_initialized` is cleared exactly by an internal-resolution change (line 413) unless the filters were reset; without a reset the internal resolution carries the video's texture limit (line 408) |
| SimulationTicker.FiltersAfterSwitchOf | rust/display-sim-core/src/simulation_core_ticker.rs:342-479 | the rest of `update_filters` after the preset switch: the reset or the colour events, the texture limit, the resolution flag and the promotion; `FiltersAfterSwitchKeeps` states it |
| SimulationTicker.PresetSwitchKeepsTicking | rust/display-sim-core/src/simulation_core_ticker.rs:484-509 | the preset switch leaves the video, the timers and the screenshot countdown alone |
| SimulationTicker.PresetsFromEventOf | rust/display-sim-core/src/simulation_core_ticker.rs:484-509 | the outcome of `update_filter_presets_from_event`; `PresetSwitchNoops`, `PresetSwitchLands`, `CustomSnapshotRestored`, `DemoSwitches` and `PresetSwitchKeepsTicking` state it |
| SimulationTicker.FiltersKeepSavedIsCustom | rust/display-sim-core/src/simulation_core_ticker.rs:340-482 | `update_filters` keeps every saved snapshot Custom and leaves the video and the screenshot countdown alone |
| SimulationTicker.ResetFiltersRestoresDefault | rust/display-sim-core/src/simulation_core_ticker.rs:342-347 | a filter reset restores the default aperture-grille filters, and no promotion follows |
| SimulationTicker.FiltersOf | rust/display-sim-core/src/simulation_core_ticker.rs:340-482 | the modelled `update_filters`: the preset event, then the reset or the colour events, the texture limit, the resolution's scaling flag and the promotion; `FiltersKeepSavedIsCustom`, `FiltersAfterSwitchKeeps` and `ResetFiltersRestoresDefault` state it |
| SimulationTicker.EscSkipsTheRest | rust/display-sim-core/src/simulation_core_ticker.rs:139-147 | esc ends the update after the timers and the animation: `quit` is set, the timers took their step, and the filters, the countdown, `resetted` and the demo's flag stay; only a viewport resize (line 136) has cleared `scaling_initialized` |
| SimulationTicker.UpdateKeepsInvariants | rust/display-sim-core/src/simulation_core_ticker.rs:128-168 | a completed update keeps the frame cursor in range and every snapshot Custom; one not ended by esc clears `resetted`, leaves `scaling_initialized` set by the output scaling (lines 737-740) and sets `drawable` iff the screenshot fired or no countdown runs |
| SimulationTicker.TickKeeps | rust/display-sim-core/src/simulation_core_ticker.rs:133-141 | the viewport resize, the timers and the animation keep the frame cursor in range and the snapshot |
| SimulationTicker.TickOf | rust/display-sim-core/src/simulation_core_ticker.rs:133-141 | the viewport resize, the timer step and the animation step; `TickKeeps`, `EscSkipsTheRest` and `UpdateKeepsInvariants` state it |
| SimulationTicker.ScalingOf | rust/display-sim-core/src/simulation_core_ticker.rs:184-202 | the `scaling_initialized` flag after `update_scaling`; `UpdateKeepsInvariants` states it, and `UpdateScaling` states the method against it |
| SimulationTicker.FinishKeeps | rust/display-sim-core/src/simulation_core_ticker.rs:157-165 | the end of a frame keeps the video and the snapshot, clears `resetted`, leaves the scaling initialised and sets `drawable` iff the screenshot fired or no countdown runs |
| SimulationTicker.FinishOf | rust/display-sim-core/src/simulation_core_ticker.rs:157-165 | the end of a frame: screenshot, demo start and output scaling; `FinishKeeps` and `DemoBacksUpCamera` state it |
| SimulationTicker.UpdateOf | rust/display-sim-core/src/simulation_core_ticker.rs:128-168 | the modelled `update`: viewport resize, timers, animation, esc, scaling flag, filters, screenshot, demo start, output scaling and the closing flags; `EscSkipsTheRest`, `UpdateKeepsInvariants` and `BadPresetFailsUpdate` state it |
| SimulationTicker.BadPresetFailsUpdate | rust/display-sim-core/src/simulation_core_ticker.rs:155 | an unparsable preset name fails the update with the unknown-preset error, unless esc ended it first; the error is raised at line 490 |
| SimulationTicker.UpdateTimers | rust/display-sim-core/src/simulation_core_ticker.rs:273-285 | the timers become the timer step of the old ones; nothing else changes; likewise rust/screen-sim-core/src/simulation_core_ticker.rs:104-116 |
| SimulationTicker.UpdateAnimationBuffer | rust/display-sim-core/src/simulation_core_ticker.rs:287-301 | the video becomes the animation step of the old one; nothing else changes; likewise rust/screen-sim-core/src/simulation_core_ticker.rs:118-132 |
| SimulationTicker.UpdateScreenshot | rust/display-sim-core/src/simulation_core_ticker.rs:170-182 | the trigger becomes the screenshot step of the old one; nothing else changes |
| SimulationTicker.UpdateFilterPresetsFromEvent | rust/display-sim-core/src/simulation_core_ticker.rs:484-509 | the resources become the preset-switch outcome, and on a parse error the error is returned and nothing changes |
| SimulationTicker.UpdateFilters | rust/display-sim-core/src/simulation_core_ticker.rs:340-482 | the resources become the modelled `update_filters` outcome: the preset switch, the reset or the colour events, the texture limit of line 408, the scaling flag cleared by a resolution change (line 413) and the promotion; the colour events are the corrected ones, the brightness colour read from its own event (`ColorEventsOf`), not from the light-colour event as at lines 352-355; an error is returned with nothing changed |
| SimulationTicker.Update | rust/display-sim-core/src/simulation_core_ticker.rs:128-168 | the resources become the modelled `update` outcome, with the corrected colour events of `UpdateFilters`; on an error that error is returned and the resources are left after the viewport, timer and animation steps and the scaling flag, as when `?` returns at line 155 |
| SimulationTicker.StartFrame | rust/display-sim-core/src/simulation_core_ticker.rs:133-141 | the viewport resize clears `scaling_initialized`, then the timer and animation steps |
| SimulationTicker.UpdateScaling | rust/display-sim-core/src/simulation_core_ticker.rs:184-202 | only `scaling_initialized` changes: it is cleared when the scaling changed |
| SimulationTicker.Promote | rust/display-sim-core/src/simulation_core_ticker.rs:472-479 | the resources become the promotion outcome |
| SimulationTicker.UpdateDemo | rust/display-sim-core/src/simulation_core_ticker.rs:630-633 | on the demo's first frame `needs_initialization` is cleared and the camera backed up; nothing else in the model changes |
| SimulationTicker.FinishFrame | rust/display-sim-core/src/simulation_core_ticker.rs:157-165 | the screenshot step, the demo start under the flight demo, `scaling_initialized` set by the output scaling, then `resetted` cleared and `drawable` set from the trigger |
| ScreenSimTicker.BlurBounded | rust/screen-sim-core/src/simulation_core_ticker.rs:212-238 | the blur level always ends in [0, 100]; an event sets it outright, capped at 100, and without one the buttons move it by at most one and never below 0 |
| ScreenSimTicker.BlurEdges | rust/screen-sim-core/src/simulation_core_ticker.rs:217-223 | a decrease at 0 stays at 0, and both buttons at once, or neither, leave the level |
| ScreenSimTicker.BlurOf | rust/screen-sim-core/src/simulation_core_ticker.rs:212-238 | the blur rule; `BlurBounded` and `BlurEdges` state it |
| ScreenSimTicker.LppBounded | rust/screen-sim-core/src/simulation_core_ticker.rs:241-266 | lines per pixel always end in [1, 20]; an in-range event is taken as it is, and the buttons move an interior value by one |
| ScreenSimTicker.LppOf | rust/screen-sim-core/src/simulation_core_ticker.rs:241-266 | the lines-per-pixel rule; `LppBounded` states it |
| ScreenSimTicker.ShadowWraps | rust/screen-sim-core/src/simulation_core_ticker.rs:353-369 | the shadow cursor stays below 24, wraps 23 to 0 and 0 to 23, and agrees with display-sim-core's `ShadowShape` next and previous |
| ScreenSimTicker.ShadowRoundTrip | rust/screen-sim-core/src/simulation_core_ticker.rs:353-364 | stepping forward then back, or back then forward, returns to the start |
| ScreenSimTicker.ShadowOf | rust/screen-sim-core/src/simulation_core_ticker.rs:353-369 | the shadow wrap rule; `ShadowWraps` and `ShadowRoundTrip` state it |
| ScreenSimTicker.Filters.constructor | rust/screen-sim-core/src/simulation_core_state.rs:177-200 | the default blur level 1, two lines per pixel and shadow shape 3 |
| ScreenSimTicker.Filters.UpdateFilterBlur | rust/screen-sim-core/src/simulation_core_ticker.rs:212-238 | the blur level becomes the blur rule's outcome; the other fields stay |
| ScreenSimTicker.Filters.UpdateFilterLpp | rust/screen-sim-core/src/simulation_core_ticker.rs:241-266 | lines per pixel become the lpp rule's outcome; the other fields stay |
| ScreenSimTicker.Filters.UpdatePixelShadowShape | rust/screen-sim-core/src/simulation_core_ticker.rs:353-364 | the shadow cursor becomes the wrap rule's outcome; the other fields stay |
| BooleanActions.ModifierCode | rust/display-sim-core/src/boolean_actions.rs:66-73 | each modifier's code is a non-empty prefix ending in `+` |
| BooleanActions.ToBooleanAction | rust/display-sim-core/src/boolean_actions.rs:241-323 | the key table: each key named by the match gives its action and every other key `None`; the lookup is split into one-character keys, `shift+` and one character, and three runs of longer names, which together hold exactly the arms of the match; `KeyI`, `KeyShiftI`, `KeyShift`, `KeySpeedDec`, `KeyShiftF`, `KeyShiftSpeedDec` and the other `Key...` lemmas state entries of it |
| BooleanActions.GetModifiedAction | rust/display-sim-core/src/boolean_actions.rs:53-64 | a modified keycode comes back iff the key is not the modifier itself and the prefixed key is bound, with that binding; otherwise the key's own action |
| BooleanActions.FirstIndexOf | rust/display-sim-core/src/boolean_actions.rs:131-140 | the search finds the first entry holding the action, and finds nothing iff no entry holds it |
| BooleanActions.ModifyOf | rust/display-sim-core/src/boolean_actions.rs:86-99 | the plan of `modify_active_actions`; `ModifyPlanShape` and `ModifyPlansRewritable` state it |
| BooleanActions.UnmodifyOf | rust/display-sim-core/src/boolean_actions.rs:101-117 | the plan of `unmodify_active_actions`; `UnmodifyPlanShape` and `UnmodifyPlansPrefixed` state it |
| BooleanActions.ModifyPlanShape | rust/display-sim-core/src/boolean_actions.rs:86-99 | pressing a modifier pairs each planned deletion, in list order, with the entry's prefixed keycode and its binding |
| BooleanActions.UnmodifyPlanShape | rust/display-sim-core/src/boolean_actions.rs:101-117 | releasing a modifier plans deletions in list order, of real entries, and adds back only bound keycodes |
| BooleanActions.ModifyPlansRewritable | rust/display-sim-core/src/boolean_actions.rs:86-99 | pressing a modifier plans to delete an entry iff its prefixed keycode is bound |
| BooleanActions.UnmodifyPlansPrefixed | rust/display-sim-core/src/boolean_actions.rs:101-117 | releasing a modifier plans to delete an entry iff its keycode starts with the modifier's code |
| BooleanActions.WithoutOne | rust/display-sim-core/src/boolean_actions.rs:122 | dropping one position is `Vec::remove` at that position |
| BooleanActions.AsWrittenAgreesOnOneDeletion | rust/display-sim-core/src/boolean_actions.rs:119-128 | with at most one planned deletion, `resolve_modifications` as written does what is intended |
| BooleanActions.DeleteOf | rust/display-sim-core/src/boolean_actions.rs:120-123 | the first loop of `resolve_modifications` as intended: every planned entry's flag is cleared and the entry leaves the list by its original position; `AsWrittenAgreesOnOneDeletion` and `ShiftOverTwoKeysWith` state it |
| BooleanActions.ResolveOf | rust/display-sim-core/src/boolean_actions.rs:119-128 | `resolve_modifications` as intended: the deletions, then the additions; `AsWrittenAgreesOnOneDeletion`, `ShiftOverTwoKeysWith` and `Input.ResolveModifications` state it |
| BooleanActions.ReactOf | rust/display-sim-core/src/boolean_actions.rs:75-82 | `react_to_modifier` as intended: the press or release plan, then `ResolveOf`; `ModifyPlanShape`, `UnmodifyPlanShape`, `UnitTestScenarios` and `Input.ReactToModifier` state it |
| BooleanActions.ReactAsWrittenOf | rust/display-sim-core/src/boolean_actions.rs:75-82 | `react_to_modifier` as written, `None` for the panic; `StaleIndexPanicsWith` and `StaleIndexScenario` state it |
| BooleanActions.ResolveAsWrittenOf | rust/display-sim-core/src/boolean_actions.rs:119-128 | `resolve_modifications` as written: each planned position removed in turn from the shrinking list, `None` for the panic of an index past its end, then the additions; `StaleSecondRemoval`, `StaleIndexPanicsWith` and `AsWrittenAgreesOnOneDeletion` state it |
| BooleanActions.RemoveActionOf | rust/display-sim-core/src/boolean_actions.rs:130-144 | `remove_action` in a release build, where the scan stops at the first match; `RemoveActionRemovesFirst` states it |
| BooleanActions.RemoveActionRemovesFirst | rust/display-sim-core/src/boolean_actions.rs:130-144 | `remove_action` drops exactly the first entry holding the action, keeping the entries before it and the multiset of the rest, and changes nothing when none holds it |
| BooleanActions.RemoveActionKeepsNoDuplicates | rust/display-sim-core/src/boolean_actions.rs:130-144 | a removal keeps the active list free of duplicate actions |
| BooleanActions.DebugScanOf | rust/display-sim-core/src/boolean_actions.rs:131-140 | the scan of `remove_action` in a debug build: it runs over the whole list, a found position lies within it, and `None` is the failing `assert_eq!(index, None)` at a second match |
| BooleanActions.RemoveActionDebugOf | rust/display-sim-core/src/boolean_actions.rs:130-144 | `remove_action` in a debug build: the panic, or the list without the found position; `RemoveActionDebugAgrees` states it |
| BooleanActions.ScanAfterMatch | rust/display-sim-core/src/boolean_actions.rs:131-140 | once a match is recorded the debug scan panics iff a later entry holds the action, and otherwise keeps the recorded position |
| BooleanActions.ScanBeforeMatch | rust/display-sim-core/src/boolean_actions.rs:131-140 | before any match the debug scan panics iff two later entries hold the action, answers no position iff none does, and otherwise answers the first one |
| BooleanActions.RemoveActionDebugAgrees | rust/display-sim-core/src/boolean_actions.rs:130-144 | a debug-build `remove_action` panics iff two entries hold the action; otherwise it removes what the release build removes, so the builds agree on every list without duplicate actions |
| BooleanActions.UnboundKeyIsReturned | rust/display-sim-core/src/boolean_actions.rs:38-39 | a key with no binding under the held modifier is handed back and changes nothing |
| BooleanActions.PlainKeyKeepsNoDuplicates | rust/display-sim-core/src/boolean_actions.rs:35-48 | a key that is not a modifier keeps the active list free of duplicate and unbound actions |
| BooleanActions.AsWrittenAgreesOffModifiers | rust/display-sim-core/src/boolean_actions.rs:18-51 | away from the modifiers, the code as written and the intended binder agree |
| BooleanActions.TriggerOf | rust/display-sim-core/src/boolean_actions.rs:18-51 | `trigger_hotkey_action` as intended; `UnboundKeyIsReturned`, `PlainKeyKeepsNoDuplicates`, `AsWrittenAgreesOffModifiers`, `UnitTestScenarios`, `DuplicateThroughShiftWith` and `Input.TriggerHotkeyAction` state it |
| BooleanActions.TriggerAsWrittenOf | rust/display-sim-core/src/boolean_actions.rs:18-51 | `trigger_hotkey_action` with `resolve_modifications` as written; `None` is its panic; `AsWrittenAgreesOffModifiers` and `StaleIndexScenario` state it |
| BooleanActions.UnitTestScenarios | rust/display-sim-core/src/boolean_actions.rs:325-393 | the five unit tests: press and release "i"; "i" then shift; shift then "i"; "i", shift, release "i"; shift, "i", release shift |
| BooleanActions.OnButtonActionScenarios | rust/display-sim-core/src/action_bindings.rs:312-380 | the same five tests with the pressed state as a `bool` |
| BooleanActions.StaleSecondRemoval | rust/display-sim-core/src/boolean_actions.rs:120-123 | as written, deleting positions 0 then 1 from a two-entry list panics on the second `remove` |
| BooleanActions.StaleIndexPanicsWith | rust/display-sim-core/src/boolean_actions.rs:119-123 | holding "i" and "k" and pressing shift makes the code as written panic; the deletions are planned at lines 75-82 |
| BooleanActions.ShiftOverTwoKeysWith | rust/display-sim-core/src/boolean_actions.rs:119-128 | the intended removal rewrites both held keys to their shifted bindings and records shift; the deletions are planned at lines 75-82 |
| BooleanActions.StaleIndexScenario | rust/display-sim-core/src/boolean_actions.rs:18-128 | pressing "i", "k", then shift: the code as written panics where the intended binder holds "shift+i", "shift+k" and shift |
| BooleanActions.DuplicateThroughShiftWith | rust/display-sim-core/src/boolean_actions.rs:18-51 | for any table binding "move-speed-dec" and "shift+f" to the speed decrease and "f" to the increase: holding "move-speed-dec", then "f", then pressing shift leaves two entries holding the speed decrease, on which a debug-build `remove_action` panics; the release build's release of "f" drops the "move-speed-dec" entry instead |
| BooleanActions.DuplicateThroughShiftScenario | rust/display-sim-core/src/boolean_actions.rs:18-51 | the same three presses and the release of "f" under the key table of lines 241-323 |
| BooleanActions.ModifyActiveActions | rust/display-sim-core/src/boolean_actions.rs:86-99 | the loop builds exactly the planned additions and deletions |
| BooleanActions.UnmodifyActiveActions | rust/display-sim-core/src/boolean_actions.rs:101-117 | the loop builds exactly the planned additions and deletions |
| BooleanActions.Input.constructor | rust/display-sim-core/src/input_types.rs:119-122 | the default `Input`: every field false and nothing held |
| BooleanActions.HandleOf | rust/display-sim-core/src/boolean_actions.rs:151-239 | `handle_action` on the held flags; `HandleOwnsOneFlag` and `Input.HandleAction` state it |
| BooleanActions.HandleOwnsOneFlag | rust/display-sim-core/src/boolean_actions.rs:151-239 | a press sets the action's own flag, a release clears it, `None` changes nothing, and every other flag stays |
| BooleanActions.Input.HandleAction | rust/display-sim-core/src/boolean_actions.rs:151-239 | the action's own field is set to the pressed state, and the action is reported used iff it is not `None` |
| BooleanActions.Input.RemoveAction | rust/display-sim-core/src/boolean_actions.rs:130-144 | the active list loses its first entry holding the action; the fields stay |
| BooleanActions.Input.ResolveModifications | rust/display-sim-core/src/boolean_actions.rs:119-128 | with the intended removal: every planned entry's field is cleared and the entry leaves the active list, the others keeping their order, then each addition's field is set and the addition appended; the stale-index `remove` of the code as written is `ResolveAsWrittenOf` |
| BooleanActions.Input.ReactToModifier | rust/display-sim-core/src/boolean_actions.rs:75-82 | with the intended removal: the modifier's plan, the rewrite on a press or the undoing on a release, is resolved |
| BooleanActions.Input.ApplyHotkey | rust/display-sim-core/src/boolean_actions.rs:35-50 | a held action is skipped, an unbound key is handed back, and otherwise the press is recorded or the release removed |
| BooleanActions.Input.TriggerHotkeyAction | rust/display-sim-core/src/boolean_actions.rs:18-51 | with the intended removal, the binder follows the hotkey rule: modifier rewrite, modifier reaction, then the key |
| BooleanActions.Input.OnButtonAction | rust/display-sim-core/src/action_bindings.rs:18-48 | with the intended removal, the earlier binder follows the same rule with the pressed state as a `bool` |
| EarlyActionBindings.Assign | src/action_bindings.rs:6-59 | `field = pressed` sets that field to the pressed state and no other; likewise the assignments of rust/screen-sim-core/src/action_bindings.rs:25-109 |
| EarlyActionBindings.Split | src/action_bindings.rs:62 | `split("+")` returns at least one piece and no piece contains `+` |
| EarlyActionBindings.JoinSplit | src/action_bindings.rs:62 | the pieces, joined with `+`, are the key |
| EarlyActionBindings.SplitJoin | src/action_bindings.rs:62 | splitting a `+`-join of `+`-free pieces gives them back |
| EarlyActionBindings.FragmentsDoNotSplit | src/action_bindings.rs:60-68 | a piece has no `+`: it runs its arm or is ignored, so the recursion stops after one level |
| EarlyActionBindings.PlusAloneRotates | src/action_bindings.rs:10 | the key `+` is named, so it is never split: it rotates left unless the text input has focus |
| EarlyActionBindings.FocusGuard | src/action_bindings.rs:6-11 | while the text input has focus, "," "." "+" "-" change nothing |
| EarlyActionBindings.WithShiftWritesTwo | src/action_bindings.rs:25-32 | an arm that also assigns `shift` writes its field and `shift`, and nothing else |
| EarlyActionBindings.PixelSpeedSetsShift | src/action_bindings.rs:25-32 | the pixel-speed keys assign the speed button and `shift` alike |
| EarlyActionBindings.ShiftPlusF | src/action_bindings.rs:23-64 | "shift+f" is not named: it runs "shift", then "f" |
| EarlyActionBindings.Binding | src/action_bindings.rs:6-59 | the named arms of the match; `FragmentsDoNotSplit`, `PlusAloneRotates` and `ShiftPlusF` state it |
| EarlyActionBindings.Apply | src/action_bindings.rs:4-70 | `on_button_action` on the set of fields that are on; `FocusGuard`, `WithShiftWritesTwo`, `PixelSpeedSetsShift`, `PlusAloneRotates`, `ShiftPlusF` and `Input.OnButtonAction` state it |
| EarlyActionBindings.Input.constructor | src/action_bindings.rs:4 | no field set |
| EarlyActionBindings.Input.Set | src/action_bindings.rs:6-59 | one assignment of the pressed state |
| EarlyActionBindings.Input.RunArm | src/action_bindings.rs:6-59 | one arm of the match on the fields |
| EarlyActionBindings.Input.OnButtonAction | src/action_bindings.rs:4-70 | the fields follow the dispatch: a named key runs its arm, an unnamed key with `+` runs each piece in order, any other key changes nothing |
| ScreenSimActionBindings.MatchedIffBound | rust/screen-sim-core/src/action_bindings.rs:3-112 | the result is `true` iff the match names the key, and an unknown key changes nothing |
| ScreenSimActionBindings.OneFieldPerKey | rust/screen-sim-core/src/action_bindings.rs:4-109 | every arm except the shift arm writes at most its one target field, to the pressed state unless guarded off |
| ScreenSimActionBindings.FocusGuard | rust/screen-sim-core/src/action_bindings.rs:5-24 | while the text input has focus, "," "." "+" "-" still match but change nothing |
| ScreenSimActionBindings.UnfocusedKeys | rust/screen-sim-core/src/action_bindings.rs:5-24 | without focus the same keys write their fields |
| ScreenSimActionBindings.SpeedKeysFollowShift | rust/screen-sim-core/src/action_bindings.rs:36-49 | "f" and "r" drive the filter speed while shift is held, and the translation speed otherwise |
| ScreenSimActionBindings.PixelKeysFollowShift | rust/screen-sim-core/src/action_bindings.rs:61-74 | "n" and "m" drive the pixel spread while shift is held, and the pixel width otherwise |
| ScreenSimActionBindings.ShiftKeysBound | rust/screen-sim-core/src/action_bindings.rs:99 | "shift", "left shift" and "right shift" are the shift arm |
| ScreenSimActionBindings.ShiftResetsPixelPairs | rust/screen-sim-core/src/action_bindings.rs:99-103 | the shift keys set `shift` and clear both pixel pairs, and touch nothing else |
| ScreenSimActionBindings.Binding | rust/screen-sim-core/src/action_bindings.rs:4-109 | the arms of the match; `MatchedIffBound`, `OneFieldPerKey` and `ShiftKeysBound` state it |
| ScreenSimActionBindings.OnButtonActionOf | rust/screen-sim-core/src/action_bindings.rs:3-112 | `on_button_action` on the set of fields that are on, with the matched flag; `MatchedIffBound`, `OneFieldPerKey`, `FocusGuard`, `UnfocusedKeys`, `SpeedKeysFollowShift`, `PixelKeysFollowShift`, `ShiftResetsPixelPairs` and `Input.OnButtonAction` state it |
| ScreenSimActionBindings.Input.constructor | rust/screen-sim-core/src/action_bindings.rs:3 | no field set |
| ScreenSimActionBindings.Input.Set | rust/screen-sim-core/src/action_bindings.rs:25-109 | one assignment of the pressed state |
| ScreenSimActionBindings.Input.RunArm | rust/screen-sim-core/src/action_bindings.rs:4-109 | one arm of the match on the fields |
| ScreenSimActionBindings.Input.OnButtonAction | rust/screen-sim-core/src/action_bindings.rs:3-113 | the fields and the result follow the dispatch |
| Text.NatToString | rust/display-sim-render/src/render_types.rs:187 | `{}` renders a `usize` as decimal digits without leading zeros |
| Text.ParseNatToString | rust/display-sim-render/src/render_types.rs:180-187 | reading the rendering back gives the number |
| TextureBufferStacks.OperationsKeepValid | rust/display-sim-render/src/render_types.rs:106-161 | resetting, the three setters and a successful pop keep the cursor within the list, the high-water mark at its length and the buffers distinct |
| TextureBufferStacks.ResetOf | rust/display-sim-render/src/render_types.rs:131-139 | `reset_stack`: cursor and mark at 0 and no buffer; `OperationsKeepValid` states it keeps the invariant |
| TextureBufferStacks.SetDepthbufferOf | rust/display-sim-render/src/render_types.rs:106-111 | `set_depthbuffer`; `SettersResetOnlyOnChange` and `OperationsKeepValid` state it |
| TextureBufferStacks.SetResolutionOf | rust/display-sim-render/src/render_types.rs:113-122 | `set_resolution`, with the size guard when the stack has one; `SettersResetOnlyOnChange`, `GuardIgnoresNonPositiveSize` and `UnguardedResetsOnAnySize` state it |
| TextureBufferStacks.SetInterpolationOf | rust/display-sim-render/src/render_types.rs:124-129 | `set_interpolation`; `SettersResetOnlyOnChange` and `OperationsKeepValid` state it |
| TextureBufferStacks.PushOf | rust/display-sim-render/src/render_types.rs:141-155 | `push`; `PushKeepsValid`, `PushAllocatesOnlyAtTop` and `PushAfterPopReuses` state it |
| TextureBufferStacks.PopOf | rust/display-sim-render/src/render_types.rs:157-161 | `pop`; `PopAtBottom` and `PushAfterPopReuses` state it |
| TextureBufferStacks.PushKeepsValid | rust/display-sim-render/src/render_types.rs:141-155 | a push keeps that invariant: a new buffer is a fresh allocation above every earlier one |
| TextureBufferStacks.PushAllocatesOnlyAtTop | rust/display-sim-render/src/render_types.rs:141-155 | a push allocates iff the cursor is at the top, with the current size, interpolation and depth setting; the buffers below are kept and the cursor moves up one |
| TextureBufferStacks.CurrentAndNth | rust/display-sim-render/src/render_types.rs:170-183 | the current buffer is the one below the cursor, it fails iff the cursor is 0, and `get_nth(0)` is the same lookup |
| TextureBufferStacks.NthRange | rust/display-sim-render/src/render_types.rs:177-183 | `get_nth(n)` succeeds iff `cursor + n - 1` indexes the list, and returns that buffer |
| TextureBufferStacks.PopAtBottom | rust/display-sim-render/src/render_types.rs:157-173 | a pop fails iff the cursor is 0, with the cursor-zero message, and otherwise only lowers the cursor |
| TextureBufferStacks.PushAfterPopReuses | rust/display-sim-render/src/render_types.rs:141-161 | a pop followed by a push returns to the same state without allocating |
| TextureBufferStacks.SettersResetOnlyOnChange | rust/display-sim-render/src/render_types.rs:106-139 | each setter empties the stack only when its value changes, keeping the new value |
| TextureBufferStacks.GuardIgnoresNonPositiveSize | rust/display-sim-render/src/render_types.rs:113-116 | with the size guard, a non-positive width or height is ignored |
| TextureBufferStacks.UnguardedResetsOnAnySize | src/screen-sim/render_types.rs:96-102 | without the guard, any new size, non-positive included, empties the stack |
| TextureBufferStacks.NoStackIffCursorZero | rust/display-sim-render/src/render_types.rs:185-190 | `assert_no_stack` succeeds iff the cursor is 0 |
| TextureBufferStacks.GetCurrentOf | rust/display-sim-render/src/render_types.rs:170-175 | `get_current`; `CurrentAndNth` states it |
| TextureBufferStacks.GetNthOf | rust/display-sim-render/src/render_types.rs:177-183 | `get_nth`; `NthRange` and `CurrentAndNth` state it |
| TextureBufferStacks.AssertNoStackOf | rust/display-sim-render/src/render_types.rs:185-190 | `assert_no_stack`; `NoStackIffCursorZero` states it |
| TextureBufferStacks.PushesFromTopGrow | src/render_types.rs:63-83 | in the fixed-size stack, `k` pushes from the top grow the list by exactly `k` fresh buffers and keep those below |
| TextureBufferStacks.TextureBufferStack.Render | rust/display-sim-render/src/render_types.rs:93-104 | 800x600, linear, no depth buffer, empty |
| TextureBufferStacks.TextureBufferStack.Web | crates/screen-sim-web-render/src/render_types.rs:102-113 | every field at its type's default, empty |
| TextureBufferStacks.TextureBufferStack.ScreenSim | src/screen-sim/render_types.rs:77-87 | 0x0, linear, no depth buffer, no size guard |
| TextureBufferStacks.TextureBufferStack.Fixed | src/render_types.rs:63-71 | the given size, every buffer with a depth attachment and `NEAREST` filtering (lines 27-28), no setters |
| TextureBufferStacks.TextureBufferStack.ResetStack | rust/display-sim-render/src/render_types.rs:131-139 | cursor and mark at 0 and no buffer left |
| TextureBufferStacks.TextureBufferStack.SetDepthbuffer | rust/display-sim-render/src/render_types.rs:106-111 | the state becomes the depth setter's outcome |
| TextureBufferStacks.TextureBufferStack.SetResolution | rust/display-sim-render/src/render_types.rs:113-122 | the state becomes the size setter's outcome |
| TextureBufferStacks.TextureBufferStack.SetInterpolation | rust/display-sim-render/src/render_types.rs:124-129 | the state becomes the interpolation setter's outcome |
| TextureBufferStacks.TextureBufferStack.Push | rust/display-sim-render/src/render_types.rs:141-155 | the state becomes the push outcome |
| TextureBufferStacks.TextureBufferStack.GetCurrent | rust/display-sim-render/src/render_types.rs:170-175 | returns the current-buffer lookup |
| TextureBufferStacks.TextureBufferStack.Pop | rust/display-sim-render/src/render_types.rs:157-161 | the state becomes the pop outcome, and at the bottom the error is returned and nothing changes |
| TextureBufferStacks.TextureBufferStack.GetNth | rust/display-sim-render/src/render_types.rs:177-183 | returns the `get_nth` lookup, with the index in its error message |
| TextureBufferStacks.TextureBufferStack.AssertNoStack | rust/display-sim-render/src/render_types.rs:185-190 | returns the `assert_no_stack` outcome, with the cursor in its error message |
| TextureBufferStacks.TwoPassFrame | rust/display-sim-render/src/render_types.rs:141-190 | pushing two targets and popping both leaves the stack at the bottom with both buffers kept |
| Mailboxes.PlaceAllAppends | www/src/services/mailbox.ts:25-30 | placing messages at an address appends them in order to its list, created on first use, and leaves every other address as it was |
| Mailboxes.PlaceOf | www/src/services/mailbox.ts:25-30 | `placeMessage`; `PlaceAllAppends` and `AddressesIndependent` state it |
| Mailboxes.ConsumeOf | www/src/services/mailbox.ts:31-35 | `consumeMessages`; `ConsumeReturnsPlacementOrder`, `SecondConsumeIsEmpty` and `AddressesIndependent` state it |
| Mailboxes.ConsumeReturnsPlacementOrder | www/src/services/mailbox.ts:25-35 | consuming a fresh address after placements returns exactly those messages, in placement order |
| Mailboxes.SecondConsumeIsEmpty | www/src/services/mailbox.ts:31-35 | a consume leaves an empty list, so a second one returns empty; a never-written address returns `undefined` and only then |
| Mailboxes.AddressesIndependent | www/src/services/mailbox.ts:25-35 | placing or consuming at one address does not change what another address returns |
| Mailboxes.Mailbox.constructor | www/src/services/mailbox.ts:19-23 | the dictionary starts empty |
| Mailboxes.Mailbox.PlaceMessage | www/src/services/mailbox.ts:25-30 | the dictionary becomes the placement outcome |
| Mailboxes.Mailbox.ConsumeMessages | www/src/services/mailbox.ts:31-35 | returns the old list, or `undefined`, and leaves the address empty |
| Mailboxes.ConsumeTwice | www/src/services/mailbox.ts:25-35 | two messages to one address: the first consume returns both in order, the second none, another address `undefined` |
| Lazies.FirstGetRunsCallbackOnce | www/src/services/lazy.ts:28-37 | the first get runs the callback once, returns its value and drops the callback; the second returns the same value and runs nothing |
| Lazies.GetOf | www/src/services/lazy.ts:28-37 | `get`; `FirstGetRunsCallbackOnce`, `CachedGetIsStable`, `NullResultThrowsOnSecondGet` and `CallbackRunsAtMostOnce` state it |
| Lazies.CachedGetIsStable | www/src/services/lazy.ts:29-36 | a cached value is returned and nothing changes |
| Lazies.NullResultThrowsOnSecondGet | www/src/services/lazy.ts:29-35 | a callback that returns `null` is dropped anyway, so the next get throws the null-callback error |
| Lazies.CallbackRunsAtMostOnce | www/src/services/lazy.ts:28-37 | over any number of gets the callback runs at most once, and once dropped it has run exactly once |
| Lazies.Lazy.constructor | www/src/services/lazy.ts:20-26 | holds the callback and no value; nothing has run |
| Lazies.Lazy.Get | www/src/services/lazy.ts:28-37 | result and new state are the get outcome, including the throw |
| Observers.CallsOfIndexed | www/src/services/observer.ts:31-35 | a fire calls each registered callback exactly once per registration, in subscription order, with the event |
| Observers.CallsOf | www/src/services/observer.ts:31-35 | what one `fire` calls; `CallsOfIndexed` and `CallsOfAppend` state it |
| Observers.Without | www/src/services/observer.ts:27-29 | the `filter` of `unsubscribe`; `WithoutRemovesAll`, `WithoutConcat` and `WithoutUnknownIsIdentity` state it |
| Observers.CallsOfAppend | www/src/services/observer.ts:23-35 | a newly subscribed callback is called last |
| Observers.WithoutRemovesAll | www/src/services/observer.ts:27-29 | unsubscribing removes every registration of that callback and keeps every other registration's count |
| Observers.WithoutConcat | www/src/services/observer.ts:27-29 | the filter keeps order: it distributes over concatenation |
| Observers.WithoutUnknownIsIdentity | www/src/services/observer.ts:27-29 | unsubscribing a callback never subscribed changes nothing |
| Observers.SubscribedTwiceCalledTwice | www/src/services/observer.ts:23-35 | a callback subscribed twice is called twice per fire, and one unsubscribe removes both |
| Observers.UnsubscribedNotCalled | www/src/services/observer.ts:27-35 | after an unsubscribe, no fire calls that callback |
| Observers.FireAll | www/src/services/observer.ts:31-35 | the fire loop produces the calls of the registered callbacks in order |
| Observers.Observer.constructor | www/src/services/observer.ts:17-21 | no callbacks; likewise www/src/services/observer.js:17-19 |
| Observers.Observer.Subscribe | www/src/services/observer.ts:23-25 | the callback is appended; likewise www/src/services/observer.js:25-27 |
| Observers.Observer.Unsubscribe | www/src/services/observer.ts:27-29 | the callbacks become the filtered list; likewise www/src/services/observer.js:29-31 |
| Observers.Observer.Fire | www/src/services/observer.ts:31-35 | returns the calls of the registered callbacks; likewise www/src/services/observer.js:33-37 |
| Observers.PubSub.constructor | www/src/services/pubsub.ts:21-25 | no callbacks |
| Observers.PubSub.Subscribe | www/src/services/pubsub.ts:27-30 | the callback is appended and the returned disposable holds it |
| Observers.PubSub.Fire | www/src/services/pubsub.ts:32-36 | returns the calls of the registered callbacks |
| Observers.PubSub.Dispose | www/src/services/pubsub.ts:29-40 | disposing removes every registration of the disposable's callback |
| Observers.DisposeBetweenFires | www/src/services/pubsub.ts:27-40 | two subscribers, fire, dispose the first, fire: the first fire calls both in order, the second only the other |
| OptionStorage.OptionOfLocalName | www/src/services/storage.js:18-26 | every option is recognised from its local key name |
| OptionStorage.LocalNamesDistinct | www/src/services/storage.js:18-26 | no two options share a key name |
| OptionStorage.PrefixInjective | www/src/services/storage.js:64-72 | prefixing keys is injective, so distinct names give distinct storage keys |
| OptionStorage.KeysArePrefixed | www/src/services/storage.js:64-72 | every key either store reads, writes or removes starts with `DISPLAY_SIM.`; `LandingStore`'s keys get the same start from www/src/services/local_storage.ts:27-35 |
| OptionStorage.ConsistentKeys | www/src/view/landing_page/landing_store.js:35-50 | in a consistent store each setter writes the key its getter reads and no other getter's key |
| OptionStorage.RoundTrip | www/src/services/storage.js:31-48 | reading back what was set gives the value's string form, a number as its decimal string, an empty string as the default, a flag as its truthiness; likewise www/src/view/landing_page/landing_store.js:35-50 |
| OptionStorage.GetOf | www/src/services/storage.js:31-47 | a getter: the stored string under its key, decoded, or its default; `RoundTrip` and `EmptyGivesDefaults` state it |
| OptionStorage.SetOf | www/src/services/storage.js:32-48 | a setter: the encoded value under its key; `RoundTrip`, `SetLeavesOthers` and `ConsistentKeys` state it |
| OptionStorage.RemoveAllOf | www/src/services/storage.js:49-59 | `removeAllOptions`; `RemoveAllRestoresDefaults`, `AsWrittenResetKeepsScaling` and `KeyNotRemoved` state it |
| OptionStorage.SetLeavesOthers | www/src/view/landing_page/landing_store.js:35-50 | in a consistent store, setting one option leaves every other getter's answer |
| OptionStorage.EmptyGivesDefaults | www/src/services/storage.js:31-47 | with nothing stored every getter answers its default: 256, 224, 4, 3, `false`, `true` and the constants' defaults; likewise www/src/view/landing_page/landing_store.js:35-49 |
| OptionStorage.RemoveAllRestoresDefaults | www/src/view/landing_page/landing_store.js:51-60 | in a consistent store, after `removeAllOptions` every getter answers its default |
| OptionStorage.CorrectedStoresAreConsistent | www/src/view/landing_page/landing_store.js:19-60 | `LandingStore` and the corrected `Storage` are consistent, and `LandingStore` offers no filter presets; the corrected `Storage` is www/src/services/storage.js:49-59 with the local names |
| OptionStorage.AsWrittenScalingIsLost | www/src/services/storage.js:31-32 | as written, when the `Constants` entry does not print as `option-scaling`, a set scaling option is never read back; likewise www/src/storage.js:31-32 |
| OptionStorage.AsWrittenResetKeepsScaling | www/src/services/storage.js:49-51 | as written, the scaling and power-preference options survive `removeAllOptions`; likewise www/src/storage.js:49-51 |
| OptionStorage.KeyNotRemoved | www/src/services/storage.js:49-59 | the getter's key of the scaling or power-preference option is removed only if a removal names it |
| OptionStorage.ResetMissesKey | www/src/services/storage.js:49-59 | such an option's getter answers the same after the reset |
| OptionStorage.UndefinedConstantKey | www/src/services/storage.js:32 | with `Constants` lacking the upper-case option names, the scaling option is written under `DISPLAY_SIM.undefined`; the same key is removed at line 50 |
| OptionStorage.OptionStore.constructor | www/src/view/landing_page/landing_store.js:29-34 | the store holds its configuration and the given local storage |
| OptionStorage.OptionStore.Get | www/src/services/storage.js:31-47 | returns the getter's answer for the option; likewise www/src/view/landing_page/landing_store.js:35-49 |
| OptionStorage.OptionStore.Set | www/src/services/storage.js:32-48 | local storage becomes the setter's outcome; likewise www/src/view/landing_page/landing_store.js:36-50 |
| OptionStorage.OptionStore.RemoveAllOptions | www/src/services/storage.js:49-59 | local storage loses exactly the removed keys; likewise www/src/view/landing_page/landing_store.js:51-60 |

## Left out

- Floating point: the float UI controllers and the colour conversions between packed integers and float triples are not modelled. Times and delays are modelled as `real`, where only ordering and clamping matter.
- The camera and the parts of the simulation ticker's `update` that work on floats or on the front end: `update_speeds`, the camera movement of `update_camera`, the custom scaling values of `update_scaling`, the flight path and colours of `update_demo`, `update_outputs` apart from `scaling_initialized`, `change_frontend_input_values`, the info-panel toggle and the messages dispatched to the front end. The camera is a type parameter of the resources. The field changers of `update_filters` are modelled on their own in `FieldChangers`; in the ticker only whether one of them changed its field is an input (`scalingChanged`, `filterControllersChanged`, `internalResolutionChanged`).
- SimulationTicker.Update, SimulationTicker.UpdateFilters, SimulationTicker.FinishFrame and SimulationTicker.UpdateDemo state their whole new resources, so they claim some values unchanged that the source changes. These are the camera, which `update_camera` moves (rust/display-sim-core/src/simulation_core_ticker.rs:511-590) and `update_demo` sets (lines 634-639, 655 and 680). They are also the filter fields that the field changers of `update_filters` step (lines 361-470), and the filter fields that the flight demo animates: the light colour, the pixel spread, the colour channels and the pixel geometry (lines 670-711). The model's resources carry no speeds, no viewport size (`video.viewport_size`, written at lines 133-137, of which only the clearing of `scaling_initialized` is modelled), scaling values other than `scaling_initialized`, demo fields other than `needs_initialization` and `camera_backup`, and no outputs. The `scaling_initialized` write that `update_camera` makes on a position reset (line 513) is not modelled, because `update_output_scaling` sets the flag again later in the same frame (lines 737-740).
- GL calls: creating, binding and deleting framebuffers and textures, allocation failure, and `bind_current`. A buffer is modelled by its allocation number.
- Decoding of `EncodedValue` from the browser, dispatched messages and log lines are outside the model; events arrive as already decoded values.
- I/O: reading and writing files and `os.listdir` in the licence script become parameters. So do the browser's `localStorage`, modelled as a map owned by the store.
- The `root` parameter of `LocalStorage`: it is stored but never read.
- The front end's `Constants` module: the option key names and the defaults it supplies are parameters. www/src/constants.js is not part of this model.
- `Mailbox.getInstance` and its `Lazy` singleton: the model covers one mailbox instance.
- `async`/`await`: each callback finishes before the next one starts. The callbacks' side effects are not modelled; only the order of calls is recorded.
- `PubSub`'s `Disposable` is modelled as the callback it will unsubscribe. The rest of the `Disposable` type is not modelled.
- `Lazies.Lazy.Get`: the callback's result is fixed when the `Lazy` is built, so a callback whose result depends on when it runs is not modelled.
- InternalResolutions.SetResolutionOf, InternalResolutions.PreviousOptionOf, InternalResolutions.NextOptionOf and the methods `SetResolution`, `NextOption` and `PreviousOption` of `InternalResolutions.InternalResolution` require a maximum texture size of at least 7, because below that the source does not terminate. For example, `set_max_texture_size(5)` then `set_resolution(4)` gives width 4 * 16 / 9 = 7 > 5, so `set_resolution` calls `previous_option` (rust/display-sim-core/src/ui_controller/internal_resolution.rs:80-81), whose arm for heights up to 4 (lines 127-130) calls `set_resolution(4)` again, without end. The caller that sets the limit passes the video input's `max_texture_size` (rust/display-sim-core/src/simulation_core_ticker.rs:408), which the web front end supplies; it is a texture-size limit, so in practice it is far above 7.
- Build profile, `remove_action` (rust/display-sim-core/src/boolean_actions.rs:130-144). In a debug build the scan runs over the whole list and `assert_eq!(index, None)` panics when a second entry holds the action. In a release build the scan stops at the first match. A missing action is ignored in both builds. The binder models the release build. The debug build is `BooleanActions.RemoveActionDebugOf`, and `BooleanActions.RemoveActionDebugAgrees` states that the two builds agree except on a list with two entries holding the action. `BooleanActions.DuplicateThroughShiftScenario` reaches such a list: hold "move-speed-dec", then "f", then press shift, and release "f".
- BooleanActions.RemoveActionRemovesFirst and BooleanActions.Input.RemoveAction state the release build's `remove_action`. They do not cover the debug-build panic on a second entry holding the action; that case is stated by `BooleanActions.RemoveActionDebugAgrees`.
- BooleanActions.RemoveActionKeepsNoDuplicates and BooleanActions.PlainKeyKeepsNoDuplicates keep the no-duplicate invariant for removals and for keys that are not modifiers. A modifier press can break that invariant, as `BooleanActions.DuplicateThroughShiftWith` shows. So the model does not promise that the active list is always free of duplicate actions.
- Build profile, `FieldChangers`: a `usize` field stepped below 0 (`Fails`) is modelled as in a debug build, where it gives the `Panicked` outcome. A release build would wrap around instead. A division by zero there panics in both builds.
- SimulationTicker.UpdateFilters and SimulationTicker.Update apply the corrected colour events (`ColorEventsOf`), so they do not reproduce the brightness colour being taken from the light-colour event (rust/display-sim-core/src/simulation_core_ticker.rs:352-355). The code as written is `SimulationTicker.ColorEventsAsWritten`, and `SimulationTicker.BrightnessColorEventIgnored` states what it does.
- The frame counter is unbounded: its `u32` wrap-around after 2^32 frames is not modelled. The `i32` arithmetic of the internal resolution is unbounded too; its values stay far below the limit.
- The screenshot message that depends on the elapsed time `dt` (rust/display-sim-core/src/simulation_core_ticker.rs:178) is not modelled; only the screenshot countdown is.
- The `get_values` accessor of screen-sim-core's state is not modelled. It only exposes the fields.
- `event_tag`, `keys` and `dispatch_event` of the event types are not modelled. They name events for the front end.
- Copies of the same code in older crates (src/, crates/, rust/screen-sim-*) are modelled by the shared member wherever the code is the same. Each row names the copy the member was written from, and adds the other places after "likewise" where they exist.
- The second copy of `resolve_modifications` (rust/display-sim-core/src/action_bindings.rs:117-126) has the same stale-index defect as the first. The code as written is `BooleanActions.ResolveAsWrittenOf`, which both binders share, and `BooleanActions.StaleIndexPanicsWith` exhibits the panic; the class methods use the corrected rule.
- BooleanActions.Input.ResolveModifications, BooleanActions.Input.ReactToModifier, BooleanActions.Input.TriggerHotkeyAction and BooleanActions.Input.OnButtonAction: these methods perform the intended removal (`ResolveOf`), not the stale-index removal of boolean_actions.rs:119-123 and action_bindings.rs:117-126, so they do not reproduce the index-out-of-bounds panic those lines raise when two or more entries are planned for deletion; the as-written behaviour is stated by the functions named in the previous line.

## Findings

| source | as written | input that shows it | evidently intended | confidence | as-written member | corrected member |
|---|---|---|---|---|---|---|
| rust/display-sim-core/src/boolean_actions.rs:119-123 | `resolve_modifications` removes the planned entries one by one with `remove(i)`, using indices computed before any removal, in ascending order | hold "i" and "k", then press shift: both entries are planned for deletion at indices 0 and 1; after the first removal the list has one entry, so `remove(1)` panics | remove every planned entry, e.g. from the highest index down, then add the rewritten bindings | high (not executed) | BooleanActions.StaleIndexPanicsWith | BooleanActions.ShiftOverTwoKeysWith |
| rust/display-sim-core/src/simulation_core_ticker.rs:352-355 | the brightness colour is assigned from the light-colour event | a brightness-colour event with no light-colour event leaves the brightness colour unchanged; a light-colour event changes the brightness colour too | the brightness colour is read from its own event | high (not executed) | SimulationTicker.BrightnessColorEventIgnored | SimulationTicker.ColorEventsSetTheirField |
| www/src/services/storage.js:32-51 | the scaling setter (line 32) and `removeAllOptions` (lines 50-51) use the key names from `Constants`, but the getters use the local names; www/src/storage.js does the same | `Constants` (www/src/services/constants.js) has no `OPTION_SCALING_SELECT`, so `setScalingSelectOption("scaling-4:3")` writes `DISPLAY_SIM.undefined`, and `getScalingSelectOption()` still answers the default | use the local key names, as `LandingStore` does | high (not executed) | OptionStorage.AsWrittenScalingIsLost | OptionStorage.CorrectedStoresAreConsistent |
