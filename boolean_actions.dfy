/**
 * The modifier-aware hotkey binder of display-sim-core: `trigger_hotkey_action`
 * (boolean_actions.rs) and its earlier twin `on_button_action`
 * (action_bindings.rs), which has the same branches with `bool` in place of
 * `Pressed` and `ButtonAction` in place of `BooleanAction`.
 *
 * Every action owns one boolean field of `Input` (`handle_action` assigns a
 * distinct field per action), so the fields are modelled as the set of
 * actions whose field is true; `input.shift` is `Shift in levels`.
 */
module BooleanActions {
  import Wrappers

  datatype Pressed = Yes | No

  /** `Pressed::from_bool`. */
  function FromBool(pressed: bool): (p: Pressed)
    ensures p == Yes <==> pressed
  {
    if pressed then Yes else No
  }

  datatype Boolean2DAction = Increase | Decrease

  datatype BooleanAction =
    | None | MouseClick | Shift | Control | Alt | Screenshot | ResetPosition | ResetFilters
    | InputFocused | CanvasFocused | Esc | Space | RotateLeft | RotateRight
    | TurnLeft | TurnRight | TurnUp | TurnDown
    | WalkLeft | WalkRight | WalkForward | WalkBackward | WalkUp | WalkDown | ResetSpeeds
    | ScalingMethod(d: Boolean2DAction) | ScalingResolutionWidth(d: Boolean2DAction)
    | ScalingResolutionHeight(d: Boolean2DAction) | ScalingAspectRatioX(d: Boolean2DAction)
    | ScalingAspectRatioY(d: Boolean2DAction) | TranslationSpeed(d: Boolean2DAction)
    | FilterSpeed(d: Boolean2DAction) | TurnSpeed(d: Boolean2DAction) | CameraZoom(d: Boolean2DAction)
    | PixelHorizontalGap(d: Boolean2DAction) | PixelVerticalGap(d: Boolean2DAction)
    | PixelWidth(d: Boolean2DAction) | PixelSpread(d: Boolean2DAction) | Blur(d: Boolean2DAction)
    | VerticalLpp(d: Boolean2DAction) | HorizontalLpp(d: Boolean2DAction)
    | Contrast(d: Boolean2DAction) | Bright(d: Boolean2DAction)
    | NextColorRepresentationKind(d: Boolean2DAction) | NextPixelGeometryKind(d: Boolean2DAction)
    | NextScreenCurvatureType(d: Boolean2DAction) | NextPixelShadowShapeKind(d: Boolean2DAction)
    | NextPixelsShadowHeight(d: Boolean2DAction) | NextInternalResolution(d: Boolean2DAction)
    | NextTextureInterpolation(d: Boolean2DAction) | BacklightPercent(d: Boolean2DAction)
    | NextCameraMovementMode(d: Boolean2DAction)

  predicate IsModifier(a: BooleanAction)
  {
    a == Shift || a == Control || a == Alt
  }

  /** An active entry: the (possibly modified) keycode and the action it holds down. */
  type Entry = (string, BooleanAction)

  /** A deletion planned by a modifier change: the entry's index and its action. */
  type IndexAction = (nat, BooleanAction)

  /** The two parts of `Input` the binder touches: the action fields and `active_pressed_actions`. */
  datatype Binder = Binder(levels: set<BooleanAction>, active: seq<Entry>)

  /**
   * The key table `to_boolean_action`, split by the shape of the key: one
   * character, `shift+` and one character, and every other name. The split is
   * exact: each key of the table falls into exactly one part.
   */
  function ToBooleanAction(key: string): BooleanAction
  {
    if |key| == 1 then CharKey(key[0])
    else if |key| == 7 && key[..6] == "shift+" then ShiftedCharKey(key[6])
    else NamedKey(key)
  }

  /** The one-character keys of the table. */
  function CharKey(c: char): BooleanAction
  {
    match c
    case ' ' => Space
    case '+' => RotateLeft
    case '-' => RotateRight
    case '←' | '◀' => TurnLeft
    case '→' | '▶' => TurnRight
    case '↑' | '▲' => TurnUp
    case '↓' | '▼' => TurnDown
    case 'a' => WalkLeft
    case 'd' => WalkRight
    case 'w' => WalkForward
    case 's' => WalkBackward
    case 'q' => WalkUp
    case 'e' => WalkDown
    case 'f' => TranslationSpeed(Increase)
    case 'r' => FilterSpeed(Increase)
    case 't' => ResetSpeeds
    case 'u' => PixelHorizontalGap(Increase)
    case 'i' => PixelVerticalGap(Increase)
    case 'o' => PixelWidth(Increase)
    case 'p' => PixelSpread(Increase)
    case 'j' => Blur(Increase)
    case 'k' => VerticalLpp(Increase)
    case 'l' => HorizontalLpp(Increase)
    case 'z' => Contrast(Increase)
    case 'x' => Bright(Increase)
    case 'c' => NextColorRepresentationKind(Increase)
    case 'v' => NextPixelGeometryKind(Increase)
    case 'b' => NextScreenCurvatureType(Increase)
    case 'n' => NextPixelShadowShapeKind(Increase)
    case 'm' => NextPixelsShadowHeight(Increase)
    case 'y' => NextInternalResolution(Increase)
    case 'h' => NextTextureInterpolation(Increase)
    case ',' => BacklightPercent(Increase)
    case '.' => BacklightPercent(Decrease)
    case 'g' => NextCameraMovementMode(Increase)
    case _ => None
  }

  /** The keys `shift+` followed by one character. */
  function ShiftedCharKey(c: char): BooleanAction
  {
    match c
    case 'f' => TranslationSpeed(Decrease)
    case 'r' => FilterSpeed(Decrease)
    case 'u' => PixelHorizontalGap(Decrease)
    case 'i' => PixelVerticalGap(Decrease)
    case 'o' => PixelWidth(Decrease)
    case 'p' => PixelSpread(Decrease)
    case 'j' => Blur(Decrease)
    case 'k' => VerticalLpp(Decrease)
    case 'l' => HorizontalLpp(Decrease)
    case 'z' => Contrast(Decrease)
    case 'x' => Bright(Decrease)
    case 'c' => NextColorRepresentationKind(Decrease)
    case 'v' => NextPixelGeometryKind(Decrease)
    case 'b' => NextScreenCurvatureType(Decrease)
    case 'n' => NextPixelShadowShapeKind(Decrease)
    case 'm' => NextPixelsShadowHeight(Decrease)
    case 'y' => NextInternalResolution(Decrease)
    case 'h' => NextTextureInterpolation(Decrease)
    case 'g' => NextCameraMovementMode(Decrease)
    case _ => None
  }

  /**
   * The keys of the table that are longer names, in the three runs of the
   * table: the session keys, the scaling and speed keys, and the filter
   * keys. No name is in two runs, so the order of the lookups is immaterial.
   */
  function NamedKey(key: string): BooleanAction
  {
    if SessionKey(key) != None then SessionKey(key)
    else if ScalingAndSpeedKey(key) != None then ScalingAndSpeedKey(key)
    else FilterKey(key)
  }

  /** The mouse, the modifiers, the focus, quitting, the panel and the turns. */
  function SessionKey(key: string): BooleanAction
  {
    match key
    case "mouse_click" => MouseClick
    case "shift" | "left shift" | "right shift" => Shift
    case "control" => Control
    case "alt" => Alt
    case "f4" | "capture-framebuffer" => Screenshot
    case "reset-camera" => ResetPosition
    case "reset-filters" => ResetFilters
    case "input_focused" => InputFocused
    case "canvas_focused" => CanvasFocused
    case "escape" | "esc" | "quit-simulation" => Esc
    case "space" | "feature-close-panel" => Space
    case "arrowleft" | "left" => TurnLeft
    case "arrowright" | "right" => TurnRight
    case "arrowup" | "up" => TurnUp
    case "arrowdown" | "down" => TurnDown
    case _ => None
  }

  /** The scaling, the speeds and the zoom. */
  function ScalingAndSpeedKey(key: string): BooleanAction
  {
    match key
    case "scaling-method-inc" => ScalingMethod(Increase)
    case "scaling-method-dec" => ScalingMethod(Decrease)
    case "custom-scaling-resolution-width-inc" => ScalingResolutionWidth(Increase)
    case "custom-scaling-resolution-width-dec" => ScalingResolutionWidth(Decrease)
    case "custom-scaling-resolution-height-inc" => ScalingResolutionHeight(Increase)
    case "custom-scaling-resolution-height-dec" => ScalingResolutionHeight(Decrease)
    case "custom-scaling-aspect-ratio-x-inc" => ScalingAspectRatioX(Increase)
    case "custom-scaling-aspect-ratio-x-dec" => ScalingAspectRatioX(Decrease)
    case "custom-scaling-aspect-ratio-y-inc" => ScalingAspectRatioY(Increase)
    case "custom-scaling-aspect-ratio-y-dec" => ScalingAspectRatioY(Decrease)
    case "move-speed-inc" => TranslationSpeed(Increase)
    case "move-speed-dec" => TranslationSpeed(Decrease)
    case "pixel-speed-inc" => FilterSpeed(Increase)
    case "pixel-speed-dec" => FilterSpeed(Decrease)
    case "turn-speed-inc" => TurnSpeed(Increase)
    case "turn-speed-dec" => TurnSpeed(Decrease)
    case "reset-speeds" => ResetSpeeds
    case "camera-zoom-inc" => CameraZoom(Increase)
    case "camera-zoom-dec" => CameraZoom(Decrease)
    case _ => None
  }

  /** The filters and the camera movement mode. */
  function FilterKey(key: string): BooleanAction
  {
    match key
    case "pixel-horizontal-gap-inc" => PixelHorizontalGap(Increase)
    case "pixel-horizontal-gap-dec" => PixelHorizontalGap(Decrease)
    case "pixel-vertical-gap-inc" => PixelVerticalGap(Increase)
    case "pixel-vertical-gap-dec" => PixelVerticalGap(Decrease)
    case "pixel-width-inc" => PixelWidth(Increase)
    case "pixel-width-dec" => PixelWidth(Decrease)
    case "blur-level-inc" => Blur(Increase)
    case "blur-level-dec" => Blur(Decrease)
    case "vertical-lpp-inc" => VerticalLpp(Increase)
    case "vertical-lpp-dec" => VerticalLpp(Decrease)
    case "horizontal-lpp-inc" => HorizontalLpp(Increase)
    case "horizontal-lpp-dec" => HorizontalLpp(Decrease)
    case "&lt;" | "pixel-contrast-inc" => Contrast(Increase)
    case "pixel-contrast-dec" => Contrast(Decrease)
    case "pixel-brightness-inc" => Bright(Increase)
    case "pixel-brightness-dec" => Bright(Decrease)
    case "color-representation-inc" => NextColorRepresentationKind(Increase)
    case "color-representation-dec" => NextColorRepresentationKind(Decrease)
    case "pixel-geometry-inc" => NextPixelGeometryKind(Increase)
    case "pixel-geometry-dec" => NextPixelGeometryKind(Decrease)
    case "screen-curvature-inc" => NextScreenCurvatureType(Increase)
    case "screen-curvature-dec" => NextScreenCurvatureType(Decrease)
    case "pixel-shadow-shape-inc" => NextPixelShadowShapeKind(Increase)
    case "pixel-shadow-shape-dec" => NextPixelShadowShapeKind(Decrease)
    case "pixel-shadow-height-inc" => NextPixelsShadowHeight(Increase)
    case "pixel-shadow-height-dec" => NextPixelsShadowHeight(Decrease)
    case "internal-resolution-inc" => NextInternalResolution(Increase)
    case "internal-resolution-dec" => NextInternalResolution(Decrease)
    case "texture-interpolation-inc" => NextTextureInterpolation(Increase)
    case "texture-interpolation-dec" => NextTextureInterpolation(Decrease)
    case "backlight-percent-inc" => BacklightPercent(Increase)
    case "backlight-percent-dec" => BacklightPercent(Decrease)
    case "camera-movement-mode-inc" => NextCameraMovementMode(Increase)
    case "camera-movement-mode-dec" => NextCameraMovementMode(Decrease)
    case _ => None
  }

  /** `get_modifier_code`. */
  function ModifierCode(modifier: BooleanAction): (code: string)
    requires IsModifier(modifier)
    ensures |code| > 0 && code[|code| - 1] == '+'
  {
    if modifier == Shift then "shift+" else if modifier == Control then "ctrl+" else "alt+"
  }

  /** `get_modified_action`: the action of the modifier-prefixed keycode, when that one is bound. */
  function GetModifiedAction(table: string -> BooleanAction, action: BooleanAction, keycode: string, modifier: BooleanAction)
    : (r: (Wrappers.Option<string>, BooleanAction))
    requires IsModifier(modifier)
    ensures r.0.Some? <==>
      action != modifier && table(ModifierCode(modifier) + keycode) != None
    ensures r.0.Some? ==> r.0.value == ModifierCode(modifier) + keycode && r.1 == table(r.0.value)
    ensures r.0.None? ==> r.1 == action
  {
    if action == modifier then (Wrappers.None, action)
    else
      var modified := ModifierCode(modifier) + keycode;
      if table(modified) != None then (Wrappers.Some(modified), table(modified))
      else (Wrappers.None, action)
  }

  /*
   * The specification functions below take the key table as a parameter
   * `table`, so that what is proved of the binder holds for any table; the
   * binder itself, and every concrete scenario, uses `ToBooleanAction`.
   */

  /** The first lines of `trigger_hotkey_action`: the first held modifier (shift, then ctrl, then alt) may rewrite the key. */
  function ModifiedKey(table: string -> BooleanAction, levels: set<BooleanAction>, keycode: string): (Wrappers.Option<string>, BooleanAction)
  {
    var action := table(keycode);
    if Shift in levels then GetModifiedAction(table, action, keycode, Shift)
    else if Control in levels then GetModifiedAction(table, action, keycode, Control)
    else if Alt in levels then GetModifiedAction(table, action, keycode, Alt)
    else (Wrappers.None, action)
  }

  /** `handle_action` on the action fields: `None` owns no field and is reported unused. */
  function HandleOf(levels: set<BooleanAction>, action: BooleanAction, pressed: Pressed): set<BooleanAction>
  {
    if action == None then levels else if pressed == Yes then levels + {action} else levels - {action}
  }

  /** `handle_action` writes the action's own flag, to the pressed state, and no other. */
  lemma HandleOwnsOneFlag(levels: set<BooleanAction>, action: BooleanAction, pressed: Pressed)
    ensures forall a :: a != action ==> (a in HandleOf(levels, action, pressed) <==> a in levels)
    ensures action != None ==> (action in HandleOf(levels, action, pressed) <==> pressed == Yes)
    ensures action == None ==> HandleOf(levels, action, pressed) == levels
  {
  }

  // ----- modify_active_actions / unmodify_active_actions -----

  predicate StartsWith(s: string, prefix: string)
  {
    |prefix| <= |s| && s[..|prefix|] == prefix
  }

  /** `str::replace(pattern, "")`: every non-overlapping occurrence removed, scanning left to right. */
  function RemoveAll(s: string, pattern: string): string
    requires |pattern| > 0
    decreases |s|
  {
    if |s| < |pattern| then s
    else if s[..|pattern|] == pattern then RemoveAll(s[|pattern|..], pattern)
    else [s[0]] + RemoveAll(s[1..], pattern)
  }

  /** The deletions and additions `modify_active_actions` plans for the entries `active`. */
  function ModifyOf(table: string -> BooleanAction, active: seq<Entry>, code: string): (seq<Entry>, seq<IndexAction>)
    decreases |active|
  {
    if active == [] then ([], [])
    else
      var i := |active| - 1;
      var (add, del) := ModifyOf(table, active[..i], code);
      var modified := code + active[i].0;
      if table(modified) == None then (add, del)
      else (add + [(modified, table(modified))], del + [(i, active[i].1)])
  }

  /** The deletions and additions `unmodify_active_actions` plans for the entries `active`. */
  function UnmodifyOf(table: string -> BooleanAction, active: seq<Entry>, code: string): (seq<Entry>, seq<IndexAction>)
    requires |code| > 0
    decreases |active|
  {
    if active == [] then ([], [])
    else
      var i := |active| - 1;
      var (add, del) := UnmodifyOf(table, active[..i], code);
      if !StartsWith(active[i].0, code) then (add, del)
      else
        var unmodified := RemoveAll(active[i].0, code);
        var del' := del + [(i, active[i].1)];
        if table(unmodified) == None then (add, del')
        else (add + [(unmodified, table(unmodified))], del')
  }

  // ----- resolve_modifications -----

  /** The second loop of `resolve_modifications`: each addition sets its field and is appended. */
  function AddAll(b: Binder, add: seq<Entry>): (r: Binder)
    ensures r.active == b.active + add
    decreases |add|
  {
    if add == [] then b
    else AddAll(Binder(HandleOf(b.levels, add[0].1, Yes), b.active + [add[0]]), add[1..])
  }

  /**
   * The first loop as written: clear the field, then `Vec::remove(i)` with the
   * index computed before any removal; `remove` panics past the end (`None`).
   */
  function DeleteAsWritten(b: Binder, del: seq<IndexAction>): Wrappers.Option<Binder>
    decreases |del|
  {
    if del == [] then Wrappers.Some(b)
    else
      var i := del[0].0;
      var levels := HandleOf(b.levels, del[0].1, No);
      if i >= |b.active| then Wrappers.None
      else DeleteAsWritten(Binder(levels, b.active[..i] + b.active[i + 1..]), del[1..])
  }

  function ResolveAsWrittenOf(b: Binder, add: seq<Entry>, del: seq<IndexAction>): Wrappers.Option<Binder>
  {
    match DeleteAsWritten(b, del)
    case None => Wrappers.None
    case Some(b') => Wrappers.Some(AddAll(b', add))
  }

  /** The indices named by a list of deletions. */
  function Indices(del: seq<IndexAction>): set<nat>
    decreases |del|
  {
    if del == [] then {} else Indices(del[..|del| - 1]) + {del[|del| - 1].0}
  }

  /** The entries of `active` whose positions are not in `gone`, in their original order. */
  function Without(active: seq<Entry>, gone: set<nat>): (r: seq<Entry>)
    ensures |r| <= |active|
    decreases |active|
  {
    if active == [] then []
    else
      var i := |active| - 1;
      Without(active[..i], gone) + (if i in gone then [] else [active[i]])
  }

  /** The first loop as intended: every planned entry goes, whatever the order of removal. */
  function DeleteOf(b: Binder, del: seq<IndexAction>): Binder
    decreases |del|
  {
    Binder(ClearAll(b.levels, del), Without(b.active, Indices(del)))
  }

  function ClearAll(levels: set<BooleanAction>, del: seq<IndexAction>): set<BooleanAction>
    decreases |del|
  {
    if del == [] then levels else ClearAll(HandleOf(levels, del[0].1, No), del[1..])
  }

  /** `resolve_modifications` with the planned entries removed by their original positions. */
  function ResolveOf(b: Binder, add: seq<Entry>, del: seq<IndexAction>): Binder
  {
    AddAll(DeleteOf(b, del), add)
  }

  /** `react_to_modifier` (with the intended removal). */
  function ReactOf(table: string -> BooleanAction, b: Binder, modifier: BooleanAction, pressed: Pressed): Binder
    requires IsModifier(modifier)
  {
    var code := ModifierCode(modifier);
    var (add, del) := if pressed == Yes then ModifyOf(table, b.active, code) else UnmodifyOf(table, b.active, code);
    ResolveOf(b, add, del)
  }

  /** `react_to_modifier` as written; `None` is the index-out-of-bounds panic. */
  function ReactAsWrittenOf(table: string -> BooleanAction, b: Binder, modifier: BooleanAction, pressed: Pressed): Wrappers.Option<Binder>
    requires IsModifier(modifier)
  {
    var code := ModifierCode(modifier);
    var (add, del) := if pressed == Yes then ModifyOf(table, b.active, code) else UnmodifyOf(table, b.active, code);
    ResolveAsWrittenOf(b, add, del)
  }

  // ----- remove_action -----

  /** The position of the first entry holding `action`. */
  function FirstIndexOf(active: seq<Entry>, action: BooleanAction): (r: Wrappers.Option<nat>)
    ensures r.Some? ==>
      r.value < |active| && active[r.value].1 == action && forall j :: 0 <= j < r.value ==> active[j].1 != action
    ensures r.None? <==> forall j :: 0 <= j < |active| ==> active[j].1 != action
    decreases |active|
  {
    if active == [] then Wrappers.None
    else if active[0].1 == action then Wrappers.Some(0)
    else match FirstIndexOf(active[1..], action)
      case None => Wrappers.None
      case Some(i) => Wrappers.Some(i + 1)
  }

  /** `remove_action` (a release build): the first entry holding `action` goes. */
  function RemoveActionOf(active: seq<Entry>, action: BooleanAction): seq<Entry>
  {
    match FirstIndexOf(active, action)
    case None => active
    case Some(i) => active[..i] + active[i + 1..]
  }

  predicate HasAction(active: seq<Entry>, action: BooleanAction)
  {
    exists i :: 0 <= i < |active| && active[i].1 == action
  }

  /**
   * The scan of `remove_action` in a debug build, from position `i` on,
   * with `index` the match seen so far: it never stops early, and its
   * `assert_eq!` fails (`None`) on a second entry holding `action`.
   */
  function DebugScanOf(active: seq<Entry>, action: BooleanAction, i: nat, index: Wrappers.Option<nat>)
    : (r: Wrappers.Option<Wrappers.Option<nat>>)
    requires i <= |active|
    requires index.Some? ==> index.value < i
    ensures r.Some? && r.value.Some? ==> r.value.value < |active|
    decreases |active| - i
  {
    if i == |active| then Wrappers.Some(index)
    else if active[i].1 == action then
      if index.Some? then Wrappers.None else DebugScanOf(active, action, i + 1, Wrappers.Some(i))
    else DebugScanOf(active, action, i + 1, index)
  }

  /** `remove_action` in a debug build; `None` is the panic on a second entry holding `action`. */
  function RemoveActionDebugOf(active: seq<Entry>, action: BooleanAction): Wrappers.Option<seq<Entry>>
  {
    match DebugScanOf(active, action, 0, Wrappers.None)
    case None => Wrappers.None
    case Some(None) => Wrappers.Some(active)
    case Some(Some(i)) => Wrappers.Some(active[..i] + active[i + 1..])
  }

  // ----- trigger_hotkey_action -----

  /** What `trigger_hotkey_action` does after the modifier reaction, on the key's final action. */
  function ApplyKey(b: Binder, keycode: string, maybeKeycode: Wrappers.Option<string>,
                    action: BooleanAction, pressed: Pressed): (Binder, Wrappers.Option<string>)
  {
    if pressed == Yes && HasAction(b.active, action) then (b, Wrappers.None)
    else if action == None then (b, Wrappers.Some(keycode))
    else if pressed == Yes then
      (Binder(b.levels + {action}, b.active + [(maybeKeycode.UnwrapOr(keycode), action)]), Wrappers.None)
    else (Binder(b.levels - {action}, RemoveActionOf(b.active, action)), Wrappers.None)
  }

  /** `trigger_hotkey_action` with the intended removal: the new binder state and the unused keycode. */
  function TriggerOf(table: string -> BooleanAction, b: Binder, keycode: string, pressed: Pressed): (Binder, Wrappers.Option<string>)
  {
    var (maybeKeycode, action) := ModifiedKey(table, b.levels, keycode);
    var b' := if IsModifier(action) then ReactOf(table, b, action, pressed) else b;
    ApplyKey(b', keycode, maybeKeycode, action, pressed)
  }

  /** `trigger_hotkey_action` as written; `None` is the panic in `resolve_modifications`. */
  function TriggerAsWrittenOf(table: string -> BooleanAction, b: Binder, keycode: string, pressed: Pressed)
    : Wrappers.Option<(Binder, Wrappers.Option<string>)>
  {
    var (maybeKeycode, action) := ModifiedKey(table, b.levels, keycode);
    var b' := if IsModifier(action) then ReactAsWrittenOf(table, b, action, pressed) else Wrappers.Some(b);
    match b'
    case None => Wrappers.None
    case Some(b'') => Wrappers.Some(ApplyKey(b'', keycode, maybeKeycode, action, pressed))
  }

  /** No action is held by two entries. */
  predicate NoDuplicateActions(active: seq<Entry>)
  {
    forall i, j :: 0 <= i < j < |active| ==> active[i].1 != active[j].1
  }


  // ----- properties of the planners and of removal -----

  /** A deletion planned for a bound entry, paired with the addition of its rewritten entry. */
  predicate RewritePlan(table: string -> BooleanAction, active: seq<Entry>, code: string,
                        add: seq<Entry>, del: seq<IndexAction>)
  {
    |add| == |del|
    && (forall k :: 0 <= k < |del| ==> del[k].0 < |active| && del[k].1 == active[del[k].0].1)
    && (forall k :: 0 <= k < |del| ==> add[k].0 == code + active[del[k].0].0 && add[k].1 == table(add[k].0) != None)
    && (forall k, l :: 0 <= k < l < |del| ==> del[k].0 < del[l].0)
  }

  /** `modify_active_actions` pairs each planned deletion with the entry's prefixed keycode and its binding, in list order. */
  lemma {:induction false} ModifyPlanShape(table: string -> BooleanAction, active: seq<Entry>, code: string)
    ensures RewritePlan(table, active, code, ModifyOf(table, active, code).0, ModifyOf(table, active, code).1)
    decreases |active|
  {
    if active != [] {
      var n := |active| - 1;
      ModifyPlanShape(table, active[..n], code);
      var (add, del) := ModifyOf(table, active[..n], code);
      forall k | 0 <= k < |del|
        ensures del[k].0 < n && active[del[k].0] == active[..n][del[k].0]
      {
      }
    }
  }

  /** `unmodify_active_actions` plans deletions in list order, and only bound additions. */
  lemma {:induction false} UnmodifyPlanShape(table: string -> BooleanAction, active: seq<Entry>, code: string)
    requires |code| > 0
    ensures var (add, del) := UnmodifyOf(table, active, code);
      |add| <= |del|
      && (forall k :: 0 <= k < |del| ==> del[k].0 < |active| && del[k].1 == active[del[k].0].1)
      && (forall k :: 0 <= k < |add| ==> add[k].1 == table(add[k].0) != None)
      && (forall k, l :: 0 <= k < l < |del| ==> del[k].0 < del[l].0)
    decreases |active|
  {
    if active != [] {
      var n := |active| - 1;
      UnmodifyPlanShape(table, active[..n], code);
      var (add, del) := UnmodifyOf(table, active[..n], code);
      forall k | 0 <= k < |del|
        ensures del[k].0 < n && active[del[k].0] == active[..n][del[k].0]
      {
      }
    }
  }

  lemma IndicesAppend(del: seq<IndexAction>, x: IndexAction)
    ensures Indices(del + [x]) == Indices(del) + {x.0}
  {
    assert (del + [x])[..|del|] == del;
  }

  lemma {:induction false} IndicesBelow(del: seq<IndexAction>, n: nat)
    requires forall k :: 0 <= k < |del| ==> del[k].0 < n
    ensures n !in Indices(del)
    decreases |del|
  {
    if del != [] {
      IndicesBelow(del[..|del| - 1], n);
    }
  }

  /** Pressing a modifier plans to delete exactly the entries whose prefixed keycode is bound. */
  lemma {:induction false} ModifyPlansRewritable(table: string -> BooleanAction, active: seq<Entry>, code: string, i: nat)
    requires i < |active|
    ensures table(code + active[i].0) != None <==> i in Indices(ModifyOf(table, active, code).1)
    decreases |active|
  {
    var n := |active| - 1;
    var (add, del) := ModifyOf(table, active[..n], code);
    if table(code + active[n].0) != None {
      IndicesAppend(del, (n, active[n].1));
    }
    if i < n {
      assert active[..n][i] == active[i];
      ModifyPlansRewritable(table, active[..n], code, i);
    } else {
      ModifyPlanShape(table, active[..n], code);
      IndicesBelow(del, n);
    }
  }

  /** Releasing a modifier plans to delete exactly the entries whose keycode carries its prefix. */
  lemma {:induction false} UnmodifyPlansPrefixed(table: string -> BooleanAction, active: seq<Entry>, code: string, i: nat)
    requires |code| > 0 && i < |active|
    ensures StartsWith(active[i].0, code) <==> i in Indices(UnmodifyOf(table, active, code).1)
    decreases |active|
  {
    var n := |active| - 1;
    var (add, del) := UnmodifyOf(table, active[..n], code);
    if StartsWith(active[n].0, code) {
      IndicesAppend(del, (n, active[n].1));
    }
    if i < n {
      assert active[..n][i] == active[i];
      UnmodifyPlansPrefixed(table, active[..n], code, i);
    } else {
      UnmodifyPlanShape(table, active[..n], code);
      IndicesBelow(del, n);
    }
  }

  /** Removing no position leaves the entries as they are. */
  lemma {:induction false} WithoutNothing(active: seq<Entry>, gone: set<nat>)
    requires forall j :: 0 <= j < |active| ==> j !in gone
    ensures Without(active, gone) == active
    decreases |active|
  {
    if active != [] {
      var n := |active| - 1;
      WithoutNothing(active[..n], gone);
      assert active[..n] + [active[n]] == active;
    }
  }

  /** Removing every position leaves nothing. */
  lemma {:induction false} WithoutEverything(active: seq<Entry>, gone: set<nat>)
    requires forall j :: 0 <= j < |active| ==> j in gone
    ensures Without(active, gone) == []
    decreases |active|
  {
    if active != [] {
      WithoutEverything(active[..|active| - 1], gone);
    }
  }

  /** Removing one position is `Vec::remove` at that position. */
  lemma {:induction false} WithoutOne(active: seq<Entry>, i: nat)
    requires i < |active|
    ensures Without(active, {i}) == active[..i] + active[i + 1..]
    decreases |active|
  {
    var n := |active| - 1;
    if n == i {
      WithoutNothing(active[..n], {i});
      assert active[i + 1..] == [];
    } else {
      WithoutOne(active[..n], i);
      assert active[..n][..i] == active[..i];
      assert active[..n][i + 1..] + [active[n]] == active[i + 1..];
    }
  }

  /** With at most one planned deletion the index cannot go stale: the code as written does what is intended. */
  lemma AsWrittenAgreesOnOneDeletion(b: Binder, add: seq<Entry>, del: seq<IndexAction>)
    requires |del| <= 1
    requires forall k :: 0 <= k < |del| ==> del[k].0 < |b.active|
    ensures ResolveAsWrittenOf(b, add, del) == Wrappers.Some(ResolveOf(b, add, del))
  {
    if del == [] {
      WithoutNothing(b.active, {});
    } else {
      assert del[1..] == [];
      assert Indices(del) == {del[0].0} by {
        assert del[..0] == [];
      }
      var i := del[0].0;
      WithoutOne(b.active, i);
      var cleared := Binder(HandleOf(b.levels, del[0].1, No), b.active[..i] + b.active[i + 1..]);
      assert DeleteAsWritten(b, del) == DeleteAsWritten(cleared, del[1..]) == Wrappers.Some(cleared);
      assert ClearAll(b.levels, del) == ClearAll(HandleOf(b.levels, del[0].1, No), del[1..]);
      assert DeleteOf(b, del) == cleared;
    }
  }

  /** `remove_action` takes out the first entry holding the action and keeps the rest in order. */
  lemma RemoveActionRemovesFirst(active: seq<Entry>, action: BooleanAction)
    ensures !HasAction(active, action) ==> RemoveActionOf(active, action) == active
    ensures HasAction(active, action) ==>
      var i := FirstIndexOf(active, action).value;
      |RemoveActionOf(active, action)| == |active| - 1
      && multiset(RemoveActionOf(active, action)) + multiset{active[i]} == multiset(active)
      && RemoveActionOf(active, action)[..i] == active[..i]
  {
    match FirstIndexOf(active, action)
    case None =>
    case Some(i) =>
      var r := active[..i] + active[i + 1..];
      assert RemoveActionOf(active, action) == r;
      assert r[..i] == active[..i];
      calc {
        multiset(active);
        { assert active == active[..i] + [active[i]] + active[i + 1..]; }
        multiset(active[..i]) + multiset{active[i]} + multiset(active[i + 1..]);
        multiset(r) + multiset{active[i]};
      }
  }

  /** Every kept entry of a removal is an entry of the original, in the original order. */
  lemma RemoveActionKeepsNoDuplicates(active: seq<Entry>, action: BooleanAction)
    requires NoDuplicateActions(active)
    ensures NoDuplicateActions(RemoveActionOf(active, action))
  {
    match FirstIndexOf(active, action)
    case None =>
    case Some(i) =>
      var r := RemoveActionOf(active, action);
      forall p, q | 0 <= p < q < |r|
        ensures r[p].1 != r[q].1
      {
        var p' := if p < i then p else p + 1;
        var q' := if q < i then q else q + 1;
        assert r[p] == active[p'] && r[q] == active[q'];
      }
  }

  /** Once a match is seen, the debug scan fails exactly when another entry from `i` on holds the action. */
  lemma {:induction false} ScanAfterMatch(active: seq<Entry>, action: BooleanAction, i: nat, x: nat)
    requires x < i <= |active|
    ensures DebugScanOf(active, action, i, Wrappers.Some(x)).None? <==> exists k :: i <= k < |active| && active[k].1 == action
    ensures DebugScanOf(active, action, i, Wrappers.Some(x)).Some? ==> DebugScanOf(active, action, i, Wrappers.Some(x)).value == Wrappers.Some(x)
    decreases |active| - i
  {
    if i < |active| && active[i].1 != action {
      ScanAfterMatch(active, action, i + 1, x);
      assert forall k :: i <= k < |active| && active[k].1 == action ==> i + 1 <= k;
    }
  }

  /** Before any match, the debug scan fails exactly on two entries holding the action, and otherwise finds the first. */
  lemma {:induction false} ScanBeforeMatch(active: seq<Entry>, action: BooleanAction, i: nat)
    requires i <= |active|
    ensures DebugScanOf(active, action, i, Wrappers.None).None? <==>
      exists j, k :: i <= j < k < |active| && active[j].1 == action && active[k].1 == action
    ensures DebugScanOf(active, action, i, Wrappers.None) == Wrappers.Some(Wrappers.None) ==>
      forall k :: i <= k < |active| ==> active[k].1 != action
    ensures var r := DebugScanOf(active, action, i, Wrappers.None);
      r.Some? && r.value.Some? ==>
        i <= r.value.value && active[r.value.value].1 == action && forall k :: i <= k < r.value.value ==> active[k].1 != action
    decreases |active| - i
  {
    if i < |active| {
      if active[i].1 == action {
        ScanAfterMatch(active, action, i + 1, i);
        if exists j, k :: i <= j < k < |active| && active[j].1 == action && active[k].1 == action {
          var j, k :| i <= j < k < |active| && active[j].1 == action && active[k].1 == action;
          assert i + 1 <= k;
        }
      } else {
        ScanBeforeMatch(active, action, i + 1);
        assert forall k :: i <= k < |active| && active[k].1 == action ==> i + 1 <= k;
      }
    }
  }

  /**
   * A debug build panics exactly when two entries hold the action;
   * otherwise it removes what a release build removes.
   */
  lemma RemoveActionDebugAgrees(active: seq<Entry>, action: BooleanAction)
    ensures RemoveActionDebugOf(active, action).None? <==>
      exists i, j :: 0 <= i < j < |active| && active[i].1 == action && active[j].1 == action
    ensures RemoveActionDebugOf(active, action).Some? ==> RemoveActionDebugOf(active, action).value == RemoveActionOf(active, action)
    ensures NoDuplicateActions(active) ==> RemoveActionDebugOf(active, action) == Wrappers.Some(RemoveActionOf(active, action))
  {
    ScanBeforeMatch(active, action, 0);
    var scan := DebugScanOf(active, action, 0, Wrappers.None);
    var first := FirstIndexOf(active, action);
    if scan == Wrappers.Some(Wrappers.None) {
      assert first.None?;
    } else if scan.Some? {
      var p := scan.value.value;
      assert first.Some? && first.value == p;
    } else {
      var j, k :| 0 <= j < k < |active| && active[j].1 == action && active[k].1 == action;
      assert !NoDuplicateActions(active);
    }
  }

  // ----- properties of trigger_hotkey_action -----

  /** No entry holds the unbound action. */
  predicate AllBound(active: seq<Entry>)
  {
    forall i :: 0 <= i < |active| ==> active[i].1 != None
  }

  /** A key with no binding, under whatever modifier is held, is handed back and changes nothing. */
  lemma UnboundKeyIsReturned(table: string -> BooleanAction, b: Binder, keycode: string, pressed: Pressed)
    requires AllBound(b.active)
    requires ModifiedKey(table, b.levels, keycode).1 == None
    ensures TriggerOf(table, b, keycode, pressed) == (b, Wrappers.Some(keycode))
  {
  }

  /** A released or modifier-free key pushes only an action that is not yet held, and only bound actions. */
  lemma PlainKeyKeepsNoDuplicates(table: string -> BooleanAction, b: Binder, keycode: string, pressed: Pressed)
    requires NoDuplicateActions(b.active) && AllBound(b.active)
    requires !IsModifier(ModifiedKey(table, b.levels, keycode).1)
    ensures NoDuplicateActions(TriggerOf(table, b, keycode, pressed).0.active)
    ensures AllBound(TriggerOf(table, b, keycode, pressed).0.active)
  {
    var (maybeKeycode, action) := ModifiedKey(table, b.levels, keycode);
    if pressed == No && action != None {
      RemoveActionKeepsNoDuplicates(b.active, action);
      RemoveActionRemovesFirst(b.active, action);
      var r := RemoveActionOf(b.active, action);
      forall j | 0 <= j < |r|
        ensures r[j].1 != None
      {
        assert r[j] in multiset(b.active);
      }
    }
  }

  /** Away from the modifiers the code as written and the intended binder agree. */
  lemma AsWrittenAgreesOffModifiers(table: string -> BooleanAction, b: Binder, keycode: string, pressed: Pressed)
    requires !IsModifier(ModifiedKey(table, b.levels, keycode).1)
    ensures TriggerAsWrittenOf(table, b, keycode, pressed) == Wrappers.Some(TriggerOf(table, b, keycode, pressed))
  {
  }

  // ----- the unit-test scenarios -----

  /*
   * Each scenario is proved for any key table that agrees with
   * `ToBooleanAction` on the keys it presses, then instantiated with
   * `ToBooleanAction` itself.
   */

  const Inc := PixelVerticalGap(Increase)
  const Dec := PixelVerticalGap(Decrease)
  const LppInc := VerticalLpp(Increase)
  const LppDec := VerticalLpp(Decrease)

  predicate ScenarioKeys(t: string -> BooleanAction)
  {
    t("i") == Inc && t("shift+i") == Dec && t("k") == LppInc && t("shift+k") == LppDec && t("shift") == Shift
  }

  const Empty := Binder({}, [])
  const HeldI := Binder({Inc}, [("i", Inc)])
  const HeldShift := Binder({Shift}, [("shift", Shift)])
  const HeldIThenShift := Binder({Dec, Shift}, [("shift+i", Dec), ("shift", Shift)])
  const HeldShiftThenI := Binder({Shift, Dec}, [("shift", Shift), ("shift+i", Dec)])
  const HeldIAndK := Binder({Inc, LppInc}, [("i", Inc), ("k", LppInc)])
  const ShiftedI := Binder({Dec}, [("shift+i", Dec)])
  const UnshiftedI := Binder({Shift, Inc}, [("shift", Shift), ("i", Inc)])
  const ShiftedIAndK := Binder({Dec, LppDec}, [("shift+i", Dec), ("shift+k", LppDec)])
  const ShiftOverIAndK := Binder({Dec, LppDec, Shift}, [("shift+i", Dec), ("shift+k", LppDec), ("shift", Shift)])

  /** `trigger_hotkey_action` in three steps: the key's action, the modifier reaction, the key itself. */
  lemma TriggerStep(t: string -> BooleanAction, b: Binder, keycode: string, pressed: Pressed,
                    maybeKeycode: Wrappers.Option<string>, action: BooleanAction, mid: Binder,
                    r: (Binder, Wrappers.Option<string>))
    requires ModifiedKey(t, b.levels, keycode) == (maybeKeycode, action)
    requires IsModifier(action) ==> ReactOf(t, b, action, pressed) == mid
    requires !IsModifier(action) ==> mid == b
    requires ApplyKey(mid, keycode, maybeKeycode, action, pressed) == r
    ensures TriggerOf(t, b, keycode, pressed) == r
  {
  }

  /** `react_to_modifier` in two steps: the plan, then its resolution. */
  lemma ReactStep(t: string -> BooleanAction, b: Binder, modifier: BooleanAction, pressed: Pressed,
                  add: seq<Entry>, del: seq<IndexAction>, r: Binder)
    requires IsModifier(modifier)
    requires pressed == Yes ==> ModifyOf(t, b.active, ModifierCode(modifier)) == (add, del)
    requires pressed == No ==> UnmodifyOf(t, b.active, ModifierCode(modifier)) == (add, del)
    requires AddAll(DeleteOf(b, del), add) == r
    ensures ReactOf(t, b, modifier, pressed) == r
  {
  }

  /** With no modifier held the key keeps its own binding. */
  lemma NoModifierHeld(t: string -> BooleanAction, levels: set<BooleanAction>, keycode: string)
    requires Shift !in levels && Control !in levels && Alt !in levels
    ensures ModifiedKey(t, levels, keycode) == (Wrappers.None, t(keycode))
  {
  }

  /** With shift held a key whose `shift+` form is bound takes that binding. */
  lemma ShiftHeld(t: string -> BooleanAction, levels: set<BooleanAction>, keycode: string)
    requires Shift in levels && t(keycode) != Shift && t("shift+" + keycode) != None
    ensures ModifiedKey(t, levels, keycode) == (Wrappers.Some("shift+" + keycode), t("shift+" + keycode))
  {
  }

  lemma ConcatShiftI()
    ensures "shift+" + "i" == "shift+i"
  {
  }

  lemma ApplyPressI()
    ensures ApplyKey(Empty, "i", Wrappers.None, Inc, Yes) == (HeldI, Wrappers.None)
  {
    assert Empty.levels + {Inc} == {Inc} && Empty.active + [("i", Inc)] == [("i", Inc)];
  }

  lemma PressIWith(t: string -> BooleanAction)
    requires ScenarioKeys(t)
    ensures TriggerOf(t, Empty, "i", Yes) == (HeldI, Wrappers.None)
  {
    NoModifierHeld(t, {}, "i");
    ApplyPressI();
    TriggerStep(t, Empty, "i", Yes, Wrappers.None, Inc, Empty, (HeldI, Wrappers.None));
  }

  lemma ApplyReleaseI()
    ensures ApplyKey(HeldI, "i", Wrappers.None, Inc, No) == (Empty, Wrappers.None)
  {
    assert FirstIndexOf(HeldI.active, Inc) == Wrappers.Some(0);
    assert HeldI.active[..0] + HeldI.active[1..] == [];
    assert HeldI.levels - {Inc} == {};
  }

  lemma ReleaseIWith(t: string -> BooleanAction)
    requires ScenarioKeys(t)
    ensures TriggerOf(t, HeldI, "i", No) == (Empty, Wrappers.None)
  {
    NoModifierHeld(t, {Inc}, "i");
    ApplyReleaseI();
    TriggerStep(t, HeldI, "i", No, Wrappers.None, Inc, HeldI, (Empty, Wrappers.None));
  }

  lemma ResolveNothing()
    ensures AddAll(DeleteOf(Empty, []), []) == Empty
  {
    WithoutNothing([], {});
  }

  lemma ApplyPressShift()
    ensures ApplyKey(Empty, "shift", Wrappers.None, Shift, Yes) == (HeldShift, Wrappers.None)
  {
    assert Empty.levels + {Shift} == {Shift} && Empty.active + [("shift", Shift)] == [("shift", Shift)];
  }

  lemma PressShiftWith(t: string -> BooleanAction)
    requires ScenarioKeys(t)
    ensures TriggerOf(t, Empty, "shift", Yes) == (HeldShift, Wrappers.None)
  {
    NoModifierHeld(t, {}, "shift");
    ResolveNothing();
    ReactStep(t, Empty, Shift, Yes, [], [], Empty);
    ApplyPressShift();
    TriggerStep(t, Empty, "shift", Yes, Wrappers.None, Shift, Empty, (HeldShift, Wrappers.None));
  }

  lemma ApplyPressIUnderShift()
    ensures ApplyKey(HeldShift, "i", Wrappers.Some("shift+i"), Dec, Yes) == (HeldShiftThenI, Wrappers.None)
  {
    assert !HasAction(HeldShift.active, Dec);
    assert HeldShift.levels + {Dec} == HeldShiftThenI.levels;
    assert Wrappers.Some("shift+i").UnwrapOr("i") == "shift+i";
    assert HeldShift.active + [("shift+i", Dec)] == HeldShiftThenI.active;
  }

  lemma PressIUnderShiftWith(t: string -> BooleanAction)
    requires ScenarioKeys(t)
    ensures TriggerOf(t, HeldShift, "i", Yes) == (HeldShiftThenI, Wrappers.None)
  {
    ConcatShiftI();
    ShiftHeld(t, {Shift}, "i");
    ApplyPressIUnderShift();
    TriggerStep(t, HeldShift, "i", Yes, Wrappers.Some("shift+i"), Dec, HeldShift, (HeldShiftThenI, Wrappers.None));
  }

  lemma ShiftPlanForHeldI(t: string -> BooleanAction)
    requires ScenarioKeys(t)
    ensures ModifyOf(t, HeldI.active, "shift+") == ([("shift+i", Dec)], [(0, Inc)])
  {
    var none: seq<Entry> := [];
    var nothing: seq<IndexAction> := [];
    assert HeldI.active[..0] == none;
    assert ModifyOf(t, none, "shift+") == (none, nothing);
    ConcatShiftI();
    assert none + [("shift+i", Dec)] == [("shift+i", Dec)];
    assert nothing + [(0, Inc)] == [(0, Inc)];
  }

  lemma AddOne(b: Binder, x: Entry)
    ensures AddAll(b, [x]) == Binder(HandleOf(b.levels, x.1, Yes), b.active + [x])
  {
    assert [x][1..] == [];
  }

  lemma ClearOne(levels: set<BooleanAction>, x: IndexAction)
    ensures ClearAll(levels, [x]) == HandleOf(levels, x.1, No)
  {
    assert [x][1..] == [];
  }

  lemma DeleteIFromHeldI()
    ensures DeleteOf(HeldI, [(0, Inc)]) == Binder({}, [])
  {
    assert Indices([(0, Inc)]) == {0} by {
      assert [(0, Inc)][..0] == [];
    }
    WithoutOne(HeldI.active, 0);
    assert HeldI.active[..0] + HeldI.active[1..] == [];
    ClearOne(HeldI.levels, (0, Inc));
    assert HeldI.levels - {Inc} == {};
  }

  lemma ResolveShiftOverI()
    ensures AddAll(DeleteOf(HeldI, [(0, Inc)]), [("shift+i", Dec)]) == ShiftedI
  {
    DeleteIFromHeldI();
    AddOne(Binder({}, []), ("shift+i", Dec));
    assert {} + {Dec} == {Dec};
  }

  lemma ApplyPressShiftOverI()
    ensures ApplyKey(ShiftedI, "shift", Wrappers.None, Shift, Yes) == (HeldIThenShift, Wrappers.None)
  {
    assert !HasAction(ShiftedI.active, Shift);
    assert ShiftedI.levels + {Shift} == HeldIThenShift.levels;
    assert ShiftedI.active + [("shift", Shift)] == HeldIThenShift.active;
  }

  lemma PressShiftOverIWith(t: string -> BooleanAction)
    requires ScenarioKeys(t)
    ensures TriggerOf(t, HeldI, "shift", Yes) == (HeldIThenShift, Wrappers.None)
  {
    NoModifierHeld(t, {Inc}, "shift");
    ShiftPlanForHeldI(t);
    ResolveShiftOverI();
    ReactStep(t, HeldI, Shift, Yes, [("shift+i", Dec)], [(0, Inc)], ShiftedI);
    ApplyPressShiftOverI();
    TriggerStep(t, HeldI, "shift", Yes, Wrappers.None, Shift, ShiftedI, (HeldIThenShift, Wrappers.None));
  }

  lemma ApplyReleaseIUnderShift()
    ensures ApplyKey(HeldIThenShift, "i", Wrappers.Some("shift+i"), Dec, No) == (HeldShift, Wrappers.None)
  {
    assert FirstIndexOf(HeldIThenShift.active, Dec) == Wrappers.Some(0);
    assert HeldIThenShift.active[..0] + HeldIThenShift.active[1..] == HeldShift.active;
    assert HeldIThenShift.levels - {Dec} == {Shift};
  }

  lemma ReleaseIUnderShiftWith(t: string -> BooleanAction)
    requires ScenarioKeys(t)
    ensures TriggerOf(t, HeldIThenShift, "i", No) == (HeldShift, Wrappers.None)
  {
    ConcatShiftI();
    ShiftHeld(t, {Dec, Shift}, "i");
    ApplyReleaseIUnderShift();
    TriggerStep(t, HeldIThenShift, "i", No, Wrappers.Some("shift+i"), Dec, HeldIThenShift, (HeldShift, Wrappers.None));
  }

  lemma RemoveShiftPrefix()
    ensures RemoveAll("shift+i", "shift+") == "i"
  {
    assert "shift+i"[..6] == "shift+" && "shift+i"[6..] == "i";
  }

  lemma UnshiftPlanForHeldShift(t: string -> BooleanAction)
    ensures UnmodifyOf(t, HeldShift.active, "shift+") == ([], [])
  {
    assert HeldShift.active[..0] == [];
    assert !StartsWith("shift", "shift+");
  }

  lemma UnshiftPlanForHeldShiftThenI(t: string -> BooleanAction)
    requires ScenarioKeys(t)
    ensures UnmodifyOf(t, HeldShiftThenI.active, "shift+") == ([("i", Inc)], [(1, Dec)])
  {
    var active := HeldShiftThenI.active;
    var none: seq<Entry> := [];
    var nothing: seq<IndexAction> := [];
    assert active[..1] == HeldShift.active;
    UnshiftPlanForHeldShift(t);
    assert StartsWith(active[1].0, "shift+") by {
      assert "shift+i"[..6] == "shift+";
    }
    RemoveShiftPrefix();
    assert none + [("i", Inc)] == [("i", Inc)];
    assert nothing + [(1, Dec)] == [(1, Dec)];
  }

  lemma DeleteShiftedIFromHeldShiftThenI()
    ensures DeleteOf(HeldShiftThenI, [(1, Dec)]) == HeldShift
  {
    assert Indices([(1, Dec)]) == {1} by {
      assert [(1, Dec)][..0] == [];
    }
    WithoutOne(HeldShiftThenI.active, 1);
    assert HeldShiftThenI.active[..1] + HeldShiftThenI.active[2..] == HeldShift.active;
    ClearOne(HeldShiftThenI.levels, (1, Dec));
    assert HeldShiftThenI.levels - {Dec} == {Shift};
  }

  lemma ResolveUnshiftI()
    ensures AddAll(DeleteOf(HeldShiftThenI, [(1, Dec)]), [("i", Inc)]) == UnshiftedI
  {
    DeleteShiftedIFromHeldShiftThenI();
    AddOne(HeldShift, ("i", Inc));
    assert HeldShift.active + [("i", Inc)] == UnshiftedI.active;
    assert {Shift} + {Inc} == UnshiftedI.levels;
  }

  lemma ApplyReleaseShiftOverI()
    ensures ApplyKey(UnshiftedI, "shift", Wrappers.None, Shift, No) == (HeldI, Wrappers.None)
  {
    assert FirstIndexOf(UnshiftedI.active, Shift) == Wrappers.Some(0);
    assert UnshiftedI.active[..0] + UnshiftedI.active[1..] == HeldI.active;
    assert UnshiftedI.levels - {Shift} == {Inc};
  }

  lemma ReleaseShiftOverIWith(t: string -> BooleanAction)
    requires ScenarioKeys(t)
    ensures TriggerOf(t, HeldShiftThenI, "shift", No) == (HeldI, Wrappers.None)
  {
    assert ModifiedKey(t, HeldShiftThenI.levels, "shift") == (Wrappers.None, Shift);
    UnshiftPlanForHeldShiftThenI(t);
    ResolveUnshiftI();
    ReactStep(t, HeldShiftThenI, Shift, No, [("i", Inc)], [(1, Dec)], UnshiftedI);
    ApplyReleaseShiftOverI();
    TriggerStep(t, HeldShiftThenI, "shift", No, Wrappers.None, Shift, UnshiftedI, (HeldI, Wrappers.None));
  }

  lemma KeyI()
    ensures ToBooleanAction("i") == Inc
  {
  }

  lemma KeyShiftI()
    ensures ToBooleanAction("shift+i") == Dec
  {
  }

  lemma KeyK()
    ensures ToBooleanAction("k") == LppInc
  {
  }

  lemma KeyShiftK()
    ensures ToBooleanAction("shift+k") == LppDec
  {
  }

  lemma KeyShift()
    ensures ToBooleanAction("shift") == Shift
  {
  }

  lemma ToBooleanActionScenarioKeys()
    ensures ScenarioKeys(ToBooleanAction)
  {
    KeyI();
    KeyShiftI();
    KeyK();
    KeyShiftK();
    KeyShift();
  }

  /** The five unit tests of boolean_actions.rs, which are also those of action_bindings.rs. */
  lemma UnitTestScenarios()
    ensures TriggerOf(ToBooleanAction, Empty, "i", Yes).0 == HeldI
    ensures TriggerOf(ToBooleanAction, HeldI, "i", No).0.active == []
    ensures TriggerOf(ToBooleanAction, HeldI, "shift", Yes).0.active == [("shift+i", Dec), ("shift", Shift)]
    ensures TriggerOf(ToBooleanAction, Empty, "shift", Yes).0 == HeldShift
    ensures TriggerOf(ToBooleanAction, HeldShift, "i", Yes).0.active == [("shift", Shift), ("shift+i", Dec)]
    ensures TriggerOf(ToBooleanAction, HeldIThenShift, "i", No).0.active == [("shift", Shift)]
    ensures TriggerOf(ToBooleanAction, HeldShiftThenI, "shift", No).0.active == [("i", Inc)]
  {
    ToBooleanActionScenarioKeys();
    PressIWith(ToBooleanAction);
    ReleaseIWith(ToBooleanAction);
    PressShiftOverIWith(ToBooleanAction);
    PressShiftWith(ToBooleanAction);
    PressIUnderShiftWith(ToBooleanAction);
    ReleaseIUnderShiftWith(ToBooleanAction);
    ReleaseShiftOverIWith(ToBooleanAction);
  }

  /** The five unit tests of action_bindings.rs, where the pressed state is a `bool`. */
  lemma OnButtonActionScenarios()
    ensures TriggerOf(ToBooleanAction, Empty, "i", FromBool(true)).0.active == [("i", Inc)]
    ensures TriggerOf(ToBooleanAction, HeldI, "i", FromBool(false)).0.active == []
    ensures TriggerOf(ToBooleanAction, HeldI, "shift", FromBool(true)).0.active == [("shift+i", Dec), ("shift", Shift)]
    ensures TriggerOf(ToBooleanAction, Empty, "shift", FromBool(true)).0.active == [("shift", Shift)]
    ensures TriggerOf(ToBooleanAction, HeldShift, "i", FromBool(true)).0.active == [("shift", Shift), ("shift+i", Dec)]
    ensures TriggerOf(ToBooleanAction, HeldIThenShift, "i", FromBool(false)).0.active == [("shift", Shift)]
    ensures TriggerOf(ToBooleanAction, HeldShiftThenI, "shift", FromBool(false)).0.active == [("i", Inc)]
  {
    UnitTestScenarios();
  }

  // ----- the stale index of resolve_modifications -----

  lemma ApplyPressK()
    ensures ApplyKey(HeldI, "k", Wrappers.None, LppInc, Yes) == (HeldIAndK, Wrappers.None)
  {
    assert !HasAction(HeldI.active, LppInc);
    assert HeldI.levels + {LppInc} == HeldIAndK.levels;
    assert HeldI.active + [("k", LppInc)] == HeldIAndK.active;
  }

  lemma PressKWith(t: string -> BooleanAction)
    requires ScenarioKeys(t)
    ensures TriggerAsWrittenOf(t, HeldI, "k", Yes) == Wrappers.Some((HeldIAndK, Wrappers.None))
  {
    NoModifierHeld(t, {Inc}, "k");
    ApplyPressK();
    TriggerStep(t, HeldI, "k", Yes, Wrappers.None, LppInc, HeldI, (HeldIAndK, Wrappers.None));
    AsWrittenAgreesOffModifiers(t, HeldI, "k", Yes);
  }

  lemma ShiftPlanForHeldIAndK(t: string -> BooleanAction)
    requires ScenarioKeys(t)
    ensures ModifyOf(t, HeldIAndK.active, "shift+") == (ShiftedIAndK.active, [(0, Inc), (1, LppInc)])
  {
    assert HeldIAndK.active[..1] == HeldI.active;
    ShiftPlanForHeldI(t);
    assert "shift+" + "k" == "shift+k";
    assert [("shift+i", Dec)] + [("shift+k", LppDec)] == ShiftedIAndK.active;
    var del: seq<IndexAction> := [(0, Inc)];
    assert del + [(1, LppInc)] == [(0, Inc), (1, LppInc)];
  }

  lemma StaleSecondRemoval()
    ensures DeleteAsWritten(HeldIAndK, [(0, Inc), (1, LppInc)]) == Wrappers.None
  {
    var del: seq<IndexAction> := [(0, Inc), (1, LppInc)];
    var once := Binder(HandleOf(HeldIAndK.levels, Inc, No), [("k", LppInc)]);
    assert HeldIAndK.active[..0] + HeldIAndK.active[1..] == [("k", LppInc)];
    assert DeleteAsWritten(HeldIAndK, del) == DeleteAsWritten(once, del[1..]);
  }

  /** Holding "i" and "k" and pressing shift: the second removal uses a stale index and panics. */
  lemma StaleIndexPanicsWith(t: string -> BooleanAction)
    requires ScenarioKeys(t)
    ensures TriggerAsWrittenOf(t, HeldIAndK, "shift", Yes) == Wrappers.None
  {
    NoModifierHeld(t, HeldIAndK.levels, "shift");
    ShiftPlanForHeldIAndK(t);
    StaleSecondRemoval();
  }

  lemma PlannedTwo()
    ensures Indices([(0, Inc), (1, LppInc)]) == {0, 1}
  {
    assert [(0, Inc)][..0] == [];
    assert [(0, Inc)] + [(1, LppInc)] == [(0, Inc), (1, LppInc)];
    IndicesAppend([(0, Inc)], (1, LppInc));
  }

  lemma ClearTwo()
    ensures ClearAll(HeldIAndK.levels, [(0, Inc), (1, LppInc)]) == {}
  {
    var del: seq<IndexAction> := [(0, Inc), (1, LppInc)];
    assert del[1..] == [(1, LppInc)];
    ClearOne(HeldIAndK.levels - {Inc}, (1, LppInc));
  }

  lemma AddPair(b: Binder, x: Entry, y: Entry)
    ensures AddAll(b, [x, y]) == Binder(HandleOf(HandleOf(b.levels, x.1, Yes), y.1, Yes), b.active + [x, y])
  {
    assert [x, y][1..] == [y];
    AddOne(Binder(HandleOf(b.levels, x.1, Yes), b.active + [x]), y);
    assert b.active + [x] + [y] == b.active + [x, y];
  }

  lemma AddTwo()
    ensures AddAll(Binder({}, []), ShiftedIAndK.active) == ShiftedIAndK
  {
    var none: seq<Entry> := [];
    var x, y := ("shift+i", Dec), ("shift+k", LppDec);
    AddPair(Binder({}, none), x, y);
    assert none + [x, y] == [x, y] == ShiftedIAndK.active;
  }

  lemma ResolveShiftOverIAndK()
    ensures AddAll(DeleteOf(HeldIAndK, [(0, Inc), (1, LppInc)]), ShiftedIAndK.active) == ShiftedIAndK
  {
    PlannedTwo();
    WithoutEverything(HeldIAndK.active, {0, 1});
    ClearTwo();
    AddTwo();
  }

  lemma ApplyShiftOverIAndK()
    ensures ApplyKey(ShiftedIAndK, "shift", Wrappers.None, Shift, Yes) == (ShiftOverIAndK, Wrappers.None)
  {
    assert !HasAction(ShiftedIAndK.active, Shift);
    assert ShiftedIAndK.levels + {Shift} == ShiftOverIAndK.levels;
    assert ShiftedIAndK.active + [("shift", Shift)] == ShiftOverIAndK.active;
  }

  /** The intended removal rewrites both held keys. */
  lemma ShiftOverTwoKeysWith(t: string -> BooleanAction)
    requires ScenarioKeys(t)
    ensures TriggerOf(t, HeldIAndK, "shift", Yes) == (ShiftOverIAndK, Wrappers.None)
  {
    NoModifierHeld(t, HeldIAndK.levels, "shift");
    ShiftPlanForHeldIAndK(t);
    ResolveShiftOverIAndK();
    ReactStep(t, HeldIAndK, Shift, Yes, ShiftedIAndK.active, [(0, Inc), (1, LppInc)], ShiftedIAndK);
    ApplyShiftOverIAndK();
    TriggerStep(t, HeldIAndK, "shift", Yes, Wrappers.None, Shift, ShiftedIAndK, (ShiftOverIAndK, Wrappers.None));
  }

  /** Pressing "i", "k", then shift: the code as written panics where the intended binder rewrites both keys. */
  lemma StaleIndexScenario()
    ensures TriggerOf(ToBooleanAction, Empty, "i", Yes).0 == HeldI
    ensures TriggerAsWrittenOf(ToBooleanAction, HeldI, "k", Yes) == Wrappers.Some((HeldIAndK, Wrappers.None))
    ensures TriggerAsWrittenOf(ToBooleanAction, HeldIAndK, "shift", Yes) == Wrappers.None
    ensures TriggerOf(ToBooleanAction, HeldIAndK, "shift", Yes).0.active
      == [("shift+i", Dec), ("shift+k", LppDec), ("shift", Shift)]
  {
    ToBooleanActionScenarioKeys();
    PressIWith(ToBooleanAction);
    PressKWith(ToBooleanAction);
    StaleIndexPanicsWith(ToBooleanAction);
    ShiftOverTwoKeysWith(ToBooleanAction);
  }

  /*
   * A second entry holding the same action: hold "move-speed-dec", then
   * "f", then press shift. The rewrite turns "f" into "shift+f", which is
   * bound to the action "move-speed-dec" already holds.
   */

  const SpeedInc := TranslationSpeed(Increase)
  const SpeedDec := TranslationSpeed(Decrease)

  predicate DuplicateKeys(t: string -> BooleanAction)
  {
    t("move-speed-dec") == SpeedDec && t("f") == SpeedInc && t("shift+f") == SpeedDec
    && t("shift+move-speed-dec") == None && t("shift") == Shift
  }

  const HeldSpeedDec := Binder({SpeedDec}, [("move-speed-dec", SpeedDec)])
  const HeldSpeedDecAndF := Binder({SpeedDec, SpeedInc}, [("move-speed-dec", SpeedDec), ("f", SpeedInc)])
  const ShiftedSpeedDecAndF := Binder({SpeedDec}, [("move-speed-dec", SpeedDec), ("shift+f", SpeedDec)])
  const ShiftOverSpeedDecAndF := Binder({SpeedDec, Shift}, [("move-speed-dec", SpeedDec), ("shift+f", SpeedDec), ("shift", Shift)])
  const ReleasedFUnderShift := Binder({Shift}, [("shift+f", SpeedDec), ("shift", Shift)])

  lemma PressSpeedDecWith(t: string -> BooleanAction)
    requires DuplicateKeys(t)
    ensures TriggerOf(t, Empty, "move-speed-dec", Yes) == (HeldSpeedDec, Wrappers.None)
  {
    NoModifierHeld(t, {}, "move-speed-dec");
    assert Empty.levels + {SpeedDec} == HeldSpeedDec.levels;
    assert Empty.active + [("move-speed-dec", SpeedDec)] == HeldSpeedDec.active;
    TriggerStep(t, Empty, "move-speed-dec", Yes, Wrappers.None, SpeedDec, Empty, (HeldSpeedDec, Wrappers.None));
  }

  lemma PressFOverSpeedDecWith(t: string -> BooleanAction)
    requires DuplicateKeys(t)
    ensures TriggerOf(t, HeldSpeedDec, "f", Yes) == (HeldSpeedDecAndF, Wrappers.None)
  {
    NoModifierHeld(t, HeldSpeedDec.levels, "f");
    assert !HasAction(HeldSpeedDec.active, SpeedInc);
    assert HeldSpeedDec.levels + {SpeedInc} == HeldSpeedDecAndF.levels;
    assert HeldSpeedDec.active + [("f", SpeedInc)] == HeldSpeedDecAndF.active;
    TriggerStep(t, HeldSpeedDec, "f", Yes, Wrappers.None, SpeedInc, HeldSpeedDec, (HeldSpeedDecAndF, Wrappers.None));
  }

  lemma ShiftPlanForSpeedDecAndF(t: string -> BooleanAction)
    requires DuplicateKeys(t)
    ensures ModifyOf(t, HeldSpeedDecAndF.active, "shift+") == ([("shift+f", SpeedDec)], [(1, SpeedInc)])
  {
    var none: seq<Entry> := [];
    var nothing: seq<IndexAction> := [];
    assert HeldSpeedDecAndF.active[..1][..0] == none;
    assert ModifyOf(t, none, "shift+") == (none, nothing);
    assert "shift+" + "move-speed-dec" == "shift+move-speed-dec";
    assert ModifyOf(t, HeldSpeedDecAndF.active[..1], "shift+") == (none, nothing);
    assert "shift+" + "f" == "shift+f";
    assert none + [("shift+f", SpeedDec)] == [("shift+f", SpeedDec)];
    assert nothing + [(1, SpeedInc)] == [(1, SpeedInc)];
  }

  lemma ResolveShiftOverSpeedDecAndF()
    ensures AddAll(DeleteOf(HeldSpeedDecAndF, [(1, SpeedInc)]), [("shift+f", SpeedDec)]) == ShiftedSpeedDecAndF
  {
    assert Indices([(1, SpeedInc)]) == {1} by {
      assert [(1, SpeedInc)][..0] == [];
    }
    WithoutOne(HeldSpeedDecAndF.active, 1);
    assert HeldSpeedDecAndF.active[..1] + HeldSpeedDecAndF.active[2..] == HeldSpeedDec.active;
    ClearOne(HeldSpeedDecAndF.levels, (1, SpeedInc));
    assert HeldSpeedDecAndF.levels - {SpeedInc} == HeldSpeedDec.levels;
    AddOne(HeldSpeedDec, ("shift+f", SpeedDec));
    assert HeldSpeedDec.levels + {SpeedDec} == ShiftedSpeedDecAndF.levels;
    assert HeldSpeedDec.active + [("shift+f", SpeedDec)] == ShiftedSpeedDecAndF.active;
  }

  lemma ApplyPressShiftOverSpeedDecAndF()
    ensures ApplyKey(ShiftedSpeedDecAndF, "shift", Wrappers.None, Shift, Yes) == (ShiftOverSpeedDecAndF, Wrappers.None)
  {
    assert !HasAction(ShiftedSpeedDecAndF.active, Shift);
    assert ShiftedSpeedDecAndF.levels + {Shift} == ShiftOverSpeedDecAndF.levels;
    assert ShiftedSpeedDecAndF.active + [("shift", Shift)] == ShiftOverSpeedDecAndF.active;
  }

  lemma PressShiftOverSpeedDecAndFWith(t: string -> BooleanAction)
    requires DuplicateKeys(t)
    ensures TriggerOf(t, HeldSpeedDecAndF, "shift", Yes) == (ShiftOverSpeedDecAndF, Wrappers.None)
  {
    NoModifierHeld(t, HeldSpeedDecAndF.levels, "shift");
    ShiftPlanForSpeedDecAndF(t);
    ResolveShiftOverSpeedDecAndF();
    ReactStep(t, HeldSpeedDecAndF, Shift, Yes, [("shift+f", SpeedDec)], [(1, SpeedInc)], ShiftedSpeedDecAndF);
    ApplyPressShiftOverSpeedDecAndF();
    TriggerStep(t, HeldSpeedDecAndF, "shift", Yes, Wrappers.None, Shift, ShiftedSpeedDecAndF, (ShiftOverSpeedDecAndF, Wrappers.None));
  }

  lemma ApplyReleaseFUnderShift()
    ensures ApplyKey(ShiftOverSpeedDecAndF, "f", Wrappers.Some("shift+f"), SpeedDec, No) == (ReleasedFUnderShift, Wrappers.None)
  {
    assert FirstIndexOf(ShiftOverSpeedDecAndF.active, SpeedDec) == Wrappers.Some(0);
    assert ShiftOverSpeedDecAndF.active[..0] + ShiftOverSpeedDecAndF.active[1..] == ReleasedFUnderShift.active;
    assert ShiftOverSpeedDecAndF.levels - {SpeedDec} == ReleasedFUnderShift.levels;
  }

  lemma ReleaseFUnderShiftWith(t: string -> BooleanAction)
    requires DuplicateKeys(t)
    ensures TriggerOf(t, ShiftOverSpeedDecAndF, "f", No) == (ReleasedFUnderShift, Wrappers.None)
  {
    assert "shift+" + "f" == "shift+f";
    ShiftHeld(t, ShiftOverSpeedDecAndF.levels, "f");
    ApplyReleaseFUnderShift();
    TriggerStep(t, ShiftOverSpeedDecAndF, "f", No, Wrappers.Some("shift+f"), SpeedDec, ShiftOverSpeedDecAndF,
                (ReleasedFUnderShift, Wrappers.None));
  }

  /** The rewrite leaves two entries on one action; releasing "f" then panics in a debug build. */
  lemma DuplicateThroughShiftWith(t: string -> BooleanAction)
    requires DuplicateKeys(t)
    ensures TriggerOf(t, Empty, "move-speed-dec", Yes).0 == HeldSpeedDec
    ensures TriggerOf(t, HeldSpeedDec, "f", Yes).0 == HeldSpeedDecAndF
    ensures TriggerOf(t, HeldSpeedDecAndF, "shift", Yes).0 == ShiftOverSpeedDecAndF
    ensures !NoDuplicateActions(ShiftOverSpeedDecAndF.active)
    ensures RemoveActionDebugOf(ShiftOverSpeedDecAndF.active, SpeedDec).None?
    ensures TriggerOf(t, ShiftOverSpeedDecAndF, "f", No).0 == ReleasedFUnderShift
  {
    PressSpeedDecWith(t);
    PressFOverSpeedDecWith(t);
    PressShiftOverSpeedDecAndFWith(t);
    var active := ShiftOverSpeedDecAndF.active;
    assert active[0].1 == active[1].1;
    RemoveActionDebugAgrees(active, SpeedDec);
    ReleaseFUnderShiftWith(t);
  }

  lemma KeySpeedDec()
    ensures ToBooleanAction("move-speed-dec") == SpeedDec
  {
  }

  lemma KeyF()
    ensures ToBooleanAction("f") == SpeedInc
  {
  }

  lemma KeyShiftF()
    ensures ToBooleanAction("shift+f") == SpeedDec
  {
    assert "shift+f"[..6] == "shift+";
  }

  lemma KeyShiftSpeedDec()
    ensures ToBooleanAction("shift+move-speed-dec") == None
  {
    NotASessionKey();
    NotAScalingOrSpeedKey();
    NotAFilterKey();
  }

  lemma NotASessionKey()
    ensures SessionKey("shift+move-speed-dec") == None
  {
  }

  lemma NotAScalingOrSpeedKey()
    ensures ScalingAndSpeedKey("shift+move-speed-dec") == None
  {
  }

  lemma NotAFilterKey()
    ensures FilterKey("shift+move-speed-dec") == None
  {
  }

  lemma ToBooleanActionDuplicateKeys()
    ensures DuplicateKeys(ToBooleanAction)
  {
    KeySpeedDec();
    KeyF();
    KeyShiftF();
    KeyShiftSpeedDec();
    KeyShift();
  }

  /**
   * Under the key table: a release build drops the first entry, the one of
   * "move-speed-dec", where a debug build panics.
   */
  lemma DuplicateThroughShiftScenario()
    ensures TriggerOf(ToBooleanAction, Empty, "move-speed-dec", Yes).0 == HeldSpeedDec
    ensures TriggerOf(ToBooleanAction, HeldSpeedDec, "f", Yes).0 == HeldSpeedDecAndF
    ensures TriggerOf(ToBooleanAction, HeldSpeedDecAndF, "shift", Yes).0.active
      == [("move-speed-dec", SpeedDec), ("shift+f", SpeedDec), ("shift", Shift)]
    ensures RemoveActionDebugOf(ShiftOverSpeedDecAndF.active, SpeedDec).None?
    ensures TriggerOf(ToBooleanAction, ShiftOverSpeedDecAndF, "f", No).0.active == [("shift+f", SpeedDec), ("shift", Shift)]
  {
    ToBooleanActionDuplicateKeys();
    DuplicateThroughShiftWith(ToBooleanAction);
  }

  // ----- the imperative binder -----

  /** `modify_active_actions`. */
  method ModifyActiveActions(active: seq<Entry>, code: string) returns (add: seq<Entry>, del: seq<IndexAction>)
    ensures (add, del) == ModifyOf(ToBooleanAction, active, code)
  {
    add, del := [], [];
    var i: nat := 0;
    while i < |active|
      invariant i <= |active|
      invariant (add, del) == ModifyOf(ToBooleanAction, active[..i], code)
    {
      assert active[..i + 1][..i] == active[..i];
      var modified := code + active[i].0;
      var modifiedAction := ToBooleanAction(modified);
      if modifiedAction != None {
        del := del + [(i, active[i].1)];
        add := add + [(modified, modifiedAction)];
      }
      i := i + 1;
    }
    assert active[..i] == active;
  }

  /** `unmodify_active_actions`. */
  method UnmodifyActiveActions(active: seq<Entry>, code: string) returns (add: seq<Entry>, del: seq<IndexAction>)
    requires |code| > 0
    ensures (add, del) == UnmodifyOf(ToBooleanAction, active, code)
  {
    add, del := [], [];
    var i: nat := 0;
    while i < |active|
      invariant i <= |active|
      invariant (add, del) == UnmodifyOf(ToBooleanAction, active[..i], code)
    {
      assert active[..i + 1][..i] == active[..i];
      if StartsWith(active[i].0, code) {
        del := del + [(i, active[i].1)];
        var unmodified := RemoveAll(active[i].0, code);
        var unmodifiedAction := ToBooleanAction(unmodified);
        if unmodifiedAction != None {
          add := add + [(unmodified, unmodifiedAction)];
        }
      }
      i := i + 1;
    }
    assert active[..i] == active;
  }

  /** The `Input` fields the binder reads and writes. */
  class Input {
    var levels: set<BooleanAction>
    var activePressedActions: seq<Entry>

    function State(): Binder
      reads this
    {
      Binder(levels, activePressedActions)
    }

    /** `Input::default`: every field false, nothing held. */
    constructor ()
      ensures State() == Binder({}, [])
    {
      levels, activePressedActions := {}, [];
    }

    /** `handle_action`; `used` is `ActionUsed::Yes`. */
    method HandleAction(action: BooleanAction, pressed: Pressed) returns (used: bool)
      modifies this
      ensures used <==> action != None
      ensures State() == Binder(HandleOf(old(levels), action, pressed), old(activePressedActions))
    {
      used := action != None;
      levels := HandleOf(levels, action, pressed);
    }

    /** `remove_action`: find the first entry holding the action, then remove it. */
    method RemoveAction(action: BooleanAction)
      modifies this
      ensures State() == Binder(old(levels), RemoveActionOf(old(activePressedActions), action))
    {
      var active := activePressedActions;
      var i: nat := 0;
      while i < |active| && active[i].1 != action
        invariant i <= |active|
        invariant forall j :: 0 <= j < i ==> active[j].1 != action
      {
        i := i + 1;
      }
      ghost var first := FirstIndexOf(active, action);
      if i < |active| {
        assert active[i].1 == action;
        assert first.Some? && first.value == i;
        activePressedActions := active[..i] + active[i + 1..];
      } else {
        assert first.None?;
      }
    }

    /** `resolve_modifications`, removing the planned entries by their original positions. */
    method ResolveModifications(add: seq<Entry>, del: seq<IndexAction>)
      modifies this
      ensures State() == ResolveOf(old(State()), add, del)
    {
      var gone := Indices(del);
      var kept: seq<Entry> := [];
      var i: nat := 0;
      while i < |activePressedActions|
        invariant i <= |activePressedActions|
        invariant kept == Without(activePressedActions[..i], gone)
      {
        assert activePressedActions[..i + 1][..i] == activePressedActions[..i];
        if i !in gone {
          kept := kept + [activePressedActions[i]];
        }
        i := i + 1;
      }
      assert activePressedActions[..i] == activePressedActions;
      var cleared := levels;
      var k: nat := 0;
      while k < |del|
        invariant k <= |del|
        invariant ClearAll(cleared, del[k..]) == ClearAll(levels, del)
      {
        assert del[k..][1..] == del[k + 1..];
        cleared := HandleOf(cleared, del[k].1, No);
        k := k + 1;
      }
      levels, activePressedActions := cleared, kept;
      ghost var deleted := State();
      k := 0;
      while k < |add|
        invariant k <= |add|
        invariant AddAll(State(), add[k..]) == AddAll(deleted, add)
      {
        assert add[k..][1..] == add[k + 1..];
        levels := HandleOf(levels, add[k].1, Yes);
        activePressedActions := activePressedActions + [add[k]];
        k := k + 1;
      }
    }

    /** `react_to_modifier`. */
    method ReactToModifier(modifier: BooleanAction, pressed: Pressed)
      requires IsModifier(modifier)
      modifies this
      ensures State() == ReactOf(ToBooleanAction, old(State()), modifier, pressed)
    {
      var code := ModifierCode(modifier);
      var add, del;
      if pressed == Yes {
        add, del := ModifyActiveActions(activePressedActions, code);
      } else {
        add, del := UnmodifyActiveActions(activePressedActions, code);
      }
      ResolveModifications(add, del);
    }

    /** The tail of `trigger_hotkey_action`: skip a held action, report an unbound key, else record the press or release. */
    method ApplyHotkey(keycode: string, maybeKeycode: Wrappers.Option<string>, action: BooleanAction, pressed: Pressed)
      returns (unused: Wrappers.Option<string>)
      modifies this
      ensures (State(), unused) == ApplyKey(old(State()), keycode, maybeKeycode, action, pressed)
    {
      if pressed == Yes && exists i | 0 <= i < |activePressedActions| :: activePressedActions[i].1 == action {
        return Wrappers.None;
      }
      var used := HandleAction(action, pressed);
      if !used {
        return Wrappers.Some(keycode);
      }
      if pressed == Yes {
        activePressedActions := activePressedActions + [(maybeKeycode.UnwrapOr(keycode), action)];
      } else {
        RemoveAction(action);
      }
      unused := Wrappers.None;
    }

    /** `trigger_hotkey_action`: the keycode is returned when no action is bound to it. */
    method TriggerHotkeyAction(keycode: string, pressed: Pressed) returns (unused: Wrappers.Option<string>)
      modifies this
      ensures (State(), unused) == TriggerOf(ToBooleanAction, old(State()), keycode, pressed)
    {
      ghost var b0 := State();
      var (maybeKeycode, action) := ModifiedKey(ToBooleanAction, levels, keycode);
      if IsModifier(action) {
        ReactToModifier(action, pressed);
      }
      ghost var b1 := State();
      assert b1 == if IsModifier(action) then ReactOf(ToBooleanAction, b0, action, pressed) else b0;
      unused := ApplyHotkey(keycode, maybeKeycode, action, pressed);
    }

    /** `on_button_action` of action_bindings.rs: the same binder, with the pressed state as a `bool`. */
    method OnButtonAction(keycode: string, pressed: bool) returns (unused: Wrappers.Option<string>)
      modifies this
      ensures (State(), unused) == TriggerOf(ToBooleanAction, old(State()), keycode, FromBool(pressed))
    {
      unused := TriggerHotkeyAction(keycode, FromBool(pressed));
    }
  }
}
