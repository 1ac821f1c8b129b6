/**
 * The string-dispatch `on_button_action` of screen-sim-core: every key names
 * one arm, and each arm assigns the pressed state to one boolean field of
 * `Input` (the shift arm also resets the pixel-width and pixel-spread pairs).
 * The boolean fields are modelled as the set of fields that are true.
 */
module ScreenSimActionBindings {
  import opened Wrappers
  import EarlyActionBindings

  datatype Dir = Increase | Decrease

  /** The boolean fields of `Input` the dispatch writes; a pair `IncDec<bool>` is one constructor per direction. */
  datatype Field =
    | InputFocused | Shift | Alt | Space | Esc | Screenshot | ResetPosition | ResetFilters | ResetSpeeds
    | RotateLeft | RotateRight | WalkLeft | WalkRight | WalkForward | WalkBackward | WalkUp | WalkDown
    | TurnLeft | TurnRight | TurnUp | TurnDown
    | TranslationSpeed(d: Dir) | FilterSpeed(d: Dir) | CameraZoom(d: Dir)
    | PixelVerticalGap(d: Dir) | PixelHorizontalGap(d: Dir) | PixelWidth(d: Dir) | PixelSpread(d: Dir)
    | Blur(d: Dir) | Contrast(d: Dir) | Bright(d: Dir)
    | NextColorRepresentationKind(d: Dir) | NextPixelGeometryKind(d: Dir) | NextScreenCurvatureType(d: Dir)
    | NextLayeringKind(d: Dir) | NextPixelsShadowShapeKind(d: Dir) | NextPixelsShadowHeightFactor(d: Dir)
    | NextInternalResolution(d: Dir) | NextTextureInterpolation(d: Dir) | Lpp(d: Dir)

  /**
   * The shapes of the match arms: a plain assignment; one skipped while the
   * text input has focus; one whose field depends on shift; and the shift key.
   */
  datatype Arm = Plain(f: Field) | Guarded(f: Field) | ByShift(shifted: Field, plain: Field) | ShiftKey

  /** The match of `on_button_action`, split by the shape of the key. */
  function Binding(key: string): Option<Arm>
  {
    if |key| == 1 then CharBinding(key[0]) else NamedBinding(key)
  }

  function CharBinding(c: char): Option<Arm>
  {
    match c
    case ',' => Some(Guarded(NextLayeringKind(Increase)))
    case '.' => Some(Guarded(NextPixelsShadowShapeKind(Increase)))
    case '+' => Some(Guarded(RotateLeft))
    case '-' => Some(Guarded(RotateRight))
    case 'a' => Some(Plain(WalkLeft))
    case 'd' => Some(Plain(WalkRight))
    case 'w' => Some(Plain(WalkForward))
    case 's' => Some(Plain(WalkBackward))
    case 'q' => Some(Plain(WalkUp))
    case 'e' => Some(Plain(WalkDown))
    case '←' | '◀' => Some(Plain(TurnLeft))
    case '→' | '▶' => Some(Plain(TurnRight))
    case '↑' | '▲' => Some(Plain(TurnUp))
    case '↓' | '▼' => Some(Plain(TurnDown))
    case 'f' => Some(ByShift(FilterSpeed(Increase), TranslationSpeed(Increase)))
    case 'r' => Some(ByShift(FilterSpeed(Decrease), TranslationSpeed(Decrease)))
    case 't' => Some(Plain(ResetSpeeds))
    case 'u' => Some(Plain(PixelVerticalGap(Increase)))
    case 'i' => Some(Plain(PixelVerticalGap(Decrease)))
    case 'j' => Some(Plain(PixelHorizontalGap(Increase)))
    case 'k' => Some(Plain(PixelHorizontalGap(Decrease)))
    case 'n' => Some(ByShift(PixelSpread(Increase), PixelWidth(Increase)))
    case 'm' => Some(ByShift(PixelSpread(Decrease), PixelWidth(Decrease)))
    case 'b' => Some(Plain(Blur(Increase)))
    case 'v' => Some(Plain(Blur(Decrease)))
    case '<' => Some(Plain(Contrast(Increase)))
    case 'z' => Some(Plain(Contrast(Decrease)))
    case 'c' => Some(Plain(Bright(Increase)))
    case 'x' => Some(Plain(Bright(Decrease)))
    case 'y' => Some(Plain(NextColorRepresentationKind(Increase)))
    case 'o' => Some(Plain(NextPixelGeometryKind(Increase)))
    case 'l' => Some(Plain(NextScreenCurvatureType(Increase)))
    case 'g' => Some(Plain(Lpp(Increase)))
    case 'h' => Some(Plain(Lpp(Decrease)))
    case ' ' => Some(Plain(Space))
    case _ => None
  }

  function NamedBinding(key: string): Option<Arm>
  {
    match key
    case "input_focused" => Some(Plain(InputFocused))
    case "arrowleft" | "left" => Some(Plain(TurnLeft))
    case "arrowright" | "right" => Some(Plain(TurnRight))
    case "arrowup" | "up" => Some(Plain(TurnUp))
    case "arrowdown" | "down" => Some(Plain(TurnDown))
    case "feature-change-move-speed-inc" => Some(Plain(TranslationSpeed(Increase)))
    case "feature-change-move-speed-dec" => Some(Plain(TranslationSpeed(Decrease)))
    case "feature-change-pixel-speed-inc" => Some(Plain(FilterSpeed(Increase)))
    case "feature-change-pixel-speed-dec" => Some(Plain(FilterSpeed(Decrease)))
    case "reset-speeds" => Some(Plain(ResetSpeeds))
    case "camera-zoom-inc" => Some(Plain(CameraZoom(Increase)))
    case "camera-zoom-dec" => Some(Plain(CameraZoom(Decrease)))
    case "pixel-vertical-gap-inc" => Some(Plain(PixelVerticalGap(Increase)))
    case "pixel-vertical-gap-dec" => Some(Plain(PixelVerticalGap(Decrease)))
    case "pixel-horizontal-gap-inc" => Some(Plain(PixelHorizontalGap(Increase)))
    case "pixel-horizontal-gap-dec" => Some(Plain(PixelHorizontalGap(Decrease)))
    case "pixel-width-inc" => Some(ByShift(PixelSpread(Increase), PixelWidth(Increase)))
    case "pixel-width-dec" => Some(ByShift(PixelSpread(Decrease), PixelWidth(Decrease)))
    case "blur-level-inc" => Some(Plain(Blur(Increase)))
    case "blur-level-dec" => Some(Plain(Blur(Decrease)))
    case "&lt;" | "pixel-contrast-inc" => Some(Plain(Contrast(Increase)))
    case "pixel-contrast-dec" => Some(Plain(Contrast(Decrease)))
    case "pixel-brightness-inc" => Some(Plain(Bright(Increase)))
    case "pixel-brightness-dec" => Some(Plain(Bright(Decrease)))
    case "feature-change-color-representation-inc" => Some(Plain(NextColorRepresentationKind(Increase)))
    case "feature-change-color-representation-dec" => Some(Plain(NextColorRepresentationKind(Decrease)))
    case "feature-change-pixel-geometry-inc" => Some(Plain(NextPixelGeometryKind(Increase)))
    case "feature-change-pixel-geometry-dec" => Some(Plain(NextPixelGeometryKind(Decrease)))
    case "feature-change-screen-curvature-inc" => Some(Plain(NextScreenCurvatureType(Increase)))
    case "feature-change-screen-curvature-dec" => Some(Plain(NextScreenCurvatureType(Decrease)))
    case "feature-change-screen-layering-type-inc" => Some(Plain(NextLayeringKind(Increase)))
    case "feature-change-screen-layering-type-dec" => Some(Plain(NextLayeringKind(Decrease)))
    case "feature-change-pixel-shadow-shape-inc" => Some(Plain(NextPixelsShadowShapeKind(Increase)))
    case "feature-change-pixel-shadow-shape-dec" => Some(Plain(NextPixelsShadowShapeKind(Decrease)))
    case "feature-change-pixel-shadow-height-inc" => Some(Plain(NextPixelsShadowHeightFactor(Increase)))
    case "feature-change-pixel-shadow-height-dec" => Some(Plain(NextPixelsShadowHeightFactor(Decrease)))
    case "feature-internal-resolution-inc" => Some(Plain(NextInternalResolution(Increase)))
    case "feature-internal-resolution-dec" => Some(Plain(NextInternalResolution(Decrease)))
    case "feature-texture-interpolation-inc" => Some(Plain(NextTextureInterpolation(Increase)))
    case "feature-texture-interpolation-dec" => Some(Plain(NextTextureInterpolation(Decrease)))
    case "lines-per-pixel-inc" => Some(Plain(Lpp(Increase)))
    case "lines-per-pixel-dec" => Some(Plain(Lpp(Decrease)))
    case "shift" | "left shift" | "right shift" => Some(ShiftKey)
    case "alt" => Some(Plain(Alt))
    case "space" => Some(Plain(Space))
    case "escape" | "esc" | "feature-quit" => Some(Plain(Esc))
    case "f4" | "feature-capture-framebuffer" => Some(Plain(Screenshot))
    case "reset-camera" => Some(Plain(ResetPosition))
    case "reset-filters" => Some(Plain(ResetFilters))
    case _ => None
  }

  /** The four fields `pixel_width.reset()` and `pixel_spread.reset()` clear. */
  const PixelPairs: set<Field> := {PixelWidth(Increase), PixelWidth(Decrease), PixelSpread(Increase), PixelSpread(Decrease)}

  /** What one arm does to the fields. */
  function ApplyArm(on: set<Field>, arm: Arm, pressed: bool): set<Field>
  {
    match arm
    case Plain(f) => EarlyActionBindings.Assign(on, f, pressed)
    case Guarded(f) => if InputFocused in on then on else EarlyActionBindings.Assign(on, f, pressed)
    case ByShift(shifted, plain) => EarlyActionBindings.Assign(on, if Shift in on then shifted else plain, pressed)
    case ShiftKey => EarlyActionBindings.Assign(on, Shift, pressed) - PixelPairs
  }

  /** `on_button_action`: whether the key matched an arm, and the new fields. */
  function OnButtonActionOf(on: set<Field>, key: string, pressed: bool): (bool, set<Field>)
  {
    match Binding(key)
    case None => (false, on)
    case Some(arm) => (true, ApplyArm(on, arm, pressed))
  }

  /** The one field an arm other than the shift arm writes, given the fields before. */
  function Target(on: set<Field>, arm: Arm): Field
    requires arm != ShiftKey
  {
    match arm
    case Plain(f) => f
    case Guarded(f) => f
    case ByShift(shifted, plain) => if Shift in on then shifted else plain
  }

  // ----- properties -----

  /** The result is `true` exactly for the keys the match names, and an unknown key changes nothing. */
  lemma MatchedIffBound(on: set<Field>, key: string, pressed: bool)
    ensures OnButtonActionOf(on, key, pressed).0 <==> Binding(key).Some?
    ensures Binding(key).None? ==> OnButtonActionOf(on, key, pressed).1 == on
  {
  }

  /** Every arm but the shift arm writes at most its one target field, and writes it to `pressed` unless guarded off. */
  lemma OneFieldPerKey(on: set<Field>, key: string, pressed: bool)
    requires Binding(key).Some? && Binding(key).value != ShiftKey
    ensures var f := Target(on, Binding(key).value);
      var r := OnButtonActionOf(on, key, pressed).1;
      (forall g :: g != f ==> (g in r <==> g in on))
      && (r == on || (f in r <==> pressed))
  {
  }

  /** While the text input has focus, "," "." "+" "-" still match but change nothing. */
  lemma FocusGuard(on: set<Field>, c: char, pressed: bool)
    requires InputFocused in on
    requires c == ',' || c == '.' || c == '+' || c == '-'
    ensures OnButtonActionOf(on, [c], pressed) == (true, on)
  {
    assert [c][0] == c;
  }

  /** Without focus the same keys write their fields. */
  lemma UnfocusedKeys(on: set<Field>, pressed: bool)
    requires InputFocused !in on
    ensures OnButtonActionOf(on, ",", pressed) == (true, EarlyActionBindings.Assign(on, NextLayeringKind(Increase), pressed))
    ensures OnButtonActionOf(on, ".", pressed) == (true, EarlyActionBindings.Assign(on, NextPixelsShadowShapeKind(Increase), pressed))
    ensures OnButtonActionOf(on, "+", pressed) == (true, EarlyActionBindings.Assign(on, RotateLeft, pressed))
    ensures OnButtonActionOf(on, "-", pressed) == (true, EarlyActionBindings.Assign(on, RotateRight, pressed))
  {
  }

  lemma ShiftDependentCharsBound()
    ensures Binding("f") == Some(ByShift(FilterSpeed(Increase), TranslationSpeed(Increase)))
    ensures Binding("r") == Some(ByShift(FilterSpeed(Decrease), TranslationSpeed(Decrease)))
    ensures Binding("n") == Some(ByShift(PixelSpread(Increase), PixelWidth(Increase)))
    ensures Binding("m") == Some(ByShift(PixelSpread(Decrease), PixelWidth(Decrease)))
  {
    assert "f"[0] == 'f' && "r"[0] == 'r' && "n"[0] == 'n' && "m"[0] == 'm';
  }

  /** "f" and "r" drive the filter speed while shift is held, the translation speed otherwise. */
  lemma SpeedKeysFollowShift(on: set<Field>, pressed: bool)
    ensures OnButtonActionOf(on, "f", pressed).1
      == EarlyActionBindings.Assign(on, if Shift in on then FilterSpeed(Increase) else TranslationSpeed(Increase), pressed)
    ensures OnButtonActionOf(on, "r", pressed).1
      == EarlyActionBindings.Assign(on, if Shift in on then FilterSpeed(Decrease) else TranslationSpeed(Decrease), pressed)
  {
    ShiftDependentCharsBound();
  }

  /** "n" and "m" drive the pixel spread while shift is held, the pixel width otherwise. */
  lemma PixelKeysFollowShift(on: set<Field>, pressed: bool)
    ensures OnButtonActionOf(on, "n", pressed).1
      == EarlyActionBindings.Assign(on, if Shift in on then PixelSpread(Increase) else PixelWidth(Increase), pressed)
    ensures OnButtonActionOf(on, "m", pressed).1
      == EarlyActionBindings.Assign(on, if Shift in on then PixelSpread(Decrease) else PixelWidth(Decrease), pressed)
  {
    ShiftDependentCharsBound();
  }

  lemma ShiftKeysBound(key: string)
    requires key == "shift" || key == "left shift" || key == "right shift"
    ensures Binding(key) == Some(ShiftKey)
  {
    if key == "shift" {
      ShiftBound();
    } else if key == "left shift" {
      LeftShiftBound();
    } else {
      RightShiftBound();
    }
  }

  lemma ShiftBound()
    ensures NamedBinding("shift") == Some(ShiftKey)
  {
  }

  lemma LeftShiftBound()
    ensures NamedBinding("left shift") == Some(ShiftKey)
  {
  }

  lemma RightShiftBound()
    ensures NamedBinding("right shift") == Some(ShiftKey)
  {
  }

  /** The shift keys set `shift` and clear both pixel pairs, and touch nothing else. */
  lemma ShiftResetsPixelPairs(on: set<Field>, key: string, pressed: bool)
    requires key == "shift" || key == "left shift" || key == "right shift"
    ensures var (matched, r) := OnButtonActionOf(on, key, pressed);
      matched && (Shift in r <==> pressed) && r * PixelPairs == {}
      && forall g :: g != Shift && g !in PixelPairs ==> (g in r <==> g in on)
  {
    ShiftKeysBound(key);
    assert Shift !in PixelPairs;
  }

  /** The fields of `Input` the dispatch writes. */
  class Input {
    var on: set<Field>

    constructor ()
      ensures on == {}
    {
      on := {};
    }

    method Set(f: Field, pressed: bool)
      modifies this
      ensures on == EarlyActionBindings.Assign(old(on), f, pressed)
    {
      if pressed {
        on := on + {f};
      } else {
        on := on - {f};
      }
    }

    /** One arm of the match, run on the fields. */
    method RunArm(arm: Arm, pressed: bool)
      modifies this
      ensures on == ApplyArm(old(on), arm, pressed)
    {
      match arm {
        case Plain(f) =>
          Set(f, pressed);
        case Guarded(f) =>
          if InputFocused !in on {
            Set(f, pressed);
          }
        case ByShift(shifted, plain) =>
          if Shift in on {
            Set(shifted, pressed);
          } else {
            Set(plain, pressed);
          }
        case ShiftKey =>
          Set(Shift, pressed);
          on := on - PixelPairs;
      }
    }

    /** `on_button_action`: `true` when an arm matched the key. */
    method OnButtonAction(key: string, pressed: bool) returns (matched: bool)
      modifies this
      ensures (matched, on) == OnButtonActionOf(old(on), key, pressed)
    {
      var binding := Binding(key);
      matched := binding.Some?;
      if binding.Some? {
        RunArm(binding.value, pressed);
      }
    }
  }
}
