/**
 * The first string-dispatch `on_button_action` (the top-level crate): each
 * key names one arm that assigns the pressed state to a boolean field of
 * `Input`; a key no arm names but that contains "+" is split on "+" and each
 * fragment is dispatched in turn. The boolean fields are modelled as the set
 * of fields that are true.
 */
module EarlyActionBindings {
  import opened Wrappers

  /** The boolean fields of `Input` the dispatch writes (a button's `input` flag is the button's field). */
  datatype Field =
    | InputFocused | Shift | Alt | Space | Esc | Screenshot | ResetPosition | ResetFilters | ResetSpeeds
    | NextLayeringKind | TogglePixelsShadowKind | RotateLeft | RotateRight
    | WalkLeft | WalkRight | WalkForward | WalkBackward | WalkUp | WalkDown
    | TurnLeft | TurnRight | TurnUp | TurnDown | SpeedUp | SpeedDown
    | IncreaseCameraZoom | DecreaseCameraZoom | IncreasePixelScaleX | DecreasePixelScaleX
    | IncreasePixelScaleY | DecreasePixelScaleY | IncreasePixelGap | DecreasePixelGap
    | IncreaseBlur | DecreaseBlur | IncreaseContrast | DecreaseContrast | IncreaseBright | DecreaseBright
    | NextColorRepresentationKind | NextPixelGeometryKind | ShowingPixelsPulse | IncreaseLpp | DecreaseLpp

  /**
   * The shapes of the match arms: a plain assignment; one skipped while the
   * text input has focus; and the pixel-speed keys, which also assign `shift`.
   */
  datatype Arm = Plain(f: Field) | Guarded(f: Field) | WithShift(f: Field)

  /** The named arms of `on_button_action`, split by the shape of the key. */
  function Binding(key: string): Option<Arm>
  {
    if |key| == 1 then CharBinding(key[0]) else NamedBinding(key)
  }

  function CharBinding(c: char): Option<Arm>
  {
    match c
    case ',' => Some(Guarded(NextLayeringKind))
    case '.' => Some(Guarded(TogglePixelsShadowKind))
    case '+' => Some(Guarded(RotateLeft))
    case '-' => Some(Guarded(RotateRight))
    case 'a' => Some(Plain(WalkLeft))
    case 'd' => Some(Plain(WalkRight))
    case 'w' => Some(Plain(WalkForward))
    case 's' => Some(Plain(WalkBackward))
    case 'q' => Some(Plain(WalkUp))
    case 'e' => Some(Plain(WalkDown))
    case '←' | '◀' => Some(Plain(TurnLeft))
    case '→' | '▶' => Some(Plain(TurnRight))
    case '↑' | '▲' => Some(Plain(TurnUp))
    case '↓' | '▼' => Some(Plain(TurnDown))
    case 'f' => Some(Plain(SpeedUp))
    case 'r' => Some(Plain(SpeedDown))
    case 't' => Some(Plain(ResetSpeeds))
    case 'u' => Some(Plain(IncreasePixelScaleX))
    case 'i' => Some(Plain(DecreasePixelScaleX))
    case 'j' => Some(Plain(IncreasePixelScaleY))
    case 'k' => Some(Plain(DecreasePixelScaleY))
    case 'n' => Some(Plain(IncreasePixelGap))
    case 'm' => Some(Plain(DecreasePixelGap))
    case 'b' => Some(Plain(IncreaseBlur))
    case 'v' => Some(Plain(DecreaseBlur))
    case '<' => Some(Plain(IncreaseContrast))
    case 'z' => Some(Plain(DecreaseContrast))
    case 'c' => Some(Plain(IncreaseBright))
    case 'x' => Some(Plain(DecreaseBright))
    case 'y' => Some(Plain(NextColorRepresentationKind))
    case 'o' => Some(Plain(NextPixelGeometryKind))
    case 'l' => Some(Plain(ShowingPixelsPulse))
    case 'g' => Some(Plain(IncreaseLpp))
    case 'h' => Some(Plain(DecreaseLpp))
    case ' ' => Some(Plain(Space))
    case _ => None
  }

  function NamedBinding(key: string): Option<Arm>
  {
    match key
    case "feature-change-screen-layering-type" => Some(Plain(NextLayeringKind))
    case "feature-change-pixel-shadow" => Some(Plain(TogglePixelsShadowKind))
    case "input_focused" => Some(Plain(InputFocused))
    case "arrowleft" => Some(Plain(TurnLeft))
    case "arrowright" => Some(Plain(TurnRight))
    case "arrowup" => Some(Plain(TurnUp))
    case "arrowdown" => Some(Plain(TurnDown))
    case "feature-change-move-speed-inc" => Some(Plain(SpeedUp))
    case "feature-change-move-speed-dec" => Some(Plain(SpeedDown))
    case "feature-change-pixel-speed-inc" => Some(WithShift(SpeedUp))
    case "feature-change-pixel-speed-dec" => Some(WithShift(SpeedDown))
    case "reset-speeds" => Some(Plain(ResetSpeeds))
    case "camera-zoom-inc" => Some(Plain(IncreaseCameraZoom))
    case "camera-zoom-dec" => Some(Plain(DecreaseCameraZoom))
    case "pixel-vertical-gap-inc" => Some(Plain(IncreasePixelScaleX))
    case "pixel-vertical-gap-dec" => Some(Plain(DecreasePixelScaleX))
    case "pixel-horizontal-gap-inc" => Some(Plain(IncreasePixelScaleY))
    case "pixel-horizontal-gap-dec" => Some(Plain(DecreasePixelScaleY))
    case "pixel-width-inc" => Some(Plain(IncreasePixelGap))
    case "pixel-width-dec" => Some(Plain(DecreasePixelGap))
    case "blur-level-inc" => Some(Plain(IncreaseBlur))
    case "bluer-level-dec" => Some(Plain(DecreaseBlur))
    case "&lt;" | "pixel-contrast-inc" => Some(Plain(IncreaseContrast))
    case "pixel-contrast-dec" => Some(Plain(DecreaseContrast))
    case "pixel-brightness-inc" => Some(Plain(IncreaseBright))
    case "pixel-brightness-dec" => Some(Plain(DecreaseBright))
    case "feature-change-color-representation" => Some(Plain(NextColorRepresentationKind))
    case "feature-change-pixel-geometry" => Some(Plain(NextPixelGeometryKind))
    case "feature-change-screen-curvature" => Some(Plain(ShowingPixelsPulse))
    case "lines-per-pixel-inc" => Some(Plain(IncreaseLpp))
    case "lines-per-pixel-dec" => Some(Plain(DecreaseLpp))
    case "shift" => Some(Plain(Shift))
    case "alt" => Some(Plain(Alt))
    case "space" => Some(Plain(Space))
    case "escape" | "esc" | "feature-quit" => Some(Plain(Esc))
    case "f4" => Some(Plain(Screenshot))
    case "reset-camera" => Some(Plain(ResetPosition))
    case "reset-filters" => Some(Plain(ResetFilters))
    case _ => None
  }

  /** `field = pressed` on the set of true fields; screen-sim-core's binder shares it. */
  function Assign<F(==,!new)>(on: set<F>, f: F, pressed: bool): (r: set<F>)
    ensures f in r <==> pressed
    ensures forall g :: g != f ==> (g in r <==> g in on)
  {
    if pressed then on + {f} else on - {f}
  }

  /** What one arm does to the fields. */
  function ApplyArm(on: set<Field>, arm: Arm, pressed: bool): set<Field>
  {
    match arm
    case Plain(f) => Assign(on, f, pressed)
    case Guarded(f) => if InputFocused in on then on else Assign(on, f, pressed)
    case WithShift(f) => Assign(Assign(on, f, pressed), Shift, pressed)
  }

  // ----- str::split("+") -----

  /** `s.split("+")`: the pieces between the "+" signs, empty ones included. */
  function Split(s: string): (r: seq<string>)
    ensures |r| >= 1
    ensures forall i :: 0 <= i < |r| ==> '+' !in r[i]
    decreases |s|
  {
    if s == [] then [[]]
    else
      var rest := Split(s[1..]);
      if s[0] == '+' then [[]] + rest else [[s[0]] + rest[0]] + rest[1..]
  }

  /** The fragments put back together, with "+" between consecutive ones. */
  function Join(frags: seq<string>): string
    requires |frags| >= 1
    decreases |frags|
  {
    if |frags| == 1 then frags[0] else frags[0] + "+" + Join(frags[1..])
  }

  /** Splitting loses nothing: the fragments joined by "+" are the key. */
  lemma {:induction false} JoinSplit(s: string)
    ensures Join(Split(s)) == s
    decreases |s|
  {
    if s != [] {
      JoinSplit(s[1..]);
      var rest := Split(s[1..]);
      if s[0] == '+' {
        assert ([[]] + rest)[1..] == rest;
        assert s == [] + "+" + s[1..];
      } else {
        var r := [[s[0]] + rest[0]] + rest[1..];
        if |rest| == 1 {
          assert s == [s[0]] + s[1..];
        } else {
          assert r[1..] == rest[1..];
          assert Join(rest) == rest[0] + "+" + Join(rest[1..]);
          assert s == [s[0]] + s[1..];
        }
      }
    }
  }

  /** And splitting a join of "+"-free fragments gives them back. */
  lemma {:induction false} SplitJoin(frags: seq<string>)
    requires |frags| >= 1
    requires forall i :: 0 <= i < |frags| ==> '+' !in frags[i]
    ensures Split(Join(frags)) == frags
    decreases |frags|
  {
    if |frags| == 1 {
      SplitPlusFree(frags[0]);
    } else {
      SplitJoin(frags[1..]);
      SplitPrefix(frags[0], Join(frags[1..]));
      assert [frags[0]] + frags[1..] == frags;
    }
  }

  /** A "+"-free string is one fragment. */
  lemma {:induction false} SplitPlusFree(s: string)
    requires '+' !in s
    ensures Split(s) == [s]
    decreases |s|
  {
    if s != [] {
      assert s[0] != '+' && '+' !in s[1..];
      SplitPlusFree(s[1..]);
      assert [s[0]] + s[1..] == s;
    }
  }

  /** A "+"-free prefix before a "+" is the first fragment, and the rest is split on its own. */
  lemma {:induction false} SplitPrefix(a: string, b: string)
    requires '+' !in a
    ensures Split(a + "+" + b) == [a] + Split(b)
    decreases |a|
  {
    if a == [] {
      assert a + "+" + b == ['+'] + b;
      assert (['+'] + b)[1..] == b;
    } else {
      assert (a + "+" + b)[1..] == a[1..] + "+" + b;
      assert a[0] != '+' && '+' !in a[1..];
      SplitPrefix(a[1..], b);
      assert [a[0]] + a[1..] == a;
    }
  }

  // ----- on_button_action -----

  /** `on_button_action`: a named key runs its arm; an unnamed key containing "+" runs each fragment in order. */
  function Apply(on: set<Field>, key: string, pressed: bool): set<Field>
    decreases if '+' in key then 1 else 0, 0
  {
    match Binding(key)
    case Some(arm) => ApplyArm(on, arm, pressed)
    case None => if '+' in key then ApplyEach(on, Split(key), pressed) else on
  }

  /** The fragments dispatched one after another, the first one first. */
  function ApplyEach(on: set<Field>, frags: seq<string>, pressed: bool): set<Field>
    requires forall i :: 0 <= i < |frags| ==> '+' !in frags[i]
    decreases 0, |frags| + 1
  {
    if frags == [] then on
    else
      var n := |frags| - 1;
      Apply(ApplyEach(on, frags[..n], pressed), frags[n], pressed)
  }

  // ----- properties -----

  /** The recursion stops after one level: a fragment has no "+", so it is dispatched by its arm or ignored. */
  lemma FragmentsDoNotSplit(on: set<Field>, key: string, pressed: bool)
    requires '+' !in key
    ensures Binding(key).None? ==> Apply(on, key, pressed) == on
    ensures Binding(key).Some? ==> Apply(on, key, pressed) == ApplyArm(on, Binding(key).value, pressed)
  {
  }

  /** A named key is never split, even when it contains "+": "+" itself rotates left. */
  lemma PlusAloneRotates(on: set<Field>, pressed: bool)
    ensures Apply(on, "+", pressed) == if InputFocused in on then on else Assign(on, RotateLeft, pressed)
  {
  }

  /** While the text input has focus, "," "." "+" "-" change nothing. */
  lemma FocusGuard(on: set<Field>, c: char, pressed: bool)
    requires InputFocused in on
    requires c == ',' || c == '.' || c == '+' || c == '-'
    ensures Apply(on, [c], pressed) == on
  {
    assert [c][0] == c;
  }

  lemma PixelSpeedKeysBound()
    ensures Binding("feature-change-pixel-speed-inc") == Some(WithShift(SpeedUp))
    ensures Binding("feature-change-pixel-speed-dec") == Some(WithShift(SpeedDown))
  {
  }

  /** An arm that also assigns `shift` writes its field and `shift`, and nothing else. */
  lemma WithShiftWritesTwo(on: set<Field>, f: Field, pressed: bool)
    ensures var r := ApplyArm(on, WithShift(f), pressed);
      (f in r <==> pressed) && (Shift in r <==> pressed)
      && forall g :: g != f && g != Shift ==> (g in r <==> g in on)
  {
  }

  /** The pixel-speed keys assign the speed button and `shift` alike. */
  lemma PixelSpeedSetsShift(on: set<Field>, pressed: bool)
    ensures var r := Apply(on, "feature-change-pixel-speed-inc", pressed);
      (SpeedUp in r <==> pressed) && (Shift in r <==> pressed)
      && forall g :: g != SpeedUp && g != Shift ==> (g in r <==> g in on)
    ensures var r := Apply(on, "feature-change-pixel-speed-dec", pressed);
      (SpeedDown in r <==> pressed) && (Shift in r <==> pressed)
      && forall g :: g != SpeedDown && g != Shift ==> (g in r <==> g in on)
  {
    PixelSpeedKeysBound();
    WithShiftWritesTwo(on, SpeedUp, pressed);
    WithShiftWritesTwo(on, SpeedDown, pressed);
  }

  lemma SplitShiftF()
    ensures Split("shift+f") == ["shift", "f"]
  {
    assert "shift+f" == "shift" + "+" + "f";
    SplitPrefix("shift", "f");
    SplitPlusFree("f");
  }

  lemma ShiftPlusFUnnamed()
    ensures Binding("shift+f") == None && '+' in "shift+f"
  {
    assert "shift+f"[5] == '+';
  }

  /** Two fragments run one after the other. */
  lemma ApplyTwo(on: set<Field>, a: string, b: string, pressed: bool)
    requires '+' !in a && '+' !in b
    ensures ApplyEach(on, [a, b], pressed) == Apply(Apply(on, a, pressed), b, pressed)
  {
    var none: seq<string> := [];
    assert [a, b][..1] == [a] && [a][..0] == none;
    assert ApplyEach(on, [a], pressed) == Apply(ApplyEach(on, none, pressed), a, pressed);
  }

  lemma ShiftBound()
    ensures NamedBinding("shift") == Some(Plain(Shift))
  {
  }

  lemma ShiftRunsShift(on: set<Field>, pressed: bool)
    ensures Apply(on, "shift", pressed) == Assign(on, Shift, pressed)
  {
    ShiftBound();
  }

  lemma FRunsSpeedUp(on: set<Field>, pressed: bool)
    ensures Apply(on, "f", pressed) == Assign(on, SpeedUp, pressed)
  {
  }

  /** "shift+f" is not a named key: it is split and runs "shift", then "f". */
  lemma ShiftPlusF(on: set<Field>, pressed: bool)
    ensures Apply(on, "shift+f", pressed) == Assign(Assign(on, Shift, pressed), SpeedUp, pressed)
  {
    ShiftPlusFUnnamed();
    SplitShiftF();
    ApplyTwo(on, "shift", "f", pressed);
    ShiftRunsShift(on, pressed);
    FRunsSpeedUp(Assign(on, Shift, pressed), pressed);
  }

  /** The fields of `Input` the dispatch writes. */
  class Input {
    var on: set<Field>

    constructor ()
      ensures on == {}
    {
      on := {};
    }

    method Set(f: Field, pressed: bool)
      modifies this
      ensures on == Assign(old(on), f, pressed)
    {
      if pressed {
        on := on + {f};
      } else {
        on := on - {f};
      }
    }

    /** One arm of the match, run on the fields. */
    method RunArm(arm: Arm, pressed: bool)
      modifies this
      ensures on == ApplyArm(old(on), arm, pressed)
    {
      match arm {
        case Plain(f) =>
          Set(f, pressed);
        case Guarded(f) =>
          if InputFocused !in on {
            Set(f, pressed);
          }
        case WithShift(f) =>
          Set(f, pressed);
          Set(Shift, pressed);
      }
    }

    /** `on_button_action`; the log line for an ignored key is left out. */
    method OnButtonAction(key: string, pressed: bool)
      modifies this
      ensures on == Apply(old(on), key, pressed)
      decreases if '+' in key then 1 else 0
    {
      var binding := Binding(key);
      match binding {
        case Some(arm) =>
          RunArm(arm, pressed);
        case None =>
          if '+' in key {
            var frags := Split(key);
            ghost var before := on;
            var i := 0;
            while i < |frags|
              invariant i <= |frags|
              invariant on == ApplyEach(before, frags[..i], pressed)
            {
              assert frags[..i + 1][..i] == frags[..i];
              OnButtonAction(frags[i], pressed);
              i := i + 1;
            }
            assert frags[..i] == frags;
          }
      }
    }
  }
}
