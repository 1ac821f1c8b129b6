/**
 * The internal-resolution height ladder of display-sim-core: a width table, a
 * step-down against the maximum texture size, and the min/max flags. The core
 * struct (internal_resolution.rs) and the UI controller (ui_controller/
 * internal_resolution.rs) differ only in the first arm of `previous_option`,
 * which the `Crate` parameter selects.
 */
module InternalResolutions {
  import Text
  import Math

  datatype Crate = Core | Ui

  datatype Resolution = Resolution(maxTextureSize: int, width: int, height: int, minimumReached: bool, maximumReached: bool)

  /** The width `set_resolution` gives a height; height 0 is `unreachable!()`. */
  function WidthFor(r: int): int
    requires r != 0
  {
    match r
    case 102 => 160
    case 144 => 160
    case 152 => 160
    case 224 => 256
    case 240 => 320
    case 243 => 320
    case 480 => 640
    case 486 => 640
    case _ => Math.TruncDiv(r * 16, 9)
  }

  /** The height `next_option` moves to. */
  function NextHeight(h: int): int
  {
    if h <= 0 then 1080
    else match h
      case 720 => 1080
      case 486 => 720
      case 480 => 486
      case 243 => 480
      case 240 => 243
      case 224 => 240
      case 160 => 224
      case 152 => 160
      case 144 => 152
      case 102 => 144
      case _ => if 51 <= h <= 101 then 102 else h * 2
  }

  /** The first arm of `previous_option`: heights up to 0 (core) or up to -1 (UI controller) jump to 1080. */
  predicate JumpsToTop(h: int, c: Crate)
  {
    if c == Core then h <= 0 else h <= -1
  }

  /** The height `previous_option` moves to. */
  function PreviousHeight(h: int, c: Crate): int
  {
    if JumpsToTop(h, c) then 1080
    else match h
      case 1080 => 720
      case 720 => 486
      case 486 => 480
      case 480 => 243
      case 243 => 240
      case 240 => 224
      case 224 => 160
      case 160 => 152
      case 152 => 144
      case 144 => 102
      case _ => if 0 <= h <= 4 then h else h / 2
  }

  /** The heights that `previous_option` leaves in place and flags as the minimum. */
  predicate AtMinimum(h: int, c: Crate)
  {
    !JumpsToTop(h, c) && 0 <= h <= 4
  }

  /** The named heights of the ladder. */
  predicate OnLadder(h: int)
  {
    h in {102, 144, 152, 160, 224, 240, 243, 480, 486, 720, 1080}
  }

  function HeightMeasure(h: int): nat
  {
    if h <= 0 then 1081 else h
  }

  function SetMeasure(r: int): nat
  {
    if 1 <= r <= 4 then 0 else 2 * HeightMeasure(r) + 1
  }

  predicate Exceeds(width: int, height: int, max: int)
  {
    width > max || height > max
  }

  /**
   * `set_resolution`: store the height and its width; if either exceeds the
   * maximum texture size, step down with `previous_option` and flag the maximum.
   * The recursion ends only when the maximum admits the widths of heights 1 to 4
   * (1, 3, 5 and 7), hence `maxTextureSize >= 7`.
   */
  function SetResolutionOf(s: Resolution, r: int, c: Crate): (t: Resolution)
    requires s.maxTextureSize >= 7 && r != 0
    decreases SetMeasure(r)
    ensures t.maxTextureSize == s.maxTextureSize
    ensures t.width <= t.maxTextureSize && t.height <= t.maxTextureSize
    ensures t.height != 0 && t.width == WidthFor(t.height)
    ensures r >= 1 ==> 1 <= t.height <= r
    ensures t.minimumReached == s.minimumReached
    ensures t.maximumReached == if Exceeds(WidthFor(r), r, s.maxTextureSize) then true else s.maximumReached
  {
    var t := s.(height := r, width := WidthFor(r));
    if Exceeds(t.width, t.height, t.maxTextureSize) then
      assert r >= 5;
      PreviousOptionOf(t, c).(maximumReached := true)
    else t
  }

  /** `previous_option`. The UI controller may not be at height 0: its `0..=4` arm would call `set_resolution(0)`. */
  function PreviousOptionOf(s: Resolution, c: Crate): (t: Resolution)
    requires s.maxTextureSize >= 7
    requires c == Ui ==> s.height != 0
    decreases 2 * HeightMeasure(s.height)
    ensures t.maxTextureSize == s.maxTextureSize
    ensures t.width <= t.maxTextureSize && t.height <= t.maxTextureSize
    ensures t.height != 0 && t.width == WidthFor(t.height)
    ensures t.minimumReached == (s.minimumReached || AtMinimum(s.height, c))
    ensures t.maximumReached == Exceeds(WidthFor(PreviousHeight(s.height, c)), PreviousHeight(s.height, c), s.maxTextureSize)
  {
    var h := PreviousHeight(s.height, c);
    var s := s.(maximumReached := false, minimumReached := s.minimumReached || AtMinimum(s.height, c));
    SetResolutionOf(s, h, c)
  }

  /** `next_option`. */
  function NextOptionOf(s: Resolution, c: Crate): (t: Resolution)
    requires s.maxTextureSize >= 7
    ensures t.maxTextureSize == s.maxTextureSize
    ensures t.width <= t.maxTextureSize && t.height <= t.maxTextureSize
    ensures t.height >= 1 && t.width == WidthFor(t.height)
    ensures !t.minimumReached
    ensures t.maximumReached == (Exceeds(WidthFor(NextHeight(s.height)), NextHeight(s.height), s.maxTextureSize) || s.maximumReached)
  {
    SetResolutionOf(s.(minimumReached := false), NextHeight(s.height), c)
  }

  /** `Default`: 3840x2160 with no texture limit (`i32::MAX`) and no flag. */
  const DefaultResolution := Resolution(0x7fff_ffff, 3840, 2160, false, false)

  /** `Display`: `"{h}p"` up to 1080, else `"{h / 540}K"`. */
  function Display(s: Resolution): (text: string)
    ensures |text| >= 2
    ensures text[|text| - 1] == (if s.height <= 1080 then 'p' else 'K')
    ensures 0 <= s.height <= 1080 ==>
      Text.IsDigits(text[..|text| - 1]) && Text.ParseNat(text[..|text| - 1]) == s.height
    ensures s.height > 1080 ==>
      Text.IsDigits(text[..|text| - 1]) && Text.ParseNat(text[..|text| - 1]) == s.height / 540
    ensures s.height < 0 ==>
      text[0] == '-' && Text.IsDigits(text[1..|text| - 1]) && Text.ParseNat(text[1..|text| - 1]) == -s.height
  {
    if s.height <= 1080 then
      var t := Text.IntToString(s.height) + "p";
      if s.height >= 0 then
        Text.ParseNatToString(s.height);
        assert t[..|t| - 1] == Text.NatToString(s.height);
        t
      else
        Text.ParseNatToString(-s.height);
        assert t[1..|t| - 1] == Text.NatToString(-s.height);
        t
    else
      var t := Text.IntToString(s.height / 540) + "K";
      Text.ParseNatToString(s.height / 540);
      assert t[..|t| - 1] == Text.NatToString(s.height / 540);
      t
  }

  // ----- properties -----

  /** `next_option` follows the ladder up to 1080, maps 51..101 to 102 and non-positive heights to 1080, and doubles otherwise. */
  lemma NextLadder()
    ensures NextHeight(102) == 144 && NextHeight(144) == 152 && NextHeight(152) == 160 && NextHeight(160) == 224
    ensures NextHeight(224) == 240 && NextHeight(240) == 243 && NextHeight(243) == 480 && NextHeight(480) == 486
    ensures NextHeight(486) == 720 && NextHeight(720) == 1080 && NextHeight(1080) == 2160
    ensures forall h :: 51 <= h <= 101 ==> NextHeight(h) == 102
    ensures forall h :: h <= 0 ==> NextHeight(h) == 1080
  {
  }

  /** Outside the ladder, the 51..101 band and non-positive heights, `next_option` doubles. */
  lemma NextDoubles(h: int)
    requires h >= 1 && !OnLadder(h) && !(51 <= h <= 101)
    ensures NextHeight(h) == 2 * h
  {
  }

  /** `previous_option` walks the ladder back from every named height but the lowest. */
  lemma PreviousInvertsLadder(h: int, c: Crate)
    requires OnLadder(h) && h != 1080
    ensures PreviousHeight(NextHeight(h), c) == h
  {
  }

  /** Heights above 4 that are off the ladder are halved by `previous_option`. */
  lemma PreviousHalves(h: int, c: Crate)
    requires h > 4 && !OnLadder(h)
    ensures PreviousHeight(h, c) == h / 2
  {
  }

  /** The width table of `set_resolution`. */
  lemma WidthTable()
    ensures WidthFor(102) == 160 && WidthFor(144) == 160 && WidthFor(152) == 160 && WidthFor(224) == 256
    ensures WidthFor(240) == 320 && WidthFor(243) == 320 && WidthFor(480) == 640 && WidthFor(486) == 640
    ensures WidthFor(720) == 1280 && WidthFor(1080) == 1920 && WidthFor(2160) == 3840
  {
  }

  /** The core moves height 0 to 1080; the UI controller would keep it at 0 there and call `set_resolution(0)`. */
  lemma ZeroHeightArms()
    ensures PreviousHeight(0, Core) == 1080 && PreviousHeight(0, Ui) == 0 && AtMinimum(0, Ui)
  {
  }

  /** Heights stay at least 1 under both moves, so height 0 is unreachable from the default. */
  predicate Reachable(s: Resolution)
  {
    s.height >= 1 && s.maxTextureSize >= 7 && s.width == WidthFor(s.height)
  }

  lemma DefaultIsReachable()
    ensures DefaultResolution.height != 0
    ensures DefaultResolution.width == WidthFor(DefaultResolution.height)
  {
  }

  lemma MovesKeepHeightPositive(s: Resolution, c: Crate)
    requires Reachable(s)
    ensures Reachable(NextOptionOf(s, c))
    ensures Reachable(PreviousOptionOf(s, c))
  {
  }

  /** The display strings of the default and of the top of the ladder. */
  lemma DisplayExamples()
    ensures Display(DefaultResolution) == "4K"
    ensures Display(DefaultResolution.(height := 1080)) == "1080p"
  {
  }

  // ----- the struct, updated in place -----

  /**
   * The cursor fields of `InternalResolution`; `crate` says which of the two
   * source files' `previous_option` it follows.
   */
  class InternalResolution {
    const crate: Crate
    var maxTextureSize: int
    var width: int
    var height: int
    var minimumReached: bool
    var maximumReached: bool

    function State(): Resolution
      reads this
    {
      Resolution(maxTextureSize, width, height, minimumReached, maximumReached)
    }

    /** `Default`. */
    constructor (c: Crate)
      ensures crate == c && State() == DefaultResolution
    {
      crate := c;
      maxTextureSize, width, height := 0x7fff_ffff, 3840, 2160;
      minimumReached, maximumReached := false, false;
    }

    method SetMaxTextureSize(value: int)
      modifies this
      ensures State() == old(State()).(maxTextureSize := value)
    {
      maxTextureSize := value;
    }

    method SetResolution(r: int)
      requires maxTextureSize >= 7 && r != 0
      modifies this
      decreases SetMeasure(r)
      ensures State() == SetResolutionOf(old(State()), r, crate)
    {
      height := r;
      width := WidthFor(r);
      if width > maxTextureSize || height > maxTextureSize {
        PreviousOption();
        maximumReached := true;
      }
    }

    method NextOption()
      requires maxTextureSize >= 7
      modifies this
      ensures State() == NextOptionOf(old(State()), crate)
    {
      minimumReached := false;
      SetResolution(NextHeight(height));
    }

    method PreviousOption()
      requires maxTextureSize >= 7
      requires crate == Ui ==> height != 0
      modifies this
      decreases 2 * HeightMeasure(height)
      ensures State() == PreviousOptionOf(old(State()), crate)
    {
      maximumReached := false;
      var newHeight := PreviousHeight(height, crate);
      if AtMinimum(height, crate) {
        minimumReached := true;
      }
      SetResolution(newHeight);
    }

    function HasReachedMaximumLimit(): bool
      reads this
    {
      maximumReached
    }

    function HasReachedMinimumLimit(): bool
      reads this
    {
      minimumReached
    }

    function ToString(): (text: string)
      reads this
      ensures text == Display(State())
    {
      if height <= 1080 then Text.IntToString(height) + "p" else Text.IntToString(height / 540) + "K"
    }
  }
}
