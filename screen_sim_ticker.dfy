/**
 * The integer filter rules of screen-sim-core's simulation ticker: the
 * blur level, the lines-per-pixel count and the pixel-shadow cursor. The
 * inputs are the just-pressed edges of the increase and decrease buttons
 * and the value carried by a matching front-end event, if any.
 */
module ScreenSimTicker {
  import opened Wrappers
  import PixelsShadow

  const MaxBlurPasses: nat := 100
  const MinLinesPerPixel: nat := 1
  const MaxLinesPerPixel: nat := 20
  /** `SHADOWS_LEN`. */
  const ShadowsLen: nat := 24

  /**
   * `update_filter_blur`: increase, guarded decrease, then the event
   * value, then the cap at 100. There is no lower clamp: the decrement is
   * skipped at 0, so the `usize` never wraps.
   */
  function BlurOf(blur: nat, increase: bool, decrease: bool, event: Option<nat>): nat
  {
    var b1 := if increase then blur + 1 else blur;
    var b2 := if decrease && b1 > 0 then b1 - 1 else b1;
    var b3 := if event.Some? then event.value else b2;
    if b3 > MaxBlurPasses then MaxBlurPasses else b3
  }

  /**
   * The blur level always ends in [0, 100]; an event sets it outright
   * (capped), and the buttons move it by at most one.
   */
  lemma BlurBounded(blur: nat, increase: bool, decrease: bool, event: Option<nat>)
    ensures BlurOf(blur, increase, decrease, event) <= MaxBlurPasses
    ensures event.Some? ==> BlurOf(blur, increase, decrease, event) == if event.value > MaxBlurPasses then MaxBlurPasses else event.value
    ensures event.None? && blur < MaxBlurPasses ==>
              BlurOf(blur, increase, decrease, event) == if increase == decrease then blur else if increase then blur + 1 else if blur > 0 then blur - 1 else 0
  {
  }

  /** Decreasing at 0 stays at 0, and both buttons at once cancel out. */
  lemma BlurEdges(blur: nat)
    requires blur <= MaxBlurPasses
    ensures BlurOf(0, false, true, None) == 0
    ensures BlurOf(blur, true, true, None) == blur
    ensures BlurOf(blur, false, false, None) == blur
  {
  }

  /**
   * `update_filter_lpp`: increase, guarded decrease, the event value,
   * then the clamp into [1, 20].
   */
  function LppOf(lpp: nat, increase: bool, decrease: bool, event: Option<nat>): nat
  {
    var l1 := if increase then lpp + 1 else lpp;
    var l2 := if decrease && l1 > 0 then l1 - 1 else l1;
    var l3 := if event.Some? then event.value else l2;
    if l3 < MinLinesPerPixel then MinLinesPerPixel
    else if l3 > MaxLinesPerPixel then MaxLinesPerPixel
    else l3
  }

  /** Lines per pixel always end in [1, 20], and an in-range event is taken as it is. */
  lemma LppBounded(lpp: nat, increase: bool, decrease: bool, event: Option<nat>)
    ensures MinLinesPerPixel <= LppOf(lpp, increase, decrease, event) <= MaxLinesPerPixel
    ensures event.Some? && MinLinesPerPixel <= event.value <= MaxLinesPerPixel ==> LppOf(lpp, increase, decrease, event) == event.value
    ensures event.None? && MinLinesPerPixel < lpp < MaxLinesPerPixel ==>
              LppOf(lpp, increase, decrease, event) == if increase == decrease then lpp else if increase then lpp + 1 else lpp - 1
  {
  }

  /**
   * The pixel-shadow cursor: increase wins when both are pressed, and both
   * directions wrap.
   */
  function ShadowOf(shape: nat, increase: bool, decrease: bool): nat
  {
    if !(increase || decrease) then shape
    else if increase then (if shape + 1 >= ShadowsLen then 0 else shape + 1)
    else (if shape == 0 then ShadowsLen else shape) - 1
  }

  /**
   * The cursor stays in [0, 24), wraps 23 to 0 and 0 to 23, and agrees
   * with display-sim-core's `ShadowShape` cursor.
   */
  lemma ShadowWraps(shape: nat, increase: bool, decrease: bool)
    requires shape < ShadowsLen
    ensures ShadowOf(shape, increase, decrease) < ShadowsLen
    ensures ShadowOf(23, true, decrease) == 0 && ShadowOf(0, false, true) == 23
    ensures increase ==> ShadowOf(shape, increase, decrease) == PixelsShadow.ShadowNext(shape)
    ensures !increase && decrease ==> ShadowOf(shape, increase, decrease) == PixelsShadow.ShadowPrevious(shape)
  {
  }

  /** Stepping forward then back, or back then forward, returns to the start. */
  lemma ShadowRoundTrip(shape: nat)
    requires shape < ShadowsLen
    ensures ShadowOf(ShadowOf(shape, true, false), false, true) == shape
    ensures ShadowOf(ShadowOf(shape, false, true), true, false) == shape
  {
    PixelsShadow.ShadowInverse(shape);
  }

  /** The integer fields of screen-sim-core's `Filters`. */
  class Filters {
    var blurPasses: nat
    var linesPerPixel: nat
    var pixelShadowShapeKind: nat

    /** `Default for Filters`. */
    constructor ()
      ensures blurPasses == 1 && linesPerPixel == 2 && pixelShadowShapeKind == 3
    {
      blurPasses, linesPerPixel, pixelShadowShapeKind := 1, 2, 3;
    }

    method UpdateFilterBlur(increase: bool, decrease: bool, event: Option<nat>)
      modifies this
      ensures blurPasses == BlurOf(old(blurPasses), increase, decrease, event)
      ensures linesPerPixel == old(linesPerPixel) && pixelShadowShapeKind == old(pixelShadowShapeKind)
    {
      if increase {
        blurPasses := blurPasses + 1;
      }
      if decrease {
        if blurPasses > 0 {
          blurPasses := blurPasses - 1;
        }
      }
      if event.Some? {
        blurPasses := event.value;
      }
      if blurPasses > MaxBlurPasses {
        blurPasses := MaxBlurPasses;
      }
    }

    method UpdateFilterLpp(increase: bool, decrease: bool, event: Option<nat>)
      modifies this
      ensures linesPerPixel == LppOf(old(linesPerPixel), increase, decrease, event)
      ensures blurPasses == old(blurPasses) && pixelShadowShapeKind == old(pixelShadowShapeKind)
    {
      if increase {
        linesPerPixel := linesPerPixel + 1;
      }
      if decrease && linesPerPixel > 0 {
        linesPerPixel := linesPerPixel - 1;
      }
      if event.Some? {
        linesPerPixel := event.value;
      }
      if linesPerPixel < MinLinesPerPixel {
        linesPerPixel := MinLinesPerPixel;
      } else if linesPerPixel > MaxLinesPerPixel {
        linesPerPixel := MaxLinesPerPixel;
      }
    }

    /** The shadow-shape part of `update_filter_pixel_shape`. */
    method UpdatePixelShadowShape(increase: bool, decrease: bool)
      modifies this
      ensures pixelShadowShapeKind == ShadowOf(old(pixelShadowShapeKind), increase, decrease)
      ensures blurPasses == old(blurPasses) && linesPerPixel == old(linesPerPixel)
    {
      if increase || decrease {
        if increase {
          pixelShadowShapeKind := pixelShadowShapeKind + 1;
          if pixelShadowShapeKind >= ShadowsLen {
            pixelShadowShapeKind := 0;
          }
        } else {
          if pixelShadowShapeKind == 0 {
            pixelShadowShapeKind := ShadowsLen;
          }
          pixelShadowShapeKind := pixelShadowShapeKind - 1;
        }
      }
    }
  }
}
