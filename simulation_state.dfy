/**
 * The filter presets and the resources record of display-sim-core's
 * simulation state. Floating-point filter values are carried as `real`
 * constants: the presets only copy them, they never compute with them.
 * The camera is left abstract as the type parameter `C`.
 */
module SimulationState {
  import opened Wrappers
  import InternalResolutions

  datatype FiltersPreset = Sharp1 | CrtApertureGrille1 | CrtShadowMask1 | CrtShadowMask2 | DemoFlight1 | Custom

  /** `Default for FiltersPreset`. */
  const DefaultPreset := CrtApertureGrille1

  /** `Display for FiltersPreset`: the name used by the front end. */
  function PresetToString(p: FiltersPreset): string
  {
    match p
    case Sharp1 => "sharp-1"
    case CrtApertureGrille1 => "crt-aperture-grille-1"
    case CrtShadowMask1 => "crt-shadow-mask-1"
    case CrtShadowMask2 => "crt-shadow-mask-2"
    case DemoFlight1 => "demo-1"
    case Custom => "custom"
  }

  const UnknownPresetMessage := "Unknown name for a preset"

  /** `FromStr for FiltersPreset`: exact names only. */
  function PresetFromStr(name: string): Result<FiltersPreset, string>
  {
    if name == "sharp-1" then Ok(Sharp1)
    else if name == "crt-aperture-grille-1" then Ok(CrtApertureGrille1)
    else if name == "crt-shadow-mask-1" then Ok(CrtShadowMask1)
    else if name == "crt-shadow-mask-2" then Ok(CrtShadowMask2)
    else if name == "demo-1" then Ok(DemoFlight1)
    else if name == "custom" then Ok(Custom)
    else Err(UnknownPresetMessage)
  }

  /** `get_description`: the label shown in the preset menu. */
  function PresetDescription(p: FiltersPreset): string
  {
    match p
    case Sharp1 => "Sharp 1"
    case CrtApertureGrille1 => "CRT Aperture Grille 1"
    case CrtShadowMask1 => "CRT Shadow Mask 1"
    case CrtShadowMask2 => "CRT Shadow Mask 2"
    case DemoFlight1 => "Flight Demo"
    case Custom => "Custom"
  }

  /**
   * Parsing inverts printing for every preset, a name parses to `p`
   * exactly when it is `p`'s name, and every other name is the one error.
   */
  lemma PresetRoundTrip(p: FiltersPreset, name: string)
    ensures PresetFromStr(PresetToString(p)) == Ok(p)
    ensures PresetFromStr(name) == Ok(p) <==> name == PresetToString(p)
    ensures PresetFromStr(name).Err? <==> forall q: FiltersPreset :: name != PresetToString(q)
    ensures PresetFromStr(name).Err? ==> PresetFromStr(name).error == UnknownPresetMessage
  {
    if PresetFromStr(name).Err? {
      forall q: FiltersPreset ensures name != PresetToString(q) {
        var r := PresetFromStr(PresetToString(q));
      }
    } else {
      var q := PresetFromStr(name).value;
      assert name == PresetToString(q);
    }
  }

  /** No two presets share a description. */
  lemma PresetDescriptionsDistinct(p: FiltersPreset, q: FiltersPreset)
    ensures PresetDescription(p) == PresetDescription(q) <==> p == q
  {
  }

  datatype TextureInterpolation = Nearest | Linear
  datatype PixelsGeometryKind = Squares | Cubes
  datatype ColorChannels = Combined | Overlapping | SplitHorizontal | SplitVertical
  datatype ScreenCurvatureKind = Flat | Curved1 | Curved2 | Curved3 | Pulse

  /** `Filters`; `pixelShadowShapeKind` is the `ShadowShape` value. */
  datatype Filters = Filters(
    internalResolution: InternalResolutions.Resolution,
    textureInterpolation: TextureInterpolation,
    blurPasses: nat,
    verticalLpp: nat,
    horizontalLpp: nat,
    lightColor: int,
    brightnessColor: int,
    extraBright: real,
    extraContrast: real,
    curPixelVerticalGap: real,
    curPixelHorizontalGap: real,
    curPixelSpread: real,
    pixelShadowHeight: real,
    pixelsGeometryKind: PixelsGeometryKind,
    colorChannels: ColorChannels,
    screenCurvatureKind: ScreenCurvatureKind,
    pixelShadowShapeKind: nat,
    backlightPresence: real,
    presetKind: FiltersPreset)

  /** 0x00FF_FFFF, white, the colour every preset starts from. */
  const White: int := 0x00FF_FFFF

  /** `preset_sharp_1`. */
  function PresetSharp1(self: Filters): Filters
  {
    Filters(InternalResolutions.DefaultResolution, Linear, 0, 1, 1, White, White,
            0.0, 1.0, 0.0, 0.0, 0.0, 1.0, Squares, Combined, Flat, 0, 0.0, Sharp1)
  }

  /** `preset_crt_aperture_grille_1`. */
  function PresetCrtApertureGrille1(self: Filters): Filters
  {
    Filters(InternalResolutions.DefaultResolution, Linear, 1, 3, 1, White, White,
            0.0, 1.0, 0.0, 0.0, 0.0, 0.0, Squares, Combined, Flat, 3, 0.5, CrtApertureGrille1)
  }

  /** `preset_crt_shadow_mask_1`. */
  function PresetCrtShadowMask1(self: Filters): Filters
  {
    Filters(InternalResolutions.DefaultResolution, Linear, 2, 2, 2, White, White,
            0.05, 1.2, 0.5, 0.5, 0.0, 1.0, Squares, Combined, Flat, 3, 0.25, CrtShadowMask1)
  }

  /** `preset_crt_shadow_mask_2`. */
  function PresetCrtShadowMask2(self: Filters): Filters
  {
    Filters(InternalResolutions.DefaultResolution, Linear, 2, 1, 2, White, White,
            0.05, 1.2, 1.0, 0.5, 0.0, 1.0, Squares, Combined, Flat, 3, 0.4, CrtShadowMask2)
  }

  /** `preset_demo_1`: the one preset that keeps part of `self`, its light colour. */
  function PresetDemo1(self: Filters): Filters
  {
    Filters(InternalResolutions.DefaultResolution, Linear, 0, 1, 1, self.lightColor, White,
            0.0, 1.0, 0.0, 0.0, 1.0, 1.0, Cubes, Combined, Pulse, 0, 0.2, DemoFlight1)
  }

  /** `preset_custom`: a copy of `self` relabelled as Custom. */
  function PresetCustom(self: Filters): Filters
  {
    self.(presetKind := Custom)
  }

  /** `preset_factory`: a Custom request prefers the saved snapshot. */
  function PresetFactory(self: Filters, preset: FiltersPreset, previousCustom: Option<Filters>): Filters
  {
    match preset
    case Sharp1 => PresetSharp1(self)
    case CrtApertureGrille1 => PresetCrtApertureGrille1(self)
    case CrtShadowMask1 => PresetCrtShadowMask1(self)
    case CrtShadowMask2 => PresetCrtShadowMask2(self)
    case DemoFlight1 => PresetDemo1(self)
    case Custom =>
      match previousCustom
      case Some(filter) => filter
      case None => PresetCustom(self)
  }

  /**
   * `Default for Filters`: the aperture-grille preset applied to a
   * sharp-like starting record.
   */
  const DefaultFilters: Filters :=
    PresetCrtApertureGrille1(Filters(InternalResolutions.DefaultResolution, Linear, 0, 1, 1, White, White,
                                     0.0, 1.0, 0.0, 0.0, 0.0, 1.0, Squares, Combined, Flat, 0, 0.0, Sharp1))

  /** Every built-in preset labels its result with itself. */
  lemma PresetFactoryKind(self: Filters, preset: FiltersPreset, previousCustom: Option<Filters>)
    requires preset != Custom
    ensures PresetFactory(self, preset, previousCustom).presetKind == preset
  {
  }

  /**
   * A Custom request returns the saved snapshot as it is, or, with no
   * snapshot, `self` with only its label changed.
   */
  lemma PresetFactoryCustom(self: Filters, previousCustom: Option<Filters>)
    ensures previousCustom.Some? ==> PresetFactory(self, Custom, previousCustom) == previousCustom.value
    ensures previousCustom.None? ==> PresetFactory(self, Custom, previousCustom) == self.(presetKind := Custom)
    ensures previousCustom.None? ==> PresetFactory(self, Custom, previousCustom).presetKind == Custom
  {
  }

  /**
   * The built-in presets other than the demo ignore `self` and the
   * snapshot entirely; the demo depends on `self` only through its light
   * colour, which it keeps.
   */
  lemma PresetFactoryIgnoresSelf(a: Filters, b: Filters, preset: FiltersPreset, pa: Option<Filters>, pb: Option<Filters>)
    requires preset != Custom
    ensures preset != DemoFlight1 ==> PresetFactory(a, preset, pa) == PresetFactory(b, preset, pb)
    ensures preset == DemoFlight1 ==> PresetFactory(a, preset, pa).lightColor == a.lightColor
    ensures preset == DemoFlight1 && a.lightColor == b.lightColor ==> PresetFactory(a, preset, pa) == PresetFactory(b, preset, pb)
  {
  }

  /** The default filters are the aperture-grille preset, labelled with the default preset. */
  lemma DefaultFiltersAreApertureGrille(self: Filters)
    ensures DefaultFilters == PresetFactory(self, DefaultPreset, None)
    ensures DefaultFilters.presetKind == DefaultPreset
  {
  }

  /** `ScreenshotTrigger`. */
  datatype ScreenshotTrigger = ScreenshotTrigger(isTriggered: bool, delay: int)

  /** `SimulationTimers`; `frame_count` is a `u32` that is reset every second. */
  datatype SimulationTimers = SimulationTimers(frameCount: nat, lastTime: real, lastSecond: real)

  /**
   * The animation part of `VideoInputResources`: each step's delay in
   * milliseconds, the preset requested by the loader and the frame cursor.
   */
  datatype VideoInput = VideoInput(
    steps: seq<nat>,
    maxTextureSize: int,
    preset: Option<FiltersPreset>,
    currentFrame: nat,
    lastFrameChange: real,
    needsBufferDataLoad: bool,
    drawingActivation: bool)

  const DefaultVideoInput := VideoInput([], 0, None, 0, 0.0, false, false)

  /** The modelled fields of `Resources`, as one value. */
  datatype ResourcesState<C> = ResourcesState(
    video: VideoInput,
    camera: C,
    cameraBackup: C,
    demoNeedsInitialization: bool,
    filters: Filters,
    scalingInitialized: bool,
    savedFilters: Option<Filters>,
    customIsChanged: bool,
    timers: SimulationTimers,
    screenshotTrigger: ScreenshotTrigger,
    drawable: bool,
    resetted: bool,
    quit: bool)

  /**
   * What the preset switch relies on: a saved snapshot is only ever
   * taken of Custom filters.
   */
  predicate SavedIsCustom<C>(s: ResourcesState<C>)
  {
    s.savedFilters.Some? ==> s.savedFilters.value.presetKind == Custom
  }

  /** Under that invariant the factory labels its result with the requested preset, Custom included. */
  lemma PresetFactoryKindUnderSavedIsCustom<C>(s: ResourcesState<C>, preset: FiltersPreset)
    requires SavedIsCustom(s)
    ensures PresetFactory(s.filters, preset, s.savedFilters).presetKind == preset
  {
  }

  /** `Resources`. */
  class Resources<C> {
    var video: VideoInput
    var camera: C
    var cameraBackup: C
    var demoNeedsInitialization: bool
    var filters: Filters
    var scalingInitialized: bool
    var savedFilters: Option<Filters>
    var customIsChanged: bool
    var timers: SimulationTimers
    var screenshotTrigger: ScreenshotTrigger
    var drawable: bool
    var resetted: bool
    var quit: bool

    function State(): ResourcesState<C>
      reads this
    {
      ResourcesState(video, camera, cameraBackup, demoNeedsInitialization, filters, scalingInitialized,
                     savedFilters, customIsChanged, timers, screenshotTrigger, drawable, resetted, quit)
    }

    /**
     * `Default for Resources`; the two camera values are built by the
     * camera module, which is not modelled, so they are given.
     */
    constructor (initialCamera: C, initialCameraBackup: C)
      ensures State() == ResourcesState(DefaultVideoInput, initialCamera, initialCameraBackup, true, DefaultFilters, false,
                                        None, false, SimulationTimers(0, 0.0, 0.0), ScreenshotTrigger(false, 0),
                                        false, true, false)
      ensures SavedIsCustom(State())
    {
      video := DefaultVideoInput;
      camera, cameraBackup := initialCamera, initialCameraBackup;
      demoNeedsInitialization := true;
      filters := DefaultFilters;
      scalingInitialized := false;
      savedFilters := None;
      customIsChanged := false;
      timers := SimulationTimers(0, 0.0, 0.0);
      screenshotTrigger := ScreenshotTrigger(false, 0);
      drawable := false;
      resetted := true;
      quit := false;
    }

    /**
     * `initialize`: clears the quit flag, marks the state as reset and the
     * scaling as pending, applies the loader's preset without a snapshot,
     * restarts the timers at `now` and takes the video input.
     */
    method Initialize(videoInput: VideoInput, now: real)
      modifies this
      ensures State() == old(State()).(
        quit := false, resetted := true, scalingInitialized := false,
        filters := if videoInput.preset.Some? then PresetFactory(old(filters), videoInput.preset.value, None) else old(filters),
        timers := SimulationTimers(0, now, now),
        video := videoInput)
      ensures videoInput.preset.Some? ==> filters.presetKind == videoInput.preset.value
      ensures old(SavedIsCustom(State())) ==> SavedIsCustom(State())
    {
      quit := false;
      resetted := true;
      scalingInitialized := false;
      if videoInput.preset.Some? {
        filters := PresetFactory(filters, videoInput.preset.value, None);
      }
      timers := SimulationTimers(0, now, now);
      video := videoInput;
    }
  }
}
