/**
 * The integer and flag rules of display-sim-core's `SimulationUpdater`:
 * the timers, the animation frame cursor, the esc shortcut, the preset
 * switch and promotion in `update_filters`, and the screenshot countdown.
 * Each step is a function on `ResourcesState`, and a method applies it to
 * a `Resources` object.
 */
module SimulationTicker {
  import opened Wrappers
  import opened SimulationState

  /** The parts of `Input` these steps read. */
  datatype TickInput = TickInput(
    now: real,
    escJustPressed: bool,
    screenshotJustReleased: bool,
    resetFilters: bool,
    eventFilterPreset: Option<string>,
    eventLightColor: Option<int>,
    eventBrightnessColor: Option<int>,
    /** Whether `event_viewport_resize` holds a new viewport size. */
    viewportResized: bool,
    /** Whether `update_scaling` changed the scaling method or, under custom scaling, a custom scaling value. */
    scalingChanged: bool,
    /** Whether any of the float, enum and lpp field changers in `update_filters` other than the internal resolution's changed its field. */
    filterControllersChanged: bool,
    /** Whether the internal-resolution changer in `update_filters` changed the resolution. */
    internalResolutionChanged: bool)

  // ---------------------------------------------------------------- timers

  /** `update_timers`: a new second restarts the frame counter. */
  function TimersStep(t: SimulationTimers, now: real): SimulationTimers
  {
    if now - t.lastSecond >= 1000.0 then SimulationTimers(0, now, now)
    else SimulationTimers(t.frameCount + 1, now, t.lastSecond)
  }

  function TimersRun(t: SimulationTimers, times: seq<real>): SimulationTimers
    decreases |times|
  {
    if times == [] then t else TimersRun(TimersStep(t, times[0]), times[1..])
  }

  /**
   * Within one second of `lastSecond` every tick adds one to the frame
   * counter and the second mark stays; the last tick's time is recorded.
   */
  lemma {:induction false} FramesCountedWithinSecond(t: SimulationTimers, times: seq<real>)
    requires forall k :: 0 <= k < |times| ==> times[k] - t.lastSecond < 1000.0
    ensures TimersRun(t, times).frameCount == t.frameCount + |times|
    ensures TimersRun(t, times).lastSecond == t.lastSecond
    ensures times != [] ==> TimersRun(t, times).lastTime == times[|times| - 1]
    decreases |times|
  {
    if times != [] {
      var t1 := TimersStep(t, times[0]);
      assert t1.lastSecond == t.lastSecond;
      FramesCountedWithinSecond(t1, times[1..]);
      if |times| > 1 {
        assert times[1..][|times[1..]| - 1] == times[|times| - 1];
      }
    }
  }

  /** A tick a full second after the mark restarts the count at 0 and moves the mark to now. */
  lemma SecondElapsedResets(t: SimulationTimers, now: real)
    ensures now - t.lastSecond >= 1000.0 <==> TimersStep(t, now).frameCount == 0 && TimersStep(t, now).lastSecond == now
    ensures TimersStep(t, now).lastTime == now
  {
  }

  // ------------------------------------------------------------- animation

  /**
   * `update_animation_buffer`. The source indexes `steps` with the cursor,
   * so it needs the cursor in range.
   */
  function AnimationStep(v: VideoInput, now: real, resetted: bool): (r: VideoInput)
    requires v.currentFrame < |v.steps|
    ensures r.steps == v.steps && r.currentFrame < |r.steps|
  {
    var nextFrameUpdate := v.lastFrameChange + 0.001 * (v.steps[v.currentFrame] as real);
    if now >= nextFrameUpdate then
      var next := if v.currentFrame + 1 >= |v.steps| then 0 else v.currentFrame + 1;
      v.(lastFrameChange := nextFrameUpdate, currentFrame := next,
         needsBufferDataLoad := resetted || v.currentFrame != next)
    else
      v.(needsBufferDataLoad := resetted)
  }

  /**
   * The buffer is reloaded exactly when the state was reset or the frame
   * moved, and the frame moves only to the next one, wrapping at the end.
   */
  lemma AnimationStepReloads(v: VideoInput, now: real, resetted: bool)
    requires v.currentFrame < |v.steps|
    ensures AnimationStep(v, now, resetted).needsBufferDataLoad <==> resetted || AnimationStep(v, now, resetted).currentFrame != v.currentFrame
    ensures AnimationStep(v, now, resetted).currentFrame in {v.currentFrame, (v.currentFrame + 1) % |v.steps|}
  {
  }

  /** A still image, one step long, never moves and reloads only on reset. */
  lemma SingleFrameReloadsOnlyOnReset(v: VideoInput, now: real, resetted: bool)
    requires |v.steps| == 1 && v.currentFrame == 0
    ensures AnimationStep(v, now, resetted).currentFrame == 0
    ensures AnimationStep(v, now, resetted).needsBufferDataLoad == resetted
  {
  }

  // ------------------------------------------------------------ screenshot

  /** `update_screenshot`: a running countdown swallows releases. */
  function ScreenshotStep(t: ScreenshotTrigger, justReleased: bool): ScreenshotTrigger
  {
    if t.delay > 0 then ScreenshotTrigger(false, t.delay - 1)
    else if justReleased then ScreenshotTrigger(true, 120)
    else ScreenshotTrigger(false, t.delay)
  }

  function ScreenshotRun(t: ScreenshotTrigger, releases: seq<bool>): ScreenshotTrigger
    decreases |releases|
  {
    if releases == [] then t else ScreenshotRun(ScreenshotStep(t, releases[0]), releases[1..])
  }

  /** Whether some tick of the run fires the screenshot. */
  predicate TriggeredDuring(t: ScreenshotTrigger, releases: seq<bool>)
    decreases |releases|
  {
    releases != [] && (ScreenshotStep(t, releases[0]).isTriggered || TriggeredDuring(ScreenshotStep(t, releases[0]), releases[1..]))
  }

  /** A release with no countdown running fires at once and starts a 120-tick countdown. */
  lemma ScreenshotFires(t: ScreenshotTrigger)
    requires t.delay <= 0
    ensures ScreenshotStep(t, true) == ScreenshotTrigger(true, 120)
    ensures !ScreenshotStep(t, false).isTriggered
  {
  }

  /** While `delay` ticks remain nothing fires, whatever the input, and the countdown drops by one per tick. */
  lemma {:induction false} ScreenshotCooldown(t: ScreenshotTrigger, releases: seq<bool>)
    requires |releases| <= t.delay
    ensures !TriggeredDuring(t, releases)
    ensures ScreenshotRun(t, releases).delay == t.delay - |releases|
    ensures releases != [] ==> !ScreenshotRun(t, releases).isTriggered
    decreases |releases|
  {
    if releases != [] {
      ScreenshotCooldown(ScreenshotStep(t, releases[0]), releases[1..]);
    }
  }

  /**
   * `is_triggered` holds for exactly one tick: after a firing tick the
   * next 120 ticks do not fire, however often the key is released.
   */
  lemma ScreenshotFiresOnce(t: ScreenshotTrigger, releases: seq<bool>)
    requires t.delay <= 0 && |releases| <= 120
    ensures ScreenshotStep(t, true).isTriggered
    ensures !TriggeredDuring(ScreenshotStep(t, true), releases)
  {
    ScreenshotCooldown(ScreenshotStep(t, true), releases);
  }

  // ---------------------------------------------------------- preset switch

  /** `update_filter_presets_from_event`; an unparsable name is the error that `?` passes on. */
  function PresetsFromEventOf<C>(s: ResourcesState<C>, event: Option<string>): Result<ResourcesState<C>, string>
  {
    match event
    case None => Ok(s)
    case Some(name) =>
      match PresetFromStr(name)
      case Err(e) => Err(e)
      case Ok(preset) =>
        if s.filters.presetKind == preset then Ok(s) else Ok(SwitchOf(s, preset))
  }

  /** Leaving the active preset for another: save a changed Custom setup, restore the camera after the demo. */
  function SwitchOf<C>(s: ResourcesState<C>, preset: FiltersPreset): ResourcesState<C>
  {
    var saved := if s.filters.presetKind == Custom && s.customIsChanged then Some(s.filters) else s.savedFilters;
    var camera := if s.filters.presetKind == DemoFlight1 then s.cameraBackup else s.camera;
    var filters := PresetFactory(s.filters, preset, saved);
    s.(savedFilters := saved, camera := camera, filters := filters,
       demoNeedsInitialization := filters.presetKind == DemoFlight1 || s.demoNeedsInitialization,
       customIsChanged := if filters.presetKind == Custom then false else s.customIsChanged)
  }

  /** No event, or the already-active preset, changes nothing; an unknown name is an error. */
  lemma PresetSwitchNoops<C>(s: ResourcesState<C>, name: string)
    ensures PresetsFromEventOf(s, None) == Ok(s)
    ensures PresetFromStr(name) == Ok(s.filters.presetKind) ==> PresetsFromEventOf(s, Some(name)) == Ok(s)
    ensures PresetsFromEventOf(s, Some(name)).Err? <==> PresetFromStr(name).Err?
  {
  }

  /** The switch keeps the snapshot invariant and lands on the requested preset. */
  lemma PresetSwitchLands<C>(s: ResourcesState<C>, name: string)
    requires SavedIsCustom(s)
    requires PresetFromStr(name).Ok?
    ensures PresetsFromEventOf(s, Some(name)).Ok?
    ensures SavedIsCustom(PresetsFromEventOf(s, Some(name)).value)
    ensures PresetsFromEventOf(s, Some(name)).value.filters.presetKind == PresetFromStr(name).value
  {
    var preset := PresetFromStr(name).value;
    if s.filters.presetKind != preset {
      var saved := if s.filters.presetKind == Custom && s.customIsChanged then Some(s.filters) else s.savedFilters;
      PresetFactoryKindUnderSavedIsCustom(s.(savedFilters := saved), preset);
    }
  }

  /**
   * Leaving a changed Custom setup for another preset saves it; switching
   * back to "custom" restores exactly it and clears the changed flag.
   */
  lemma CustomSnapshotRestored<C>(s: ResourcesState<C>, name: string)
    requires s.filters.presetKind == Custom && s.customIsChanged
    requires PresetFromStr(name).Ok? && PresetFromStr(name).value != Custom
    ensures PresetsFromEventOf(s, Some(name)).Ok?
    ensures PresetsFromEventOf(s, Some(name)).value.savedFilters == Some(s.filters)
    ensures PresetsFromEventOf(PresetsFromEventOf(s, Some(name)).value, Some("custom")).Ok?
    ensures PresetsFromEventOf(PresetsFromEventOf(s, Some(name)).value, Some("custom")).value.filters == s.filters
    ensures !PresetsFromEventOf(PresetsFromEventOf(s, Some(name)).value, Some("custom")).value.customIsChanged
  {
    var preset := PresetFromStr(name).value;
    var s1 := PresetsFromEventOf(s, Some(name)).value;
    PresetFactoryKind(s.filters, preset, Some(s.filters));
    assert s1.filters.presetKind == preset;
    assert PresetFromStr("custom") == Ok(Custom);
  }

  /**
   * Entering the flight demo asks for its initialisation; leaving it puts
   * the backed-up camera back.
   */
  lemma DemoSwitches<C>(s: ResourcesState<C>, name: string)
    requires SavedIsCustom(s)
    requires PresetFromStr(name).Ok? && PresetFromStr(name).value != s.filters.presetKind
    ensures PresetFromStr(name).value == DemoFlight1 ==> PresetsFromEventOf(s, Some(name)).value.demoNeedsInitialization
    ensures s.filters.presetKind == DemoFlight1 ==> PresetsFromEventOf(s, Some(name)).value.camera == s.cameraBackup
    ensures s.filters.presetKind != DemoFlight1 ==> PresetsFromEventOf(s, Some(name)).value.camera == s.camera
  {
    PresetSwitchLands(s, name);
  }

  // ---------------------------------------------------------- colour events

  /**
   * Lines 348-355 of `update_filters` as written: both colour fields are
   * read from the light-colour event.
   */
  function ColorEventsAsWritten(f: Filters, light: Option<int>, brightness: Option<int>): Filters
  {
    var f1 := if light.Some? then f.(lightColor := light.value) else f;
    if light.Some? then f1.(brightnessColor := light.value) else f1
  }

  /** A brightness-colour event is dropped and a light-colour event overwrites the brightness colour too. */
  lemma BrightnessColorEventIgnored(f: Filters, light: int, brightness: int)
    ensures ColorEventsAsWritten(f, None, Some(brightness)) == f
    ensures ColorEventsAsWritten(f, Some(light), None).brightnessColor == light
    ensures brightness != f.brightnessColor ==> ColorEventsAsWritten(f, None, Some(brightness)).brightnessColor != brightness
  {
  }

  /** The evidently intended rule: each colour event sets its own field. */
  function ColorEventsOf(f: Filters, light: Option<int>, brightness: Option<int>): Filters
  {
    var f1 := if light.Some? then f.(lightColor := light.value) else f;
    if brightness.Some? then f1.(brightnessColor := brightness.value) else f1
  }

  /** Each event sets exactly its field and nothing else changes. */
  lemma ColorEventsSetTheirField(f: Filters, light: Option<int>, brightness: Option<int>)
    ensures ColorEventsOf(f, light, brightness).lightColor == light.UnwrapOr(f.lightColor)
    ensures ColorEventsOf(f, light, brightness).brightnessColor == brightness.UnwrapOr(f.brightnessColor)
    ensures ColorEventsOf(f, light, brightness) == f.(lightColor := light.UnwrapOr(f.lightColor), brightnessColor := brightness.UnwrapOr(f.brightnessColor))
  {
  }

  // ------------------------------------------------------------- promotion

  /**
   * The promotion at the end of `update_filters`: a change under a
   * built-in preset other than the demo turns it into Custom, and a change
   * under Custom marks it as changed.
   */
  function PromoteOf<C>(s: ResourcesState<C>, changed: bool): ResourcesState<C>
  {
    if !changed then s
    else if s.filters.presetKind != Custom && s.filters.presetKind != DemoFlight1 then s.(filters := s.filters.(presetKind := Custom))
    else if s.filters.presetKind == Custom then s.(customIsChanged := true)
    else s
  }

  /** After a change the setup is Custom and marked changed, or still the demo. */
  lemma PromotionOutcome<C>(s: ResourcesState<C>, changed: bool)
    ensures !changed ==> PromoteOf(s, changed) == s
    ensures changed && s.filters.presetKind == DemoFlight1 ==> PromoteOf(s, changed) == s
    ensures changed && s.filters.presetKind != DemoFlight1 ==> PromoteOf(s, changed).filters.presetKind == Custom
    ensures changed && s.filters.presetKind == Custom ==> PromoteOf(s, changed).customIsChanged
    ensures PromoteOf(s, changed).filters.(presetKind := s.filters.presetKind) == s.filters
    ensures SavedIsCustom(s) ==> SavedIsCustom(PromoteOf(s, changed))
  {
  }

  /**
   * A built-in preset that is promoted is not yet marked as changed, so
   * leaving it at once does not save a snapshot: only a second change
   * marks it.
   */
  lemma PromotedNotYetChanged<C>(s: ResourcesState<C>)
    requires s.filters.presetKind != Custom && s.filters.presetKind != DemoFlight1 && !s.customIsChanged
    ensures PromoteOf(s, true).filters.presetKind == Custom && !PromoteOf(s, true).customIsChanged
    ensures PromoteOf(PromoteOf(s, true), true).customIsChanged
  {
  }

  /**
   * The modelled rules of `update_filters`: the preset event, then either
   * the reset to defaults (which returns early) or the colour events and
   * the promotion.
   */
  function FiltersOf<C>(s: ResourcesState<C>, input: TickInput): Result<ResourcesState<C>, string>
  {
    match PresetsFromEventOf(s, input.eventFilterPreset)
    case Err(e) => Err(e)
    case Ok(s1) => Ok(FiltersAfterSwitchOf(s1, input))
  }

  /**
   * The part of `update_filters` after the preset switch: the reset, or
   * the colour events, the texture limit handed to the internal
   * resolution, the scaling flag a resolution change clears, and the
   * promotion.
   */
  function FiltersAfterSwitchOf<C>(s: ResourcesState<C>, input: TickInput): ResourcesState<C>
  {
    if input.resetFilters then s.(filters := DefaultFilters)
    else
      var colored := ColorEventsOf(s.filters, input.eventLightColor, input.eventBrightnessColor);
      var limited := colored.(internalResolution := colored.internalResolution.(maxTextureSize := s.video.maxTextureSize));
      var changed := s.(filters := limited, scalingInitialized := s.scalingInitialized && !input.internalResolutionChanged);
      PromoteOf(changed, input.filterControllersChanged || input.internalResolutionChanged)
  }

  /**
   * After the switch only the filters, the changed flag and the scaling
   * flag move; the internal resolution then carries the video's texture
   * limit, and the scaling flag is cleared exactly by a resolution change.
   */
  lemma FiltersAfterSwitchKeeps<C>(s: ResourcesState<C>, input: TickInput)
    ensures FiltersAfterSwitchOf(s, input).video == s.video
    ensures FiltersAfterSwitchOf(s, input).camera == s.camera
    ensures FiltersAfterSwitchOf(s, input).screenshotTrigger == s.screenshotTrigger
    ensures FiltersAfterSwitchOf(s, input).savedFilters == s.savedFilters
    ensures FiltersAfterSwitchOf(s, input).customIsChanged ==> s.customIsChanged || FiltersAfterSwitchOf(s, input).filters.presetKind == Custom
    ensures FiltersAfterSwitchOf(s, input).scalingInitialized == (s.scalingInitialized && (input.resetFilters || !input.internalResolutionChanged))
    ensures !input.resetFilters ==> FiltersAfterSwitchOf(s, input).filters.internalResolution.maxTextureSize == s.video.maxTextureSize
  {
    if !input.resetFilters {
      var colored := ColorEventsOf(s.filters, input.eventLightColor, input.eventBrightnessColor);
      var limited := colored.(internalResolution := colored.internalResolution.(maxTextureSize := s.video.maxTextureSize));
      var changed := s.(filters := limited, scalingInitialized := s.scalingInitialized && !input.internalResolutionChanged);
      var promoted := PromoteOf(changed, input.filterControllersChanged || input.internalResolutionChanged);
      assert FiltersAfterSwitchOf(s, input) == promoted;
      assert promoted == changed.(filters := promoted.filters, customIsChanged := promoted.customIsChanged);
      PromotionOutcome(changed, input.filterControllersChanged || input.internalResolutionChanged);
    }
  }

  /** The preset switch touches neither the video, the timers nor the screenshot. */
  lemma PresetSwitchKeepsTicking<C>(s: ResourcesState<C>, event: Option<string>)
    ensures PresetsFromEventOf(s, event).Ok? ==> PresetsFromEventOf(s, event).value.video == s.video
    ensures PresetsFromEventOf(s, event).Ok? ==> PresetsFromEventOf(s, event).value.timers == s.timers
    ensures PresetsFromEventOf(s, event).Ok? ==> PresetsFromEventOf(s, event).value.screenshotTrigger == s.screenshotTrigger
  {
  }

  /** `update_filters` keeps the snapshot invariant and touches neither the video nor the screenshot. */
  lemma FiltersKeepSavedIsCustom<C>(s: ResourcesState<C>, input: TickInput)
    requires SavedIsCustom(s)
    ensures FiltersOf(s, input).Ok? ==> SavedIsCustom(FiltersOf(s, input).value)
    ensures FiltersOf(s, input).Ok? ==> FiltersOf(s, input).value.video == s.video
    ensures FiltersOf(s, input).Ok? ==> FiltersOf(s, input).value.screenshotTrigger == s.screenshotTrigger
  {
    var switched := PresetsFromEventOf(s, input.eventFilterPreset);
    if switched.Ok? {
      if input.eventFilterPreset.Some? {
        PresetSwitchLands(s, input.eventFilterPreset.value);
      }
      PresetSwitchKeepsTicking(s, input.eventFilterPreset);
      FiltersAfterSwitchKeeps(switched.value, input);
    }
  }

  /** A filter reset restores the default filters; no promotion follows it. */
  lemma ResetFiltersRestoresDefault<C>(s: ResourcesState<C>, input: TickInput)
    requires input.resetFilters && input.eventFilterPreset.None?
    ensures FiltersOf(s, input) == Ok(s.(filters := DefaultFilters))
    ensures FiltersOf(s, input).value.filters.presetKind == CrtApertureGrille1
  {
  }

  // ---------------------------------------------------------------- update

  /** The flag part of `update_demo`: its first frame backs the camera up. */
  function DemoStartOf<C>(s: ResourcesState<C>): ResourcesState<C>
  {
    if s.demoNeedsInitialization then s.(demoNeedsInitialization := false, cameraBackup := s.camera) else s
  }

  /**
   * The end of a frame that was not quit: the screenshot step, the demo
   * step under the flight demo, `update_output_scaling` (which leaves the
   * scaling initialised), then `resetted` and `drawable`.
   */
  function FinishOf<C>(s3: ResourcesState<C>, justReleased: bool): ResourcesState<C>
  {
    var trigger := ScreenshotStep(s3.screenshotTrigger, justReleased);
    var shot := s3.(screenshotTrigger := trigger);
    var demo := if shot.filters.presetKind == DemoFlight1 then DemoStartOf(shot) else shot;
    demo.(scalingInitialized := true, resetted := false, drawable := trigger.isTriggered || trigger.delay <= 0)
  }

  /**
   * The first frame of the flight demo backs up the camera as it was;
   * leaving the demo for another preset puts that camera back.
   */
  lemma DemoBacksUpCamera<C>(s: ResourcesState<C>, justReleased: bool, preset: FiltersPreset)
    requires s.filters.presetKind == DemoFlight1 && s.demoNeedsInitialization
    requires preset != DemoFlight1
    ensures !FinishOf(s, justReleased).demoNeedsInitialization
    ensures FinishOf(s, justReleased).cameraBackup == s.camera
    ensures SwitchOf(FinishOf(s, justReleased), preset).camera == s.camera
  {
  }

  /** The steps of `update` before the esc shortcut: the viewport resize, the timers, the animation. */
  function TickOf<C>(s: ResourcesState<C>, input: TickInput): ResourcesState<C>
    requires s.video.currentFrame < |s.video.steps|
  {
    var s0 := s.(scalingInitialized := s.scalingInitialized && !input.viewportResized);
    var s1 := s0.(timers := TimersStep(s0.timers, input.now));
    s1.(video := AnimationStep(s1.video, input.now, s1.resetted))
  }

  /** The flag rule of `update_scaling`: a scaling change clears `scaling_initialized`. */
  function ScalingOf<C>(s: ResourcesState<C>, changed: bool): ResourcesState<C>
  {
    s.(scalingInitialized := s.scalingInitialized && !changed)
  }

  /**
   * The modelled steps of `update`, in order: the viewport resize, the
   * timers, the animation, the esc shortcut (which sets `quit` and ends the
   * update), the scaling flag, the filters (whose error ends it too), the
   * screenshot, the demo, the output scaling and the closing flags.
   */
  function UpdateOf<C>(s: ResourcesState<C>, input: TickInput): Result<ResourcesState<C>, string>
    requires s.video.currentFrame < |s.video.steps|
  {
    var s2 := TickOf(s, input);
    if input.escJustPressed then Ok(s2.(quit := true))
    else
      match FiltersOf(ScalingOf(s2, input.scalingChanged), input)
      case Err(e) => Err(e)
      case Ok(s3) => Ok(FinishOf(s3, input.screenshotJustReleased))
  }

  /**
   * Esc ends the update after the timers and the animation: it sets `quit`
   * and leaves the filters, the screenshot countdown, the demo and
   * `resetted` as they were; only a viewport resize has cleared the
   * scaling flag.
   */
  lemma EscSkipsTheRest<C>(s: ResourcesState<C>, input: TickInput)
    requires s.video.currentFrame < |s.video.steps|
    requires input.escJustPressed
    ensures UpdateOf(s, input).Ok?
    ensures UpdateOf(s, input).value.quit
    ensures UpdateOf(s, input).value.filters == s.filters
    ensures UpdateOf(s, input).value.screenshotTrigger == s.screenshotTrigger
    ensures UpdateOf(s, input).value.resetted == s.resetted
    ensures UpdateOf(s, input).value.timers == TimersStep(s.timers, input.now)
    ensures UpdateOf(s, input).value.demoNeedsInitialization == s.demoNeedsInitialization
    ensures UpdateOf(s, input).value.scalingInitialized == (s.scalingInitialized && !input.viewportResized)
  {
  }

  /**
   * A completed update keeps the frame cursor in range and the snapshot
   * invariant, clears `resetted`, leaves the scaling initialised and sets
   * `drawable` unless a countdown is running.
   */
  lemma UpdateKeepsInvariants<C>(s: ResourcesState<C>, input: TickInput)
    requires s.video.currentFrame < |s.video.steps|
    requires SavedIsCustom(s)
    ensures UpdateOf(s, input).Ok? ==> UpdateOf(s, input).value.video.currentFrame < |UpdateOf(s, input).value.video.steps|
    ensures UpdateOf(s, input).Ok? ==> SavedIsCustom(UpdateOf(s, input).value)
    ensures UpdateOf(s, input).Ok? && !input.escJustPressed ==>
              !UpdateOf(s, input).value.resetted &&
              (UpdateOf(s, input).value.drawable <==> UpdateOf(s, input).value.screenshotTrigger.isTriggered || UpdateOf(s, input).value.screenshotTrigger.delay <= 0)
    ensures UpdateOf(s, input).Ok? && !input.escJustPressed ==> UpdateOf(s, input).value.scalingInitialized
  {
    var s2 := TickOf(s, input);
    TickKeeps(s, input);
    var s3 := ScalingOf(s2, input.scalingChanged);
    assert SavedIsCustom(s3) && s3.video == s2.video;
    FiltersKeepSavedIsCustom(s3, input);
    if !input.escJustPressed && FiltersOf(s3, input).Ok? {
      FinishKeeps(FiltersOf(s3, input).value, input.screenshotJustReleased);
    }
  }

  /** The steps before esc keep the frame cursor in range and the snapshot. */
  lemma TickKeeps<C>(s: ResourcesState<C>, input: TickInput)
    requires s.video.currentFrame < |s.video.steps|
    ensures TickOf(s, input).video.currentFrame < |TickOf(s, input).video.steps|
    ensures TickOf(s, input).savedFilters == s.savedFilters
  {
  }

  /** The end of a frame keeps the video and the snapshot and settles the closing flags. */
  lemma FinishKeeps<C>(s: ResourcesState<C>, justReleased: bool)
    ensures FinishOf(s, justReleased).video == s.video
    ensures FinishOf(s, justReleased).savedFilters == s.savedFilters
    ensures !FinishOf(s, justReleased).resetted && FinishOf(s, justReleased).scalingInitialized
    ensures FinishOf(s, justReleased).drawable <==> FinishOf(s, justReleased).screenshotTrigger.isTriggered || FinishOf(s, justReleased).screenshotTrigger.delay <= 0
  {
  }

  /** An unparsable preset name makes the update fail, unless esc ended it first. */
  lemma BadPresetFailsUpdate<C>(s: ResourcesState<C>, input: TickInput)
    requires s.video.currentFrame < |s.video.steps|
    requires !input.escJustPressed
    requires input.eventFilterPreset.Some? && PresetFromStr(input.eventFilterPreset.value).Err?
    ensures UpdateOf(s, input) == Err(UnknownPresetMessage)
  {
    PresetRoundTrip(Custom, input.eventFilterPreset.value);
  }

  // --------------------------------------------------------------- methods

  /** `update_timers` applied to the resources. */
  method UpdateTimers<C>(res: Resources<C>, now: real)
    modifies res
    ensures res.timers == TimersStep(old(res.timers), now)
    ensures res.State() == old(res.State()).(timers := res.timers)
  {
    var timers := res.timers;
    var elapsed := now - timers.lastSecond;
    timers := timers.(lastTime := now);
    if elapsed >= 1000.0 {
      timers := timers.(lastSecond := now, frameCount := 0);
    } else {
      timers := timers.(frameCount := timers.frameCount + 1);
    }
    res.timers := timers;
  }

  /** `update_animation_buffer` applied to the resources. */
  method UpdateAnimationBuffer<C>(res: Resources<C>, now: real)
    requires res.video.currentFrame < |res.video.steps|
    modifies res
    ensures res.video == AnimationStep(old(res.video), now, old(res.resetted))
    ensures res.State() == old(res.State()).(video := res.video)
  {
    var video := res.video.(needsBufferDataLoad := res.resetted);
    var nextFrameUpdate := video.lastFrameChange + 0.001 * (video.steps[video.currentFrame] as real);
    if now >= nextFrameUpdate {
      var lastFrame := video.currentFrame;
      var frame := video.currentFrame + 1;
      if frame >= |video.steps| {
        frame := 0;
      }
      video := video.(lastFrameChange := nextFrameUpdate, currentFrame := frame);
      if lastFrame != frame {
        video := video.(needsBufferDataLoad := true);
      }
    }
    res.video := video;
  }

  /** `update_screenshot` applied to the resources. */
  method UpdateScreenshot<C>(res: Resources<C>, justReleased: bool)
    modifies res
    ensures res.screenshotTrigger == ScreenshotStep(old(res.screenshotTrigger), justReleased)
    ensures res.State() == old(res.State()).(screenshotTrigger := res.screenshotTrigger)
  {
    var trigger := res.screenshotTrigger.(isTriggered := false);
    if trigger.delay > 0 {
      trigger := trigger.(delay := trigger.delay - 1);
    } else if justReleased {
      trigger := ScreenshotTrigger(true, 120);
    }
    res.screenshotTrigger := trigger;
  }

  /** `update_filter_presets_from_event` applied to the resources; on error nothing changes. */
  method UpdateFilterPresetsFromEvent<C>(res: Resources<C>, event: Option<string>) returns (r: Result<(), string>)
    modifies res
    ensures PresetsFromEventOf(old(res.State()), event).Ok? ==> r.Ok? && res.State() == PresetsFromEventOf(old(res.State()), event).value
    ensures PresetsFromEventOf(old(res.State()), event).Err? ==> r == Err(PresetsFromEventOf(old(res.State()), event).error) && res.State() == old(res.State())
  {
    if event.None? {
      return Ok(());
    }
    var parsed := PresetFromStr(event.value);
    if parsed.Err? {
      return Err(parsed.error);
    }
    var preset := parsed.value;
    if res.filters.presetKind == preset {
      return Ok(());
    }
    var saved, camera := res.savedFilters, res.camera;
    if res.filters.presetKind == Custom && res.customIsChanged {
      saved := Some(res.filters);
    }
    if res.filters.presetKind == DemoFlight1 {
      camera := res.cameraBackup;
    }
    var filters := PresetFactory(res.filters, preset, saved);
    var needsInitialization, customIsChanged := res.demoNeedsInitialization, res.customIsChanged;
    if filters.presetKind == DemoFlight1 {
      needsInitialization := true;
    }
    if filters.presetKind == Custom {
      customIsChanged := false;
    }
    res.savedFilters, res.camera, res.filters := saved, camera, filters;
    res.demoNeedsInitialization, res.customIsChanged := needsInitialization, customIsChanged;
    return Ok(());
  }

  /** The modelled rules of `update_filters` applied to the resources. */
  method UpdateFilters<C>(res: Resources<C>, input: TickInput) returns (r: Result<(), string>)
    modifies res
    ensures FiltersOf(old(res.State()), input).Ok? ==> r.Ok? && res.State() == FiltersOf(old(res.State()), input).value
    ensures FiltersOf(old(res.State()), input).Err? ==> r == Err(FiltersOf(old(res.State()), input).error) && res.State() == old(res.State())
  {
    var presets := UpdateFilterPresetsFromEvent(res, input.eventFilterPreset);
    if presets.Err? {
      return Err(presets.error);
    }
    if input.resetFilters {
      res.filters := DefaultFilters;
      return Ok(());
    }
    if input.eventLightColor.Some? {
      res.filters := res.filters.(lightColor := input.eventLightColor.value);
    }
    if input.eventBrightnessColor.Some? {
      res.filters := res.filters.(brightnessColor := input.eventBrightnessColor.value);
    }
    res.filters := res.filters.(internalResolution := res.filters.internalResolution.(maxTextureSize := res.video.maxTextureSize));
    if input.internalResolutionChanged {
      res.scalingInitialized := false;
    }
    Promote(res, input.filterControllersChanged || input.internalResolutionChanged);
    return Ok(());
  }

  /** The promotion at the end of `update_filters` applied to the resources. */
  method Promote<C>(res: Resources<C>, changed: bool)
    modifies res
    ensures res.State() == PromoteOf(old(res.State()), changed)
  {
    if changed {
      if res.filters.presetKind != Custom && res.filters.presetKind != DemoFlight1 {
        res.filters := res.filters.(presetKind := Custom);
      } else if res.filters.presetKind == Custom {
        res.customIsChanged := true;
      }
    }
  }

  /** The modelled steps of `update` applied to the resources. */
  method Update<C>(res: Resources<C>, input: TickInput) returns (r: Result<(), string>)
    requires res.video.currentFrame < |res.video.steps|
    modifies res
    ensures UpdateOf(old(res.State()), input).Ok? ==> r.Ok? && res.State() == UpdateOf(old(res.State()), input).value
    ensures UpdateOf(old(res.State()), input).Err? ==>
              r == Err(UpdateOf(old(res.State()), input).error) &&
              res.State() == ScalingOf(TickOf(old(res.State()), input), input.scalingChanged)
  {
    StartFrame(res, input);
    if input.escJustPressed {
      res.quit := true;
      return Ok(());
    }
    UpdateScaling(res, input.scalingChanged);
    ghost var s3 := res.State();
    r := UpdateFilters(res, input);
    if r.Err? {
      return;
    }
    assert res.State() == FiltersOf(s3, input).value;
    FinishFrame(res, input.screenshotJustReleased);
  }

  /** The head of `update`, up to the esc shortcut. */
  method StartFrame<C>(res: Resources<C>, input: TickInput)
    requires res.video.currentFrame < |res.video.steps|
    modifies res
    ensures res.State() == TickOf(old(res.State()), input)
  {
    ghost var s0 := res.State();
    if input.viewportResized {
      res.scalingInitialized := false;
    }
    ghost var sv := res.State();
    assert sv == s0.(scalingInitialized := s0.scalingInitialized && !input.viewportResized);
    UpdateTimers(res, input.now);
    ghost var s1 := res.State();
    assert s1 == sv.(timers := TimersStep(sv.timers, input.now));
    UpdateAnimationBuffer(res, input.now);
  }

  /** The flag rule of `update_scaling` applied to the resources. */
  method UpdateScaling<C>(res: Resources<C>, changed: bool)
    modifies res
    ensures res.State() == ScalingOf(old(res.State()), changed)
  {
    res.scalingInitialized := res.scalingInitialized && !changed;
  }

  /** The flag part of `update_demo` applied to the resources. */
  method UpdateDemo<C>(res: Resources<C>)
    modifies res
    ensures res.State() == DemoStartOf(old(res.State()))
  {
    if res.demoNeedsInitialization {
      res.demoNeedsInitialization := false;
      res.cameraBackup := res.camera;
    }
  }

  /** The tail of `update` once the filters are updated. */
  method FinishFrame<C>(res: Resources<C>, justReleased: bool)
    modifies res
    ensures res.State() == FinishOf(old(res.State()), justReleased)
  {
    UpdateScreenshot(res, justReleased);
    if res.filters.presetKind == DemoFlight1 {
      UpdateDemo(res);
    }
    res.scalingInitialized := true;
    res.resetted := false;
    res.drawable := res.screenshotTrigger.isTriggered || res.screenshotTrigger.delay <= 0;
  }
}
