/** The stand-alone energy-burst renderer (the one the preview screen
    shows): the burst simulation state with its lazily applied settings. */
module EnergyBurst {
  import opened Options
  import opened AndroidColor
  import opened Motion
  import opened BurstField

  const DefaultBaseSpeed: real := 0.08
  const DefaultWarpSpeed: real := 0.35
  const CustomTheme: string := "custom"
  const DefaultTheme: string := "scifi"

  /** Defaults of the five `custom_color_<k>` preferences. */
  const DefaultCustomColors: seq<Int32> := [ColorWhite, ColorCyan, ColorMagenta, ColorYellow, ColorBlue]

  /** The stored preferences the renderer reads: `burst_speed`, `theme` and
      `custom_color_0` .. `custom_color_4`; absent keys are absent here. */
  datatype Prefs = Prefs(burstSpeed: Option<real>, theme: Option<string>, customColors: map<int, Int32>)

  /** The renderer's simulation state. */
  datatype Renderer = Renderer(
    time: real,
    userSpeedMultiplier: real,
    baseSpeed: real,
    warpSpeed: real,
    currentSpeed: real,
    theme: string,
    customPalette: seq<Int32>,
    settingsDirty: bool,
    parallax: Parallax,
    field: Field)

  /** The colours particles are drawn from: the custom palette under the
      "custom" theme, the sci-fi colours under any other theme. */
  function ActivePalette(theme: string, customPalette: seq<Int32>): (r: seq<Int32>)
    requires |customPalette| == PaletteSize
    ensures |r| == PaletteSize
    ensures theme == CustomTheme ==> r == customPalette
    ensures theme != CustomTheme ==> r == ScifiColors
  {
    if theme == CustomTheme then customPalette else ScifiColors
  }

  /** The state invariant every reachable renderer keeps. */
  ghost predicate Valid(s: Renderer) {
    && |s.customPalette| == PaletteSize
    && s.baseSpeed == DefaultBaseSpeed * s.userSpeedMultiplier
    && s.warpSpeed == DefaultWarpSpeed * s.userSpeedMultiplier
    && (s.currentSpeed == s.baseSpeed || s.currentSpeed == s.warpSpeed)
    && Bounded(s.parallax)
    && WellFormedField(s.field, NumParticles, ActivePalette(s.theme, s.customPalette))
  }

  ghost predicate Draws(draws: seq<ParticleDraw>) {
    |draws| == NumParticles && ValidDraws(draws)
  }

  /** Construction: default speeds, sci-fi theme, an all-white custom
      palette, settings marked dirty, a freshly generated field. */
  function Initial(draws: seq<ParticleDraw>): (s: Renderer)
    requires Draws(draws)
    ensures Valid(s) && s.settingsDirty && s.time == 0.0
    ensures s.currentSpeed == s.baseSpeed == DefaultBaseSpeed
  {
    var palette := [ColorWhite, ColorWhite, ColorWhite, ColorWhite, ColorWhite];
    GeneratedFieldWellFormed(draws, ScifiColors);
    Renderer(0.0, 1.0, DefaultBaseSpeed, DefaultWarpSpeed, DefaultBaseSpeed,
             DefaultTheme, palette, true, Still, Generate(draws, ScifiColors))
  }

  /** `onSharedPreferenceChanged`: only marks the settings dirty. */
  function OnSharedPreferenceChanged(s: Renderer): (r: Renderer)
    ensures r.settingsDirty
    ensures r.(settingsDirty := s.settingsDirty) == s
  {
    s.(settingsDirty := true)
  }

  /** The stored custom colour `k`, or its default. */
  function CustomColor(prefs: Prefs, k: nat): Int32
    requires k < PaletteSize
  {
    if k in prefs.customColors then prefs.customColors[k] else DefaultCustomColors[k]
  }

  /** `applySettings`: reads the preferences, rescales both speeds, drops
      any active warp, installs theme and palette, regenerates the field and
      clears the dirty flag. Time and parallax are untouched. */
  function ApplySettings(s: Renderer, prefs: Prefs, draws: seq<ParticleDraw>): (r: Renderer)
    requires Draws(draws)
    ensures !r.settingsDirty
    ensures r.userSpeedMultiplier == prefs.burstSpeed.GetOr(1.0)
    ensures r.baseSpeed == DefaultBaseSpeed * r.userSpeedMultiplier
    ensures r.warpSpeed == DefaultWarpSpeed * r.userSpeedMultiplier
    ensures r.currentSpeed == r.baseSpeed
    ensures r.theme == prefs.theme.GetOr(DefaultTheme)
    ensures |r.customPalette| == PaletteSize
    ensures forall k :: 0 <= k < PaletteSize ==>
      r.customPalette[k] == (if k in prefs.customColors then prefs.customColors[k] else DefaultCustomColors[k])
    ensures r.time == s.time && r.parallax == s.parallax
    ensures Bounded(s.parallax) ==> Valid(r)
  {
    var m := prefs.burstSpeed.GetOr(1.0);
    var theme := prefs.theme.GetOr(DefaultTheme);
    var palette := [CustomColor(prefs, 0), CustomColor(prefs, 1), CustomColor(prefs, 2),
                    CustomColor(prefs, 3), CustomColor(prefs, 4)];
    var active := ActivePalette(theme, palette);
    GeneratedFieldWellFormed(draws, active);
    Renderer(s.time, m, DefaultBaseSpeed * m, DefaultWarpSpeed * m, DefaultBaseSpeed * m,
             theme, palette, false, s.parallax, Generate(draws, active))
  }

  /** `setWarp`: switches between base and warp speed; nothing else changes. */
  function SetWarp(s: Renderer, active: bool): (r: Renderer)
    ensures active ==> r.currentSpeed == s.warpSpeed
    ensures !active ==> r.currentSpeed == s.baseSpeed
    ensures r.(currentSpeed := s.currentSpeed) == s
    ensures Valid(s) ==> Valid(r)
  {
    s.(currentSpeed := SelectSpeed(active, s.baseSpeed, s.warpSpeed))
  }

  /** Setting the same warp state twice is the same as setting it once. */
  lemma SetWarpIdempotent(s: Renderer, active: bool)
    ensures SetWarp(SetWarp(s, active), active) == SetWarp(s, active)
  {
  }

  /** Releasing warp restores exactly the base speed, whatever came before. */
  lemma WarpOffRestoresBase(s: Renderer)
    ensures SetWarp(SetWarp(s, true), false) == s.(currentSpeed := s.baseSpeed)
    ensures SetWarp(SetWarp(s, true), false).currentSpeed == s.baseSpeed
  {
  }

  /** `onSensorChanged`: only the parallax target moves. */
  function OnSensorChanged(s: Renderer, e: Option<SensorEvent>): (r: Renderer)
    requires WellFormed(e)
    ensures r.(parallax := s.parallax) == s
    ensures r.parallax.x == s.parallax.x && r.parallax.y == s.parallax.y
    ensures e.Some? && e.value.sensorType == TypeGyroscope ==>
      InRange(r.parallax.targetX) && InRange(r.parallax.targetY)
    ensures e.None? || e.value.sensorType != TypeGyroscope ==> r == s
    ensures r.parallax == Motion.OnSensorChanged(s.parallax, e)
    ensures Valid(s) ==> Valid(r)
  {
    SensorPreservesBounds(s.parallax, e);
    s.(parallax := Motion.OnSensorChanged(s.parallax, e))
  }

  /** The uniforms a frame hands to the shader. */
  datatype Uniforms = Uniforms(time: real, pulse: real, parallaxX: real, parallaxY: real)

  datatype Frame = Frame(state: Renderer, uniforms: Uniforms)

  /** The state part of `onDrawFrame`: pending settings are applied first,
      then time advances at the (possibly new) current speed and the
      parallax eases towards its target. `sinHalfTime` is `sin(time * 0.5)`
      of the time before the advance, `sinDoubleTime` is `sin(time * 2)` of
      the time after it. */
  function OnDrawFrame(s: Renderer, prefs: Prefs, draws: seq<ParticleDraw>,
                       sinHalfTime: real, sinDoubleTime: real): (f: Frame)
    requires Draws(draws)
    requires -1.0 <= sinHalfTime <= 1.0 && -1.0 <= sinDoubleTime <= 1.0
    ensures !f.state.settingsDirty
    ensures f.state.currentSpeed > 0.0 ==> f.state.time > s.time
    ensures 0.0 <= f.uniforms.pulse <= 1.0
    ensures f.uniforms.time == f.state.time
    ensures f.uniforms.parallaxX == f.state.parallax.x && f.uniforms.parallaxY == f.state.parallax.y
    ensures f.state.parallax.x - f.state.parallax.targetX == 0.92 * (s.parallax.x - s.parallax.targetX)
    ensures f.state.parallax.y - f.state.parallax.targetY == 0.92 * (s.parallax.y - s.parallax.targetY)
    ensures f.state.parallax.targetX == s.parallax.targetX && f.state.parallax.targetY == s.parallax.targetY
    ensures f.state.parallax == Ease(s.parallax)
    ensures Valid(s) ==> Valid(f.state)
  {
    var applied := if s.settingsDirty then ApplySettings(s, prefs, draws) else s;
    var t := AdvanceTime(applied.time, applied.currentSpeed, sinHalfTime);
    EasePreservesBounds(applied.parallax);
    var next := applied.(time := t, parallax := Ease(applied.parallax), settingsDirty := false);
    Frame(next, Uniforms(t, Pulse(sinDoubleTime), next.parallax.x, next.parallax.y))
  }

  /** A preference change takes effect on the next frame, before its time
      step: the new base speed drives the advance and any warp is dropped. */
  lemma DirtyFrameAppliesSettingsFirst(s: Renderer, prefs: Prefs, draws: seq<ParticleDraw>,
                                       sinHalfTime: real, sinDoubleTime: real)
    requires Draws(draws) && -1.0 <= sinHalfTime <= 1.0 && -1.0 <= sinDoubleTime <= 1.0
    ensures var m := prefs.burstSpeed.GetOr(1.0);
      var r := OnDrawFrame(OnSharedPreferenceChanged(s), prefs, draws, sinHalfTime, sinDoubleTime).state;
      && r.baseSpeed == 0.08 * m && r.warpSpeed == 0.35 * m
      && r.currentSpeed == r.baseSpeed
      && r.time == AdvanceTime(s.time, 0.08 * m, sinHalfTime)
      && r.field == Generate(draws, ActivePalette(r.theme, r.customPalette))
  {
  }

  /** Without a pending change a frame touches only time and parallax. */
  lemma CleanFrameKeepsConfiguration(s: Renderer, prefs: Prefs, draws: seq<ParticleDraw>,
                                     sinHalfTime: real, sinDoubleTime: real)
    requires Draws(draws) && -1.0 <= sinHalfTime <= 1.0 && -1.0 <= sinDoubleTime <= 1.0
    requires !s.settingsDirty
    ensures var r := OnDrawFrame(s, prefs, draws, sinHalfTime, sinDoubleTime).state;
      r.(time := s.time, parallax := s.parallax) == s
  {
  }

  /** Host events the renderer reacts to. */
  datatype Event =
    | PreferenceChanged
    | Warp(active: bool)
    | Sensor(sample: Option<SensorEvent>)
    | DrawFrame(prefs: Prefs, draws: seq<ParticleDraw>, sinHalfTime: real, sinDoubleTime: real)

  ghost predicate ValidEvent(e: Event) {
    match e
    case PreferenceChanged => true
    case Warp(_) => true
    case Sensor(sample) => WellFormed(sample)
    case DrawFrame(_, draws, sh, sd) => Draws(draws) && -1.0 <= sh <= 1.0 && -1.0 <= sd <= 1.0
  }

  function Step(s: Renderer, e: Event): Renderer
    requires ValidEvent(e)
  {
    match e
    case PreferenceChanged => OnSharedPreferenceChanged(s)
    case Warp(active) => SetWarp(s, active)
    case Sensor(sample) => OnSensorChanged(s, sample)
    case DrawFrame(prefs, draws, sh, sd) => OnDrawFrame(s, prefs, draws, sh, sd).state
  }

  function Run(s: Renderer, es: seq<Event>): Renderer
    requires forall i :: 0 <= i < |es| ==> ValidEvent(es[i])
    decreases |es|
  {
    if |es| == 0 then s else Run(Step(s, es[0]), es[1..])
  }

  /** Whatever events arrive, the renderer stays valid: the current speed
      is the base or the warp speed of the active multiplier, the parallax
      and its target stay within +-0.6, and every particle in the field is
      well formed for the active palette. */
  lemma {:induction false} RunKeepsValid(s: Renderer, es: seq<Event>)
    requires Valid(s)
    requires forall i :: 0 <= i < |es| ==> ValidEvent(es[i])
    ensures Valid(Run(s, es))
    decreases |es|
  {
    if |es| > 0 {
      var e := es[0];
      var next := Step(s, e);
      assert Valid(next) by {
        match e
        case PreferenceChanged => assert next.(settingsDirty := s.settingsDirty) == s;
        case Warp(a) =>
        case Sensor(sample) =>
        case DrawFrame(prefs, draws, sh, sd) =>
      }
      RunKeepsValid(next, es[1..]);
    }
  }

  /** From construction on, the speed is always the base or warp speed. */
  lemma ReachableSpeeds(draws: seq<ParticleDraw>, es: seq<Event>)
    requires Draws(draws)
    requires forall i :: 0 <= i < |es| ==> ValidEvent(es[i])
    ensures var r := Run(Initial(draws), es);
      r.currentSpeed == r.baseSpeed || r.currentSpeed == r.warpSpeed
  {
    RunKeepsValid(Initial(draws), es);
  }
}
