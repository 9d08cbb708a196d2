/** The renderer the wallpaper service actually installs (the inner
    energy-burst renderer of the service) and its engine's touch handling.
    It has fixed speeds, no settings path and only the sci-fi colours. */
module ServiceRenderer {
  import opened Options
  import opened AndroidColor
  import opened Motion
  import opened BurstField

  const BaseSpeed: real := 0.08
  const WarpSpeed: real := 0.35

  /** `MotionEvent` action codes. */
  const ActionDown: int := 0
  const ActionUp: int := 1
  const ActionMove: int := 2
  const ActionCancel: int := 3

  datatype Renderer = Renderer(
    time: real, baseSpeed: real, warpSpeed: real, currentSpeed: real,
    parallax: Parallax, field: Field)

  /** The invariant of every reachable state: the speeds are the constants,
      the current speed is one of them, parallax is bounded and the field
      is well formed over the sci-fi colours. */
  ghost predicate Valid(s: Renderer) {
    && s.baseSpeed == BaseSpeed && s.warpSpeed == WarpSpeed
    && (s.currentSpeed == BaseSpeed || s.currentSpeed == WarpSpeed)
    && Bounded(s.parallax)
    && WellFormedField(s.field, NumParticles, ScifiColors)
  }

  /** Construction generates the field from the sci-fi colours. */
  function Initial(draws: seq<ParticleDraw>): (s: Renderer)
    requires |draws| == NumParticles && ValidDraws(draws)
    ensures Valid(s) && s.time == 0.0 && s.currentSpeed == BaseSpeed
  {
    GeneratedFieldWellFormed(draws, ScifiColors);
    Renderer(0.0, BaseSpeed, WarpSpeed, BaseSpeed, Still, Generate(draws, ScifiColors))
  }

  /** `setWarp`: switches between the two speeds; nothing else changes. */
  function SetWarp(s: Renderer, active: bool): (r: Renderer)
    ensures active ==> r.currentSpeed == s.warpSpeed
    ensures !active ==> r.currentSpeed == s.baseSpeed
    ensures r.(currentSpeed := s.currentSpeed) == s
    ensures Valid(s) ==> Valid(r)
  {
    s.(currentSpeed := SelectSpeed(active, s.baseSpeed, s.warpSpeed))
  }

  /** `onSensorChanged`: accumulates a gyroscope sample into the clamped
      target; other events change nothing. */
  function OnSensorChanged(s: Renderer, e: Option<SensorEvent>): (r: Renderer)
    requires WellFormed(e)
    ensures r.(parallax := s.parallax) == s
    ensures e.Some? && e.value.sensorType == TypeGyroscope ==>
      InRange(r.parallax.targetX) && InRange(r.parallax.targetY)
    ensures e.None? || e.value.sensorType != TypeGyroscope ==> r == s
    ensures r.parallax == Motion.OnSensorChanged(s.parallax, e)
    ensures Valid(s) ==> Valid(r)
  {
    SensorPreservesBounds(s.parallax, e);
    s.(parallax := Motion.OnSensorChanged(s.parallax, e))
  }

  /** The state part of `onDrawFrame`: time advances by
      `currentSpeed * (1 + 0.15 sin(time/2)) * 0.1` and the parallax eases
      8% towards its target. */
  function OnDrawFrame(s: Renderer, sinHalfTime: real): (r: Renderer)
    requires -1.0 <= sinHalfTime <= 1.0
    ensures r.(time := s.time, parallax := s.parallax) == s
    ensures s.currentSpeed > 0.0 ==> r.time > s.time
    ensures s.currentSpeed >= 0.0 ==> r.time - s.time <= 0.115 * s.currentSpeed
    ensures r.parallax.x - r.parallax.targetX == 0.92 * (s.parallax.x - s.parallax.targetX)
    ensures r.parallax.y - r.parallax.targetY == 0.92 * (s.parallax.y - s.parallax.targetY)
    ensures r.parallax.targetX == s.parallax.targetX && r.parallax.targetY == s.parallax.targetY
    ensures r.parallax == Ease(s.parallax)
    ensures Valid(s) ==> Valid(r)
  {
    EasePreservesBounds(s.parallax);
    s.(time := AdvanceTime(s.time, s.currentSpeed, sinHalfTime), parallax := Ease(s.parallax))
  }

  /** `EnergyEngine.onTouchEvent`: press and move turn warp on, release and
      cancel turn it off; any other action, or no event, leaves the
      renderer as it was. */
  function OnTouchEvent(s: Renderer, action: Option<int>): (r: Renderer)
    ensures action == Some(ActionDown) || action == Some(ActionMove) ==> r == SetWarp(s, true)
    ensures action == Some(ActionUp) || action == Some(ActionCancel) ==> r == SetWarp(s, false)
    ensures action.None? || action.value !in {ActionDown, ActionMove, ActionUp, ActionCancel} ==> r == s
  {
    match action
    case None => s
    case Some(a) =>
      if a == ActionDown || a == ActionMove then SetWarp(s, true)
      else if a == ActionUp || a == ActionCancel then SetWarp(s, false)
      else s
  }

  /** In a valid state, touching down selects 0.35 and lifting selects 0.08. */
  lemma TouchSelectsFixedSpeeds(s: Renderer, action: int)
    requires Valid(s)
    ensures action == ActionDown || action == ActionMove ==> OnTouchEvent(s, Some(action)).currentSpeed == 0.35
    ensures action == ActionUp || action == ActionCancel ==> OnTouchEvent(s, Some(action)).currentSpeed == 0.08
  {
  }

  datatype Event =
    | Touch(action: Option<int>)
    | Sensor(sample: Option<SensorEvent>)
    | DrawFrame(sinHalfTime: real)

  ghost predicate ValidEvent(e: Event) {
    match e
    case Touch(_) => true
    case Sensor(sample) => WellFormed(sample)
    case DrawFrame(sh) => -1.0 <= sh <= 1.0
  }

  function Step(s: Renderer, e: Event): Renderer
    requires ValidEvent(e)
  {
    match e
    case Touch(action) => OnTouchEvent(s, action)
    case Sensor(sample) => OnSensorChanged(s, sample)
    case DrawFrame(sh) => OnDrawFrame(s, sh)
  }

  function Run(s: Renderer, es: seq<Event>): Renderer
    requires forall i :: 0 <= i < |es| ==> ValidEvent(es[i])
    decreases |es|
  {
    if |es| == 0 then s else Run(Step(s, es[0]), es[1..])
  }

  lemma {:induction false} RunKeepsValid(s: Renderer, es: seq<Event>)
    requires Valid(s)
    requires forall i :: 0 <= i < |es| ==> ValidEvent(es[i])
    ensures Valid(Run(s, es))
    decreases |es|
  {
    if |es| > 0 {
      var e := es[0];
      assert Valid(Step(s, e)) by {
        match e
        case Touch(action) =>
        case Sensor(sample) =>
        case DrawFrame(sh) =>
      }
      RunKeepsValid(Step(s, e), es[1..]);
    }
  }

  /** With no settings path, the current speed of this renderer is always
      exactly 0.08 or 0.35, its field keeps the sci-fi colours, and the
      parallax target stays within +-0.6, whatever events arrive. */
  lemma ReachableStates(draws: seq<ParticleDraw>, es: seq<Event>)
    requires |draws| == NumParticles && ValidDraws(draws)
    requires forall i :: 0 <= i < |es| ==> ValidEvent(es[i])
    ensures var r := Run(Initial(draws), es);
      && (r.currentSpeed == 0.08 || r.currentSpeed == 0.35)
      && Bounded(r.parallax)
      && WellFormedField(r.field, NumParticles, ScifiColors)
  {
    RunKeepsValid(Initial(draws), es);
  }
}
