/** The per-frame clock and the tilt input shared by both energy-burst
    renderers: gyroscope accumulation into a clamped parallax target, the
    eased parallax that follows it, warp selection and the time advance. */
module Motion {
  import opened Options
  import opened RealFacts

  /** Gyroscope gain applied to each angular-rate sample. */
  const Gain: real := 0.12
  /** Each parallax target component is clamped to [-Limit, Limit]. */
  const Limit: real := 0.6
  /** Fraction of the remaining gap the parallax covers per frame. */
  const Easing: real := 0.08
  /** `Sensor.TYPE_GYROSCOPE`. */
  const TypeGyroscope: int := 4

  /** Kotlin's `coerceIn(lo, hi)`. */
  function Clamp(v: real, lo: real, hi: real): (r: real)
    requires lo <= hi
    ensures lo <= r <= hi
    ensures lo <= v <= hi ==> r == v
    ensures v < lo ==> r == lo
    ensures hi < v ==> r == hi
  {
    if v < lo then lo else if hi < v then hi else v
  }

  /** Current and target parallax. */
  datatype Parallax = Parallax(x: real, y: real, targetX: real, targetY: real)

  const Still := Parallax(0.0, 0.0, 0.0, 0.0)

  ghost predicate InRange(v: real) { -Limit <= v <= Limit }

  /** Both the eased parallax and its target lie within the clamp range. */
  ghost predicate Bounded(p: Parallax) {
    InRange(p.x) && InRange(p.y) && InRange(p.targetX) && InRange(p.targetY)
  }

  /** A sensor sample: its type and the readings `values[0]`, `values[1]`. */
  datatype SensorEvent = SensorEvent(sensorType: int, values: seq<real>)

  /** A gyroscope sample carries at least the two readings the handler uses. */
  ghost predicate WellFormed(e: Option<SensorEvent>) {
    e.Some? && e.value.sensorType == TypeGyroscope ==> |e.value.values| >= 2
  }

  /** `onSensorChanged`: a gyroscope sample adds `values[1]` (to x) and
      `values[0]` (to y), scaled by the gain, to the target and clamps it;
      any other event, or none, leaves the state as it was. */
  function OnSensorChanged(p: Parallax, e: Option<SensorEvent>): (r: Parallax)
    requires WellFormed(e)
    ensures r.x == p.x && r.y == p.y
    ensures e.Some? && e.value.sensorType == TypeGyroscope ==>
      InRange(r.targetX) && InRange(r.targetY)
    ensures e.None? || e.value.sensorType != TypeGyroscope ==> r == p
    ensures e.Some? && e.value.sensorType == TypeGyroscope ==>
      && (InRange(p.targetX + e.value.values[1] * Gain) ==> r.targetX == p.targetX + e.value.values[1] * Gain)
      && (InRange(p.targetY + e.value.values[0] * Gain) ==> r.targetY == p.targetY + e.value.values[0] * Gain)
    ensures e.Some? && e.value.sensorType == TypeGyroscope ==>
      && (Limit < p.targetX + e.value.values[1] * Gain ==> r.targetX == Limit)
      && (p.targetX + e.value.values[1] * Gain < -Limit ==> r.targetX == -Limit)
      && (Limit < p.targetY + e.value.values[0] * Gain ==> r.targetY == Limit)
      && (p.targetY + e.value.values[0] * Gain < -Limit ==> r.targetY == -Limit)
  {
    match e
    case None => p
    case Some(ev) =>
      if ev.sensorType == TypeGyroscope then
        p.(targetX := Clamp(p.targetX + ev.values[1] * Gain, -Limit, Limit),
           targetY := Clamp(p.targetY + ev.values[0] * Gain, -Limit, Limit))
      else p
  }

  /** Gyroscope samples delivered one after another. */
  function Feed(p: Parallax, es: seq<SensorEvent>): (r: Parallax)
    requires forall i :: 0 <= i < |es| ==> WellFormed(Some(es[i]))
    ensures r.x == p.x && r.y == p.y
    ensures InRange(p.targetX) && InRange(p.targetY) ==> InRange(r.targetX) && InRange(r.targetY)
    decreases |es|
  {
    if |es| == 0 then p else Feed(OnSensorChanged(p, Some(es[0])), es[1..])
  }

  function Min(a: real, b: real): real { if a <= b then a else b }

  /** `v` read in the direction of the tilt: as is when `up`, negated otherwise. */
  function Toward(v: real, up: bool): real { if up then v else -v }

  /** A gyroscope sample whose two readings each push their axis in the
      given direction by at least `rate`. */
  ghost predicate Tilts(e: SensorEvent, upX: bool, upY: bool, rate: real) {
    && e.sensorType == TypeGyroscope && |e.values| >= 2
    && Toward(e.values[1], upX) >= rate && Toward(e.values[0], upY) >= rate
  }

  /** One tilting sample moves each target by at least `rate * Gain` in its
      direction, or up to the clamp. */
  lemma TiltStep(p: Parallax, e: SensorEvent, upX: bool, upY: bool, rate: real)
    requires Tilts(e, upX, upY, rate)
    ensures var r := OnSensorChanged(p, Some(e));
      && Toward(r.targetX, upX) >= Min(Limit, Toward(p.targetX, upX) + rate * Gain)
      && Toward(r.targetY, upY) >= Min(Limit, Toward(p.targetY, upY) + rate * Gain)
  {
  }

  /** `n` advances of `d` each, added up. */
  function Repeat(n: nat, d: real): real
  {
    if n == 0 then 0.0 else d + Repeat(n - 1, d)
  }

  lemma {:induction false} RepeatIsProduct(n: nat, d: real)
    ensures Repeat(n, d) == (n as real) * d
  {
    if n > 0 {
      var m: nat := n - 1;
      RepeatIsProduct(m, d);
      var k := m as real;
      assert n as real == k + 1.0;
      Distribute(k, d, Repeat(m, d), n as real);
    }
  }

  lemma Distribute(k: real, d: real, kd: real, n: real)
    requires kd == k * d && n == k + 1.0
    ensures n * d == d + kd
  {
  }

  /** After `n` tilting samples each target has moved by at least
      `n * rate * Gain` in its direction, or up to the clamp. */
  lemma {:induction false} FeedApproaches(p: Parallax, es: seq<SensorEvent>, upX: bool, upY: bool, rate: real)
    requires rate >= 0.0
    requires forall i :: 0 <= i < |es| ==> Tilts(es[i], upX, upY, rate)
    ensures forall i :: 0 <= i < |es| ==> WellFormed(Some(es[i]))
    ensures var r := Feed(p, es);
      && Toward(r.targetX, upX) >= Min(Limit, Toward(p.targetX, upX) + Repeat(|es|, rate * Gain))
      && Toward(r.targetY, upY) >= Min(Limit, Toward(p.targetY, upY) + Repeat(|es|, rate * Gain))
    decreases |es|
  {
    assert forall i :: 0 <= i < |es| ==> WellFormed(Some(es[i])) by {
      forall i | 0 <= i < |es| ensures WellFormed(Some(es[i])) {
        assert Tilts(es[i], upX, upY, rate);
      }
    }
    if |es| > 0 {
      var q := OnSensorChanged(p, Some(es[0]));
      var r := Feed(q, es[1..]);
      assert Feed(p, es) == r;
      TiltStep(p, es[0], upX, upY, rate);
      assert forall i :: 0 <= i < |es[1..]| ==> Tilts(es[1..][i], upX, upY, rate) by {
        forall i | 0 <= i < |es[1..]| ensures Tilts(es[1..][i], upX, upY, rate) {
          assert es[1..][i] == es[i + 1];
        }
      }
      FeedApproaches(q, es[1..], upX, upY, rate);
      var d := rate * Gain;
      var kd := Repeat(|es| - 1, d);
      RepeatNonNegative(|es| - 1, d);
      MinChain(Toward(p.targetX, upX), Toward(q.targetX, upX), Toward(r.targetX, upX), d, kd);
      MinChain(Toward(p.targetY, upY), Toward(q.targetY, upY), Toward(r.targetY, upY), d, kd);
    }
  }

  lemma {:induction false} RepeatNonNegative(n: nat, d: real)
    requires d >= 0.0
    ensures Repeat(n, d) >= 0.0
  {
    if n > 0 {
      RepeatNonNegative(n - 1, d);
    }
  }

  /** Two bounded advances towards the clamp add up. */
  lemma MinChain(a: real, b: real, c: real, d: real, kd: real)
    requires kd >= 0.0
    requires b >= Min(Limit, a + d) && c >= Min(Limit, b + kd)
    ensures c >= Min(Limit, a + (d + kd))
  {
  }

  /** Sustained tilt saturates: enough samples pushing an axis one way leave
      its target exactly at that side's clamp, on both axes and in either
      direction, from any in-range start. */
  lemma SustainedTiltSaturates(p: Parallax, es: seq<SensorEvent>, upX: bool, upY: bool, rate: real)
    requires InRange(p.targetX) && InRange(p.targetY)
    requires rate >= 0.0 && (|es| as real) * (rate * Gain) >= 2.0 * Limit
    requires forall i :: 0 <= i < |es| ==> Tilts(es[i], upX, upY, rate)
    ensures forall i :: 0 <= i < |es| ==> WellFormed(Some(es[i]))
    ensures Feed(p, es).targetX == (if upX then Limit else -Limit)
    ensures Feed(p, es).targetY == (if upY then Limit else -Limit)
  {
    var push := Repeat(|es|, rate * Gain);
    assert push >= 2.0 * Limit by {
      EnoughPush(|es|, rate * Gain);
    }
    FeedApproaches(p, es, upX, upY, rate);
    SaturatedAxis(p.targetX, Feed(p, es).targetX, upX, push);
    SaturatedAxis(p.targetY, Feed(p, es).targetY, upY, push);
  }

  /** One axis of `SustainedTiltSaturates`: an in-range target pushed at
      least `total >= 2 * Limit` towards one side, and still in range, sits
      at that side's clamp. */
  lemma SaturatedAxis(a: real, c: real, up: bool, total: real)
    requires InRange(a) && InRange(c) && total >= 2.0 * Limit
    requires Toward(c, up) >= Min(Limit, Toward(a, up) + total)
    ensures c == (if up then Limit else -Limit)
  {
    ReachesClamp(Toward(a, up), Toward(c, up), total);
  }

  lemma EnoughPush(n: nat, d: real)
    requires (n as real) * d >= 2.0 * Limit
    ensures Repeat(n, d) >= 2.0 * Limit
  {
    RepeatIsProduct(n, d);
  }

  /** Moving at least `total >= 2 * Limit` from inside the range, or up to
      the clamp, ends at the clamp. */
  lemma ReachesClamp(a: real, c: real, total: real)
    requires -Limit <= a && c <= Limit && total >= 2.0 * Limit
    requires c >= Min(Limit, a + total)
    ensures c == Limit
  {
  }

  /** The per-frame parallax update: each component moves 8% of the way
      towards its target; the target is unchanged. */
  function Ease(p: Parallax): (r: Parallax)
    ensures r.targetX == p.targetX && r.targetY == p.targetY
    ensures r.x - r.targetX == (1.0 - Easing) * (p.x - p.targetX)
    ensures r.y - r.targetY == (1.0 - Easing) * (p.y - p.targetY)
  {
    p.(x := p.x + (p.targetX - p.x) * Easing, y := p.y + (p.targetY - p.y) * Easing)
  }

  /** Easing never leaves the clamp range: the new value lies between the
      old value and the target. */
  lemma EasePreservesBounds(p: Parallax)
    ensures Bounded(p) ==> Bounded(Ease(p))
  {
    var r := Ease(p);
    assert r.x == 0.92 * p.x + 0.08 * p.targetX;
    assert r.y == 0.92 * p.y + 0.08 * p.targetY;
  }

  /** A sensor event keeps a bounded state bounded. */
  lemma SensorPreservesBounds(p: Parallax, e: Option<SensorEvent>)
    requires WellFormed(e)
    ensures Bounded(p) ==> Bounded(OnSensorChanged(p, e))
  {
  }

  /** `Pow(b, n)` is b to the n-th power. */
  function Pow(b: real, n: nat): real
  {
    if n == 0 then 1.0 else b * Pow(b, n - 1)
  }

  /** `n` frames of easing towards a fixed target. */
  function EaseFrames(p: Parallax, n: nat): (r: Parallax)
    ensures r.targetX == p.targetX && r.targetY == p.targetY
    decreases n
  {
    if n == 0 then p else EaseFrames(Ease(p), n - 1)
  }

  /** After `n` frames the gap to the target is the initial gap times 0.92^n. */
  lemma {:induction false} EaseFramesGap(p: Parallax, n: nat)
    ensures EaseFrames(p, n).x - p.targetX == Pow(1.0 - Easing, n) * (p.x - p.targetX)
    ensures EaseFrames(p, n).y - p.targetY == Pow(1.0 - Easing, n) * (p.y - p.targetY)
    decreases n
  {
    if n > 0 {
      EaseFramesGap(Ease(p), n - 1);
      var k := Pow(1.0 - Easing, n - 1);
      assert EaseFrames(p, n).x - p.targetX == k * (0.92 * (p.x - p.targetX));
      assert EaseFrames(p, n).y - p.targetY == k * (0.92 * (p.y - p.targetY));
    }
  }

  /** Bernoulli's inequality for the easing factor:
      0.92^n * (1 + 0.08 n) <= 1, so 0.92^n <= 1 / (1 + 0.08 n). */
  lemma {:induction false} DecayBound(n: nat)
    ensures 0.0 < Pow(1.0 - Easing, n) <= 1.0
    ensures Pow(1.0 - Easing, n) * (1.0 + Easing * n as real) <= 1.0
  {
    if n > 0 {
      DecayBound(n - 1);
      var q := Pow(1.0 - Easing, n - 1);
      var m := (n - 1) as real;
      assert Pow(1.0 - Easing, n) == 0.92 * q;
      calc {
        Pow(1.0 - Easing, n) * (1.0 + Easing * n as real);
        0.92 * (q * (1.0 + 0.08 * m) + 0.08 * q);
      <= 0.92 * (1.0 + 0.08 * q);
      <= 0.92 * 1.08;
      <= 1.0;
      }
    }
  }

  /** Number of frames after which the parallax is within `eps` of a
      constant target, for every starting gap of at most `gap`. */
  function SettleFrames(gap: real, eps: real): nat
    requires gap >= 0.0 && eps > 0.0
  {
    (gap / (Easing * eps)).Floor as nat + 1
  }

  /** Convergence: with a constant target, after `SettleFrames` frames (and
      every later frame) both parallax components are within `eps` of it. */
  lemma Converges(p: Parallax, eps: real, n: nat)
    requires eps > 0.0
    requires n >= SettleFrames(Abs(p.x - p.targetX) + Abs(p.y - p.targetY), eps)
    ensures Abs(EaseFrames(p, n).x - p.targetX) <= eps
    ensures Abs(EaseFrames(p, n).y - p.targetY) <= eps
  {
    SettleFramesEnough(Abs(p.x - p.targetX) + Abs(p.y - p.targetY), eps, n);
    ConvergesWithin(p, eps, n, n as real * (Easing * eps));
  }

  /** Convergence once `n` frames exceed the initial gap over 0.08 eps
      (`bound` names that product). */
  lemma ConvergesWithin(p: Parallax, eps: real, n: nat, bound: real)
    requires eps > 0.0 && bound == n as real * (Easing * eps)
    requires Abs(p.x - p.targetX) + Abs(p.y - p.targetY) < bound
    ensures Abs(EaseFrames(p, n).x - p.targetX) <= eps
    ensures Abs(EaseFrames(p, n).y - p.targetY) <= eps
  {
    var gap := Abs(p.x - p.targetX) + Abs(p.y - p.targetY);
    EaseFramesGap(p, n);
    AxisConverges(p.x - p.targetX, EaseFrames(p, n).x - p.targetX, gap, eps, n, bound);
    AxisConverges(p.y - p.targetY, EaseFrames(p, n).y - p.targetY, gap, eps, n, bound);
  }

  /** One component of `ConvergesWithin`: a gap `g` decayed over `n` frames. */
  lemma AxisConverges(g: real, r: real, gap: real, eps: real, n: nat, bound: real)
    requires r == Pow(1.0 - Easing, n) * g
    requires bound == n as real * (Easing * eps)
    requires Abs(g) <= gap && gap < bound && eps > 0.0
    ensures Abs(r) <= eps
  {
    DecayBound(n);
    ShrunkGap(Pow(1.0 - Easing, n), g, r, gap, eps, n);
  }

  lemma SettleFramesEnough(gap: real, eps: real, n: nat)
    requires gap >= 0.0 && eps > 0.0 && n >= SettleFrames(gap, eps)
    ensures gap < n as real * (Easing * eps)
  {
    var d := Easing * eps;
    assert n as real > gap / d;
    MulStrict(n as real, gap / d, d);
  }

  /** A gap no larger than `gap`, scaled by a decay factor `q` that satisfies
      the Bernoulli bound for `n` frames, is at most `eps` once
      `gap < 0.08 eps n`. */
  lemma ShrunkGap(q: real, g: real, r: real, gap: real, eps: real, n: nat)
    requires 0.0 < q && q * (1.0 + Easing * n as real) <= 1.0 && r == q * g
    requires Abs(g) <= gap && gap < n as real * (Easing * eps) && eps > 0.0
    ensures Abs(r) <= eps
  {
    var nr := n as real;
    assert Abs(r) == q * Abs(g);
    assert q * Abs(g) <= q * gap;
    assert q * gap <= q * (nr * Easing * eps);
    assert q * (nr * Easing * eps) == eps * (q * Easing * nr);
    assert q * Easing * nr <= 1.0;
  }

  /** `setWarp`: the speed used from now on is the warp speed while active,
      the base speed otherwise. */
  function SelectSpeed(active: bool, baseSpeed: real, warpSpeed: real): (r: real)
    ensures r == baseSpeed || r == warpSpeed
    ensures active ==> r == warpSpeed
    ensures !active ==> r == baseSpeed
  {
    if active then warpSpeed else baseSpeed
  }

  /** A speed scaled by a factor in [0.85, 1.15]. */
  function ScaleSpeed(speed: real, factor: real): (m: real)
    requires 0.85 <= factor <= 1.15
    ensures speed >= 0.0 ==> 0.85 * speed <= m <= 1.15 * speed
    ensures speed == 0.0 ==> m == 0.0
  {
    var m := speed * factor;
    ScaledWithin(speed, factor, 0.85, 1.15, m);
    m
  }

  /** The frame's time advance `speed * (1 + 0.15 s) * 0.1`, with `s` the
      host's value of `sin(time * 0.5)`: for s in [-1, 1] it lies between
      0.085 and 0.115 times a non-negative speed. */
  function Advance(speed: real, s: real): (d: real)
    requires -1.0 <= s <= 1.0
    ensures speed >= 0.0 ==> 0.085 * speed <= d <= 0.115 * speed
    ensures speed == 0.0 ==> d == 0.0
  {
    ScaleSpeed(speed, 1.0 + s * 0.15) * 0.1
  }

  /** One frame of the clock: time moves on by the advance, so it strictly
      increases whenever the speed is positive. */
  function AdvanceTime(time: real, speed: real, sinHalfTime: real): (r: real)
    requires -1.0 <= sinHalfTime <= 1.0
    ensures speed >= 0.0 ==> time + 0.085 * speed <= r <= time + 0.115 * speed
    ensures speed > 0.0 ==> r > time
    ensures speed == 0.0 ==> r == time
  {
    time + Advance(speed, sinHalfTime)
  }

  /** `sin(time * 2) * 0.5 + 0.5`: the pulse uniform, in [0, 1]. */
  function Pulse(sinDoubleTime: real): (r: real)
    requires -1.0 <= sinDoubleTime <= 1.0
    ensures 0.0 <= r <= 1.0
    ensures sinDoubleTime == -1.0 ==> r == 0.0
    ensures sinDoubleTime == 1.0 ==> r == 1.0
  {
    sinDoubleTime * 0.5 + 0.5
  }
}
