/** The per-vertex math of the energy-burst point shader, shared word for
    word by both renderers: cyclic phase, distance curve, layered parallax
    rotation, depth clamp, point size, fade and brightness. Values of
    `pow`, `sin` and `cos` are supplied by the caller within their ranges. */
module BurstShader {
  import opened AndroidColor
  import opened BurstField
  import opened RealFacts

  /** GLSL `fract`: the fractional part, in [0, 1), differing from `x` by
      a whole number. */
  function Fract(x: real): (r: real)
    ensures 0.0 <= r < 1.0
    ensures (x - r).Floor as real == x - r
  {
    x - x.Floor as real
  }

  /** The particle's progress `t` along its burst. */
  function Phase(time: real, speed: real, offset: real): (t: real)
    ensures 0.0 <= t < 1.0
  {
    Fract(time * speed * 0.15 + offset)
  }

  /** Fade: ramps in over the first 10% of `t`, out after 70%. */
  function FadeAlpha(t: real): (alpha: real)
    requires 0.0 <= t < 1.0
    ensures 0.0 <= alpha <= 1.0
    ensures 0.1 <= t <= 0.7 ==> alpha == 1.0
    ensures t < 0.1 ==> alpha < 1.0
    ensures 0.7 < t ==> 0.01 < alpha < 1.0
  {
    var alpha := if t < 0.1 then t * 10.0 else 1.0;
    if t > 0.7 then 1.0 - (t - 0.7) * 3.3 else alpha
  }

  /** The fade rises with `t` up to 0.1 and falls after 0.7. */
  lemma FadeShape(s: real, t: real)
    requires 0.0 <= s <= t < 1.0
    ensures t <= 0.7 ==> FadeAlpha(s) <= FadeAlpha(t)
    ensures 0.1 <= s ==> FadeAlpha(s) >= FadeAlpha(t)
  {
  }

  /** Distance from the centre: `t^2.5 * 5 + (1 - t) * pulse * 0.1`, with
      `pow25` the value of `pow(t, 2.5)`. */
  function Distance(t: real, pow25: real, pulse: real): (d: real)
    requires 0.0 <= t < 1.0 && 0.0 <= pow25 < 1.0 && 0.0 <= pulse <= 1.0
    ensures 0.0 <= d < 5.1
  {
    MulNonNegative(1.0 - t, pulse);
    assert (1.0 - t) * pulse <= 1.0 by { ProductInUnitRange(1.0 - t, pulse); }
    pow25 * 5.0 + (1.0 - t) * pulse * 0.1
  }

  /** The distance curve is not monotone in `t` for a positive pulse: just
      after the core the pulse term shrinks faster than `t^2.5` grows
      (0.01^2.5 = 0.00001 exactly). */
  lemma DistanceDipsNearCore()
    ensures Distance(0.01, 0.00001, 1.0) < Distance(0.0, 0.0, 1.0)
  {
  }

  /** GLSL `rotateY(p, a)` with `s`, `c` the sine and cosine of `a`. */
  function RotateY(p: Vec3, s: real, c: real): Vec3 {
    Vec3(p.x * c + p.z * s, p.y, -p.x * s + p.z * c)
  }

  /** GLSL `rotateX(p, a)`. */
  function RotateX(p: Vec3, s: real, c: real): Vec3 {
    Vec3(p.x, p.y * c - p.z * s, p.y * s + p.z * c)
  }

  function Norm2(p: Vec3): real { p.x * p.x + p.y * p.y + p.z * p.z }

  /** Both parallax rotations keep the distance from the centre, given
      sin^2 + cos^2 = 1. */
  lemma RotationsPreserveLength(p: Vec3, s: real, c: real)
    requires s * s + c * c == 1.0
    ensures Norm2(RotateY(p, s, c)) == Norm2(p)
    ensures Norm2(RotateX(p, s, c)) == Norm2(p)
  {
    var a := p.x * c + p.z * s;
    var b := -p.x * s + p.z * c;
    assert a * a + b * b == (p.x * p.x + p.z * p.z) * (s * s + c * c);
    var u := p.y * c - p.z * s;
    var v := p.y * s + p.z * c;
    assert u * u + v * v == (p.y * p.y + p.z * p.z) * (s * s + c * c);
  }

  /** The projected depth `z + 3`, floored at 0.1 so that the point-size
      division is safe. */
  function Depth(eyeZ: real): (w: real)
    ensures w >= 0.1
    ensures eyeZ + 3.0 >= 0.1 ==> w == eyeZ + 3.0
    ensures eyeZ + 3.0 < 0.1 ==> w == 0.1
  {
    var z := eyeZ + 3.0;
    if z < 0.1 then 0.1 else z
  }

  /** `size * (4 / z) * (1 + (1 - t) * pulse * 0.3)`. */
  function PointSize(size: real, w: real, t: real, pulse: real): (ps: real)
    requires w >= 0.1 && 0.0 <= t < 1.0 && 0.0 <= pulse <= 1.0
    ensures size > 0.0 ==> ps > 0.0
  {
    MulNonNegative(1.0 - t, pulse);
    var swell := 1.0 + (1.0 - t) * pulse * 0.3;
    assert 4.0 / w > 0.0;
    assert size > 0.0 ==> size * (4.0 / w) > 0.0;
    size * (4.0 / w) * swell
  }

  /** `1 + (1 - t) * 0.8 + jitter`, jitter being `sin(...) * 0.1`. */
  function Brightness(t: real, sinJitter: real): (b: real)
    requires 0.0 <= t < 1.0 && -1.0 <= sinJitter <= 1.0
    ensures 0.9 < b <= 1.9
  {
    1.0 + (1.0 - t) * 0.8 + sinJitter * 0.1
  }

  /** Host-supplied transcendental values for one vertex. */
  datatype ShaderTrig = ShaderTrig(
    pow25: real,            // pow(t, 2.5)
    sinY: real, cosY: real, // of the angle `VertexOut.angleY`
    sinX: real, cosX: real, // of the angle `VertexOut.angleX`
    sinJitter: real)        // of uTime * 10 + offset * 100

  ghost predicate ValidTrig(g: ShaderTrig) {
    && 0.0 <= g.pow25 < 1.0
    && -1.0 <= g.sinY <= 1.0 && -1.0 <= g.cosY <= 1.0
    && -1.0 <= g.sinX <= 1.0 && -1.0 <= g.cosX <= 1.0
    && -1.0 <= g.sinJitter <= 1.0
  }

  /** What the vertex stage hands on for one particle. */
  datatype VertexOut = VertexOut(t: real, angleY: real, angleX: real, eye: Vec3, w: real, pointSize: real, color: Rgba)

  /** The parallax rotation angles scale with nearness: `(1 - layer) * 0.8`. */
  function ParallaxScale(layer: real): (s: real)
    requires 0.0 <= layer < 1.0
    ensures 0.0 < s <= 0.8
  {
    (1.0 - layer) * 0.8
  }

  /** The rotation angle of one axis, `uParallax * parallaxScale`: it has
      the sign of the parallax, and with the parallax within its clamp range
      of +-0.6 no layer is rotated by more than 0.48 radians. */
  function TiltAngle(layer: real, parallax: real): (a: real)
    requires 0.0 <= layer < 1.0
    ensures (a > 0.0 <==> parallax > 0.0) && (a < 0.0 <==> parallax < 0.0)
    ensures -0.6 <= parallax <= 0.6 ==> -0.48 <= a <= 0.48
  {
    var s := ParallaxScale(layer);
    var m := parallax * s;
    var q := Abs(parallax);
    MulNonNegative(q, 0.8 - s);
    assert q * (0.8 - s) == 0.8 * q - q * s;
    assert m == q * s || m == -(q * s);
    SignOfProduct(parallax, s);
    m
  }

  /** The particle's eye-space position: its direction scaled by the
      distance, then rotated by the layer-scaled parallax. */
  function EyePosition(dir: Vec3, dist: real, g: ShaderTrig): Vec3 {
    var pos := Vec3(dir.x * dist, dir.y * dist, dir.z * dist);
    RotateX(RotateY(pos, g.sinY, g.cosY), g.sinX, g.cosX)
  }

  /** `vec4(aColor.rgb * brightness, aColor.a * alpha)`. */
  function ShadeColor(c: Rgba, bright: real, alpha: real): (o: Rgba)
    requires 0.0 <= c.r && 0.0 <= c.g && 0.0 <= c.b && 0.0 <= c.a <= 1.0
    requires bright >= 0.0 && 0.0 <= alpha <= 1.0
    ensures 0.0 <= o.r && 0.0 <= o.g && 0.0 <= o.b
    ensures 0.0 <= o.a <= c.a && o.a == c.a * alpha
  {
    MulNonNegative(c.r, bright);
    MulNonNegative(c.g, bright);
    MulNonNegative(c.b, bright);
    MulNonNegative(c.a, alpha);
    MulNonNegative(c.a, 1.0 - alpha);
    assert c.a * (1.0 - alpha) == c.a - c.a * alpha;
    Rgba(c.r * bright, c.g * bright, c.b * bright, c.a * alpha)
  }

  /** The vertex shader's `main` for one particle, under the parallax
      uniform `(parallaxX, parallaxY)`; the host's sines and cosines in `g`
      are those of the rotation angles the vertex reports. */
  function Shade(p: BurstParticle, time: real, pulse: real, parallaxX: real, parallaxY: real,
                 g: ShaderTrig): (o: VertexOut)
    requires ValidTrig(g) && 0.0 <= pulse <= 1.0 && 0.0 <= p.layer < 1.0
    requires p.size > 0.0 && 0.0 <= p.color.r && 0.0 <= p.color.g && 0.0 <= p.color.b
    requires 0.0 <= p.color.a <= 1.0
    ensures 0.0 <= o.t < 1.0 && o.t == Phase(time, p.speed, p.offset)
    ensures o.angleY == TiltAngle(p.layer, parallaxX) && o.angleX == TiltAngle(p.layer, parallaxY)
    ensures o.w >= 0.1 && (o.eye.z + 3.0 >= 0.1 ==> o.w == o.eye.z + 3.0)
    ensures o.pointSize > 0.0
    ensures 0.0 <= o.color.a <= p.color.a
    ensures o.color.a == p.color.a * FadeAlpha(o.t)
    ensures 0.0 <= o.color.r && 0.0 <= o.color.g && 0.0 <= o.color.b
  {
    var t := Phase(time, p.speed, p.offset);
    var angleY := TiltAngle(p.layer, parallaxX);
    var angleX := TiltAngle(p.layer, parallaxY);
    var eye := EyePosition(p.direction, Distance(t, g.pow25, pulse), g);
    var w := Depth(eye.z);
    VertexOut(t, angleY, angleX, eye, w, PointSize(p.size, w, t, pulse),
              ShadeColor(p.color, Brightness(t, g.sinJitter), FadeAlpha(t)))
  }

  /** For every generated particle under a clamped parallax, the emitted
      alpha is in [0, 1], the projected depth at least 0.1, the point size
      positive and both rotation angles within 0.48 radians, whatever the
      time and pulse. */
  lemma GeneratedParticlesShadeSafely(d: ParticleDraw, palette: seq<Int32>, time: real, pulse: real,
                                      parallaxX: real, parallaxY: real, g: ShaderTrig)
    requires ValidDraw(d) && |palette| == PaletteSize && ValidTrig(g) && 0.0 <= pulse <= 1.0
    requires -0.6 <= parallaxX <= 0.6 && -0.6 <= parallaxY <= 0.6
    ensures var o := Shade(Attributes(d, palette), time, pulse, parallaxX, parallaxY, g);
      && 0.0 <= o.color.a <= 1.0 && o.w >= 0.1 && o.pointSize > 0.0
      && -0.48 <= o.angleY <= 0.48 && -0.48 <= o.angleX <= 0.48
  {
  }
}
