/** Generation of the energy-burst particle population: the flat vertex
    attribute arrays (direction, data, colour, layer) built once per
    configuration from a stream of random draws. */
module BurstField {
  import opened AndroidColor
  import opened RealFacts

  /** Population size of both renderers. */
  const NumParticles: nat := 4000
  /** Number of colours a particle chooses from. */
  const PaletteSize: nat := 5
  /** Number of shard shapes (`nextInt(3)`). */
  const ShapeCount: int := 3

  datatype Vec3 = Vec3(x: real, y: real, z: real)

  /** What one particle consumes from the random generator: `phi` and
      `polar` are the draws behind the azimuth `phi * 2 pi` and the polar
      angle `acos(2 polar - 1)`; `sinTheta`, `sinPhi` and `cosPhi` are the
      host's sine and cosine of those angles; then the layer, phase offset,
      shape and colour-index draws. */
  datatype ParticleDraw = ParticleDraw(
    phi: real, polar: real,
    sinTheta: real, sinPhi: real, cosPhi: real,
    layer: real, offset: real, shape: int, colorIndex: int)

  /** Unit draws lie in [0, 1), index draws in their range, and the
      trigonometric values in the ranges of sine and cosine (the polar angle
      is in [0, pi], so its sine is non-negative). */
  ghost predicate ValidDraw(d: ParticleDraw) {
    && 0.0 <= d.phi < 1.0 && 0.0 <= d.polar < 1.0
    && 0.0 <= d.sinTheta <= 1.0 && -1.0 <= d.sinPhi <= 1.0 && -1.0 <= d.cosPhi <= 1.0
    && 0.0 <= d.layer < 1.0 && 0.0 <= d.offset < 1.0
    && 0 <= d.shape < ShapeCount && 0 <= d.colorIndex < PaletteSize
  }

  ghost predicate ValidDraws(ds: seq<ParticleDraw>) {
    forall i :: 0 <= i < |ds| ==> ValidDraw(ds[i])
  }

  /** One particle's attributes as the shader receives them. */
  datatype BurstParticle = BurstParticle(
    direction: Vec3, offset: real, speed: real, size: real, shape: real,
    color: Rgba, layer: real)

  /** Near particles (layer 0) are fast, far ones (layer 1) slow. */
  function SpeedForLayer(layer: real): (s: real)
    requires 0.0 <= layer < 1.0
    ensures 0.5 < s <= 2.0
    ensures layer == 0.0 ==> s == 2.0
  {
    0.5 + (1.0 - layer) * 1.5
  }

  /** Near particles are large, far ones small. */
  function SizeForLayer(layer: real): (s: real)
    requires 0.0 <= layer < 1.0
    ensures 2.0 < s <= 17.0
    ensures layer == 0.0 ==> s == 17.0
  {
    2.0 + (1.0 - layer) * 15.0
  }

  /** A nearer layer is never slower nor smaller. */
  lemma NearerIsFasterAndLarger(near: real, far: real)
    requires 0.0 <= near <= far < 1.0
    ensures SpeedForLayer(near) >= SpeedForLayer(far)
    ensures SizeForLayer(near) >= SizeForLayer(far)
    ensures near < far ==> SpeedForLayer(near) > SpeedForLayer(far) && SizeForLayer(near) > SizeForLayer(far)
  {
  }

  /** The direction `(sin t cos p, sin t sin p, cos t)` with `cos t` being
      `2 polar - 1`, the cosine of `acos(2 polar - 1)`. */
  function Direction(d: ParticleDraw): (v: Vec3)
    requires ValidDraw(d)
    ensures -1.0 <= v.x <= 1.0 && -1.0 <= v.y <= 1.0 && -1.0 <= v.z < 1.0
    ensures v.z == 2.0 * d.polar - 1.0
  {
    ProductInUnitRange(d.sinTheta, d.cosPhi);
    ProductInUnitRange(d.sinTheta, d.sinPhi);
    Vec3(d.sinTheta * d.cosPhi, d.sinTheta * d.sinPhi, d.polar * 2.0 - 1.0)
  }

  /** Given the identity sin^2 + cos^2 = 1 for both angles, the direction
      has unit length. */
  lemma DirectionIsUnit(d: ParticleDraw)
    requires ValidDraw(d)
    requires d.sinTheta * d.sinTheta + (2.0 * d.polar - 1.0) * (2.0 * d.polar - 1.0) == 1.0
    requires d.sinPhi * d.sinPhi + d.cosPhi * d.cosPhi == 1.0
    ensures var v := Direction(d); v.x * v.x + v.y * v.y + v.z * v.z == 1.0
  {
    var v := Direction(d);
    var s := d.sinTheta;
    assert v.x * v.x + v.y * v.y == s * s * (d.cosPhi * d.cosPhi + d.sinPhi * d.sinPhi);
  }

  /** One loop iteration of `generateParticles`: the attributes of a
      particle built from its draws and the active palette. */
  function Attributes(d: ParticleDraw, palette: seq<Int32>): (p: BurstParticle)
    requires ValidDraw(d) && |palette| == PaletteSize
    ensures 0.0 <= p.offset < 1.0 && 0.0 <= p.layer < 1.0
    ensures 0.5 < p.speed <= 2.0 && 2.0 < p.size <= 17.0
    ensures p.shape == 0.0 || p.shape == 1.0 || p.shape == 2.0
    ensures p.color == ToAttribute(palette[d.colorIndex])
    ensures 0.0 <= p.color.r <= 1.0 && 0.0 <= p.color.g <= 1.0 && 0.0 <= p.color.b <= 1.0
    ensures p.color.a == 1.0
    ensures p.layer == d.layer && p.speed == SpeedForLayer(d.layer) && p.size == SizeForLayer(d.layer)
  {
    BurstParticle(Direction(d), d.offset, SpeedForLayer(d.layer), SizeForLayer(d.layer),
                  d.shape as real, ToAttribute(palette[d.colorIndex]), d.layer)
  }

  /** The four flat float arrays handed to the shader. */
  datatype Field = Field(directions: seq<real>, data: seq<real>, colors: seq<real>, layers: seq<real>)

  /** `f` holds `n` particles: 3, 4, 4 and 1 floats per particle. */
  ghost predicate Holds(f: Field, n: nat) {
    |f.directions| == 3 * n && |f.data| == 4 * n && |f.colors| == 4 * n && |f.layers| == n
  }

  /** Particle `i` read back out of the flat arrays. */
  function ParticleAt(f: Field, n: nat, i: nat): BurstParticle
    requires Holds(f, n) && i < n
  {
    BurstParticle(
      Vec3(f.directions[3 * i], f.directions[3 * i + 1], f.directions[3 * i + 2]),
      f.data[4 * i], f.data[4 * i + 1], f.data[4 * i + 2], f.data[4 * i + 3],
      Rgba(f.colors[4 * i], f.colors[4 * i + 1], f.colors[4 * i + 2], f.colors[4 * i + 3]),
      f.layers[i])
  }

  /** The slice of the four arrays that one particle occupies. */
  function Flatten(p: BurstParticle): (f: Field)
    ensures Holds(f, 1) && ParticleAt(f, 1, 0) == p
  {
    Field([p.direction.x, p.direction.y, p.direction.z],
          [p.offset, p.speed, p.size, p.shape],
          [p.color.r, p.color.g, p.color.b, p.color.a],
          [p.layer])
  }

  function Append(f: Field, g: Field): Field {
    Field(f.directions + g.directions, f.data + g.data, f.colors + g.colors, f.layers + g.layers)
  }

  /** Appending one particle keeps the earlier ones where they were and
      puts the new one at index `n`. */
  lemma AppendOne(f: Field, n: nat, p: BurstParticle)
    requires Holds(f, n)
    ensures Holds(Append(f, Flatten(p)), n + 1)
    ensures ParticleAt(Append(f, Flatten(p)), n + 1, n) == p
    ensures forall i :: 0 <= i < n ==> ParticleAt(Append(f, Flatten(p)), n + 1, i) == ParticleAt(f, n, i)
  {
    var g := Append(f, Flatten(p));
    forall i | 0 <= i < n
      ensures ParticleAt(g, n + 1, i) == ParticleAt(f, n, i)
    {
      assert 3 * i + 2 < 3 * n && 4 * i + 3 < 4 * n;
    }
  }

  /** `generateParticles`: one particle per draw, in order. The arrays have
      3, 4, 4 and 1 entries per particle and particle `i` read back from them
      is exactly the attributes built from draw `i`. */
  function Generate(draws: seq<ParticleDraw>, palette: seq<Int32>): (f: Field)
    requires ValidDraws(draws) && |palette| == PaletteSize
    ensures Holds(f, |draws|)
    ensures forall i :: 0 <= i < |draws| ==> ParticleAt(f, |draws|, i) == Attributes(draws[i], palette)
    decreases |draws|
  {
    if |draws| == 0 then Field([], [], [], [])
    else
      var n := |draws| - 1;
      var prefix := Generate(draws[..n], palette);
      var p := Attributes(draws[n], palette);
      AppendOne(prefix, n, p);
      Append(prefix, Flatten(p))
  }

  /** The properties every generated particle has, read from the flat arrays:
      bounded offset, layer, speed and size, a shape tag in {0, 1, 2}, an
      opaque colour taken from the palette with channels in [0, 1]. */
  ghost predicate WellFormedParticle(p: BurstParticle, palette: seq<Int32>)
    requires |palette| == PaletteSize
  {
    && 0.0 <= p.offset < 1.0 && 0.0 <= p.layer < 1.0
    && 0.5 < p.speed <= 2.0 && 2.0 < p.size <= 17.0
    && p.speed == SpeedForLayer(p.layer) && p.size == SizeForLayer(p.layer)
    && (p.shape == 0.0 || p.shape == 1.0 || p.shape == 2.0)
    && (exists k :: 0 <= k < PaletteSize && p.color == ToAttribute(palette[k]))
    && 0.0 <= p.color.r <= 1.0 && 0.0 <= p.color.g <= 1.0 && 0.0 <= p.color.b <= 1.0
    && p.color.a == 1.0
    && -1.0 <= p.direction.x <= 1.0 && -1.0 <= p.direction.y <= 1.0 && -1.0 <= p.direction.z <= 1.0
  }

  /** Every particle of a field of `n` particles is well formed. */
  ghost predicate WellFormedField(f: Field, n: nat, palette: seq<Int32>)
    requires |palette| == PaletteSize
  {
    Holds(f, n) && forall i :: 0 <= i < n ==> WellFormedParticle(ParticleAt(f, n, i), palette)
  }

  /** A generated field of `NumParticles` draws has arrays of 12000, 16000,
      16000 and 4000 floats and every particle in it is well formed. */
  lemma GeneratedFieldWellFormed(draws: seq<ParticleDraw>, palette: seq<Int32>)
    requires ValidDraws(draws) && |palette| == PaletteSize
    ensures WellFormedField(Generate(draws, palette), |draws|, palette)
    ensures |draws| == NumParticles ==>
      var f := Generate(draws, palette);
      |f.directions| == 12000 && |f.data| == 16000 && |f.colors| == 16000 && |f.layers| == 4000
  {
    var f := Generate(draws, palette);
    forall i | 0 <= i < |draws|
      ensures WellFormedParticle(ParticleAt(f, |draws|, i), palette)
    {
      var d := draws[i];
      assert ValidDraw(d);
      var p := ParticleAt(f, |draws|, i);
      assert p == Attributes(d, palette);
      assert p.color == ToAttribute(palette[d.colorIndex]);
    }
  }
}
