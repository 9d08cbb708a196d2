/** The tunnel particle: a light ray with an angle around the centre, a
    depth, a parallax layer, a colour and a spiral rate. */
module Particles {
  import opened AndroidColor

  /** `Math.PI.toFloat()`. */
  const Pi: real := 3.1415927410125732

  /** The five tunnel colours. */
  const Colors: seq<Int32> :=
    [Rgb(0, 220, 255), Rgb(80, 120, 255), Rgb(180, 50, 255), Rgb(255, 50, 200), Rgb(100, 255, 220)]

  datatype Particle = Particle(angle: real, z: real, layer: real, color: Int32, twistRate: real)

  ghost predicate UnitDraw(u: real) { 0.0 <= u < 1.0 }

  /** The domain every particle stays in. */
  ghost predicate Valid(p: Particle) {
    && 0.0 <= p.angle < 2.0 * Pi
    && 0.0 <= p.z <= 1.0
    && 0.0 <= p.layer < 1.0
    && p.color in Colors
    && 0.3 <= p.twistRate < 0.7
  }

  /** An angle drawn uniformly from a unit draw: `u * pi * 2`. */
  function RandomAngle(u: real): (a: real)
    requires UnitDraw(u)
    ensures 0.0 <= a < 2.0 * Pi
  {
    u * Pi * 2.0
  }

  /** `createRandom`, with the four float draws and the colour index the
      generator would produce. */
  function CreateRandom(angleDraw: real, zDraw: real, layerDraw: real, colorIndex: int, twistDraw: real): (p: Particle)
    requires UnitDraw(angleDraw) && UnitDraw(zDraw) && UnitDraw(layerDraw) && UnitDraw(twistDraw)
    requires 0 <= colorIndex < |Colors|
    ensures Valid(p)
    ensures p.z < 1.0
  {
    Particle(RandomAngle(angleDraw), zDraw, layerDraw, Colors[colorIndex], 0.3 + twistDraw * 0.4)
  }

  /** `respawnAtCenter`: a fresh angle and colour, depth back at the far end;
      layer and twist rate are immutable and keep their values. */
  function RespawnAtCenter(p: Particle, angleDraw: real, colorIndex: int): (r: Particle)
    requires UnitDraw(angleDraw) && 0 <= colorIndex < |Colors|
    ensures r.z == 1.0
    ensures 0.0 <= r.angle < 2.0 * Pi
    ensures r.color in Colors
    ensures r.layer == p.layer && r.twistRate == p.twistRate
    ensures Valid(p) ==> Valid(r)
  {
    p.(angle := RandomAngle(angleDraw), z := 1.0, color := Colors[colorIndex])
  }

  /** Respawning again with the same draws changes nothing more: the result
      depends only on the draws and the immutable fields. */
  lemma RespawnIdempotent(p: Particle, angleDraw: real, colorIndex: int)
    requires UnitDraw(angleDraw) && 0 <= colorIndex < |Colors|
    ensures RespawnAtCenter(RespawnAtCenter(p, angleDraw, colorIndex), angleDraw, colorIndex)
         == RespawnAtCenter(p, angleDraw, colorIndex)
  {
  }
}
