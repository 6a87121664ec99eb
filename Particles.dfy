/** A particle of the field and the edge wrap at the end of its update step. */
module Particles {

  /** How far past an edge a particle may drift before it reappears at the opposite edge. */
  const EdgeMargin: real := 20.0

  /** One coordinate after the wrap: leaving past -20 puts it at extent + 20, leaving past
      extent + 20 puts it at -20, and anything between is left alone. */
  function WrapCoord(v: real, extent: real): (r: real)
    requires extent >= 0.0
    ensures -EdgeMargin <= r <= extent + EdgeMargin
    ensures -EdgeMargin <= v <= extent + EdgeMargin ==> r == v
    ensures v < -EdgeMargin ==> r == extent + EdgeMargin
    ensures v > extent + EdgeMargin ==> r == -EdgeMargin
  {
    var w := if v < -EdgeMargin then extent + EdgeMargin else v;
    if w > extent + EdgeMargin then -EdgeMargin else w
  }

  /** Wrapping twice is wrapping once: a wrapped coordinate is already on the canvas plus margin. */
  lemma WrapIdempotent(v: real, extent: real)
    requires extent >= 0.0
    ensures WrapCoord(WrapCoord(v, extent), extent) == WrapCoord(v, extent)
  {
  }

  class Particle {
    var x: real
    var y: real
    var vx: real
    var vy: real
    const seed: real
    const life: real

    /** A particle with the given position, velocity, noise seed and life factor (the source draws
        them at random: position on the canvas, speed 0.2-1.2, seed below 1000, life 0.4-1.0). */
    constructor(x0: real, y0: real, vx0: real, vy0: real, seed0: real, life0: real)
      ensures x == x0 && y == y0 && vx == vx0 && vy == vy0 && seed == seed0 && life == life0
    {
      x, y, vx, vy := x0, y0, vx0, vy0;
      seed, life := seed0, life0;
    }

    /** The tail of `update`: take the new (accelerated, speed-limited) velocity, move by it and
        wrap at the edges of a width x height canvas. */
    method Integrate(newVx: real, newVy: real, width: real, height: real)
      requires width >= 0.0 && height >= 0.0
      modifies this
      ensures vx == newVx && vy == newVy
      ensures x == WrapCoord(old(x) + newVx, width) && y == WrapCoord(old(y) + newVy, height)
    {
      vx, vy := newVx, newVy;
      x, y := x + vx, y + vy;
      if x < -EdgeMargin { x := width + EdgeMargin; }
      if x > width + EdgeMargin { x := -EdgeMargin; }
      if y < -EdgeMargin { y := height + EdgeMargin; }
      if y > height + EdgeMargin { y := -EdgeMargin; }
    }
  }
}
