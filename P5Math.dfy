/** The three p5.js numeric helpers the sketch builds every parameter from, over exact reals,
    and the facts about them that the range proofs use. */
module P5Math {

  function Min(a: real, b: real): real { if a <= b then a else b }
  function Max(a: real, b: real): real { if a >= b then a else b }

  /** p5 `map(v, a, b, c, d)`: the affine rescale of v from [a, b] onto [c, d], unclamped. */
  function Map(v: real, a: real, b: real, c: real, d: real): (r: real)
    requires a != b
    ensures v == a ==> r == c
    ensures v == b ==> r == d
  {
    assert v == a ==> (v - a) * (d - c) == 0.0;
    assert v == b ==> (v - a) * (d - c) / (b - a) == d - c;
    c + (v - a) * (d - c) / (b - a)
  }

  /** p5 `constrain(v, lo, hi)`, which is `Math.max(Math.min(v, hi), lo)`. */
  function Constrain(v: real, lo: real, hi: real): (r: real)
    ensures lo <= hi ==> lo <= r <= hi
    ensures lo <= v <= hi ==> r == v
    ensures v < lo ==> r == lo
    ensures lo <= hi < v ==> r == hi
  {
    Max(Min(v, hi), lo)
  }

  /** The same clamp on integers (the particle-count target is an integer). */
  function ConstrainInt(v: int, lo: int, hi: int): (r: int)
    ensures lo <= hi ==> lo <= r <= hi
    ensures lo <= v <= hi ==> r == v
    ensures v < lo ==> r == lo
    ensures lo <= hi < v ==> r == hi
  {
    if v < lo then lo else if v > hi then (if hi >= lo then hi else lo) else v
  }

  /** p5 `lerp(a, b, t)`, which is `t * (b - a) + a`. */
  function Lerp(a: real, b: real, t: real): (r: real)
    ensures t == 0.0 ==> r == a
    ensures t == 1.0 ==> r == b
  {
    t * (b - a) + a
  }

  /** The normalisation the sketch applies to every territory reading:
      `constrain(map(v, a, b, 0, 1), 0, 1)`. */
  function Norm(v: real, a: real, b: real): (r: real)
    requires a < b
    ensures 0.0 <= r <= 1.0
    ensures v <= a ==> r == 0.0
    ensures v >= b ==> r == 1.0
  {
    var m := Map(v, a, b, 0.0, 1.0);
    assert v <= a ==> m <= 0.0 by {
      if v <= a { MapMonotone(v, a, a, b, 0.0, 1.0); }
    }
    assert v >= b ==> m >= 1.0 by {
      if v >= b { MapMonotone(b, v, a, b, 0.0, 1.0); }
    }
    Constrain(m, 0.0, 1.0)
  }

  lemma ConstrainMonotone(v1: real, v2: real, lo: real, hi: real)
    requires v1 <= v2
    ensures Constrain(v1, lo, hi) <= Constrain(v2, lo, hi)
  {
  }

  lemma MapMonotone(v1: real, v2: real, a: real, b: real, c: real, d: real)
    requires a < b && c <= d && v1 <= v2
    ensures Map(v1, a, b, c, d) <= Map(v2, a, b, c, d)
  {
    assert (v2 - a) * (d - c) - (v1 - a) * (d - c) == (v2 - v1) * (d - c);
    MulNonneg(v2 - v1, d - c);
    DivMonotone((v1 - a) * (d - c), (v2 - a) * (d - c), b - a);
  }

  /** A normalised reading never decreases as the raw reading grows. */
  lemma NormMonotone(v1: real, v2: real, a: real, b: real)
    requires a < b && v1 <= v2
    ensures Norm(v1, a, b) <= Norm(v2, a, b)
  {
    MapMonotone(v1, v2, a, b, 0.0, 1.0);
    ConstrainMonotone(Map(v1, a, b, 0.0, 1.0), Map(v2, a, b, 0.0, 1.0), 0.0, 1.0);
  }

  lemma MulNonneg(x: real, y: real)
    requires 0.0 <= x && 0.0 <= y
    ensures 0.0 <= x * y
  {
  }

  lemma DivMonotone(x: real, y: real, z: real)
    requires x <= y && 0.0 < z
    ensures x / z <= y / z
  {
    assert y / z - x / z == (y - x) / z;
  }

  /** For t in [0, 1], lerp stays between its two end points, whichever is larger. */
  lemma LerpBetween(a: real, b: real, t: real)
    requires 0.0 <= t <= 1.0
    ensures Min(a, b) <= Lerp(a, b, t) <= Max(a, b)
  {
    if a <= b {
      MulNonneg(t, b - a);
      MulNonneg(1.0 - t, b - a);
      assert Lerp(a, b, t) == b - (1.0 - t) * (b - a);
    } else {
      MulNonneg(t, a - b);
      MulNonneg(1.0 - t, a - b);
      assert Lerp(a, b, t) == b + (1.0 - t) * (a - b);
    }
  }

  /** lerp moves toward its second end point as t grows. */
  lemma LerpMonotone(a: real, b: real, t1: real, t2: real)
    requires t1 <= t2
    ensures a <= b ==> Lerp(a, b, t1) <= Lerp(a, b, t2)
    ensures b <= a ==> Lerp(a, b, t2) <= Lerp(a, b, t1)
  {
    assert Lerp(a, b, t2) - Lerp(a, b, t1) == (t2 - t1) * (b - a);
    if a <= b {
      MulNonneg(t2 - t1, b - a);
    } else {
      MulNonneg(t2 - t1, a - b);
    }
  }

  /** The product of two non-negative quantities, each in an interval, lies between the products of the ends. */
  lemma ProductBounds(x: real, y: real, xlo: real, xhi: real, ylo: real, yhi: real)
    requires 0.0 <= xlo <= x <= xhi
    requires 0.0 <= ylo <= y <= yhi
    ensures xlo * ylo <= x * y <= xhi * yhi
  {
    MulNonneg(x - xlo, ylo);
    MulNonneg(x, y - ylo);
    assert x * y - xlo * ylo == (x - xlo) * ylo + x * (y - ylo);
    MulNonneg(xhi - x, y);
    MulNonneg(xhi, yhi - y);
    assert xhi * yhi - x * y == (xhi - x) * y + xhi * (yhi - y);
  }
}
