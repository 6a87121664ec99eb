/** The session clock: elapsed seconds eased into a cohesion value that rises over two minutes. */
module Session {
  import opened P5Math

  const SessionSeconds: real := 120.0

  function Cube(x: real): real { x * x * x }

  /** `easeInOut`: a cubic ease-in for x < 0.5 and the mirrored ease-out from there on. */
  function Ease(x: real): real
  {
    if x < 0.5 then 4.0 * Cube(x) else 1.0 - Cube(-2.0 * x + 2.0) / 2.0
  }

  lemma CubeMonotone(a: real, b: real)
    requires 0.0 <= a <= b
    ensures Cube(a) <= Cube(b)
  {
    MulNonneg(b - a, a);
    MulNonneg(b - a, b);
    assert a * a <= b * b by {
      assert b * b - a * a == (b - a) * a + (b - a) * b;
    }
    MulNonneg(b - a, a * a);
    MulNonneg(b, b * b - a * a);
    assert Cube(b) - Cube(a) == (b - a) * (a * a) + b * (b * b - a * a);
  }

  /** The ease fixes 0, 1/2 and 1, and both of its branches give 1/2 at the switch point. */
  lemma EaseFixedPoints()
    ensures Ease(0.0) == 0.0 && Ease(0.5) == 0.5 && Ease(1.0) == 1.0
    ensures 4.0 * Cube(0.5) == 1.0 - Cube(-2.0 * 0.5 + 2.0) / 2.0
  {
    assert Cube(0.0) == 0.0 * 0.0 * 0.0 == 0.0;
    assert Cube(0.5) == 0.5 * 0.5 * 0.5 == 0.125;
    assert -2.0 * 0.5 + 2.0 == 1.0 && Cube(1.0) == 1.0;
    assert -2.0 * 1.0 + 2.0 == 0.0;
  }

  /** The ease is symmetric about (1/2, 1/2). */
  lemma EaseSymmetric(x: real)
    ensures Ease(1.0 - x) == 1.0 - Ease(x)
  {
    assert Cube(2.0 * x) == 8.0 * Cube(x);
    assert Cube(2.0 - 2.0 * x) == 8.0 * Cube(1.0 - x);
  }

  /** On [0, 1] the ease stays in [0, 1] and is non-decreasing. */
  lemma EaseMonotone(x: real, y: real)
    requires 0.0 <= x <= y <= 1.0
    ensures 0.0 <= Ease(x) <= Ease(y) <= 1.0
  {
    var u, v := -2.0 * x + 2.0, -2.0 * y + 2.0;
    if y < 0.5 {
      CubeMonotone(0.0, x);
      CubeMonotone(x, y);
      CubeMonotone(y, 0.5);
    } else if x >= 0.5 {
      CubeMonotone(0.0, v);
      CubeMonotone(v, u);
      CubeMonotone(u, 1.0);
    } else {
      CubeMonotone(0.0, x);
      CubeMonotone(x, 0.5);
      CubeMonotone(0.0, v);
      CubeMonotone(v, 1.0);
    }
  }

  /** Session progress: elapsed seconds as a fraction of the session, clamped to [0, 1]. */
  function Progress(t: real): (p: real)
    ensures 0.0 <= p <= 1.0
    ensures t <= 0.0 ==> p == 0.0
    ensures t >= SessionSeconds ==> p == 1.0
  {
    Constrain(t / SessionSeconds, 0.0, 1.0)
  }

  /** `cohesion` after `t` seconds of the session, at the user's intensity. */
  function Cohesion(t: real, intensity: real): real
  {
    Ease(Progress(t)) * intensity
  }

  lemma ProgressMonotone(t1: real, t2: real)
    requires t1 <= t2
    ensures Progress(t1) <= Progress(t2)
  {
    DivMonotone(t1, t2, SessionSeconds);
    ConstrainMonotone(t1 / SessionSeconds, t2 / SessionSeconds, 0.0, 1.0);
  }

  /** Cohesion lies between 0 and the intensity. */
  lemma CohesionRange(t: real, intensity: real)
    requires 0.0 <= intensity
    ensures 0.0 <= Cohesion(t, intensity) <= intensity
  {
    var p := Progress(t);
    var e := Ease(p);
    EaseMonotone(p, p);
    MulNonneg(e, intensity);
    MulNonneg(1.0 - e, intensity);
    assert intensity - e * intensity == (1.0 - e) * intensity;
  }

  /** Cohesion is 0 when the session starts and equals the intensity once it is complete. */
  lemma CohesionEnds(t: real, intensity: real)
    ensures t <= 0.0 ==> Cohesion(t, intensity) == 0.0
    ensures t >= SessionSeconds ==> Cohesion(t, intensity) == intensity
  {
    EaseFixedPoints();
  }

  /** For a fixed intensity, cohesion never decreases as the session goes on. */
  lemma CohesionMonotone(t1: real, t2: real, intensity: real)
    requires t1 <= t2 && 0.0 <= intensity
    ensures Cohesion(t1, intensity) <= Cohesion(t2, intensity)
  {
    ProgressMonotone(t1, t2);
    EaseMonotone(Progress(t1), Progress(t2));
    MulNonneg(Ease(Progress(t2)) - Ease(Progress(t1)), intensity);
  }
}
