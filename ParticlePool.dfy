/** The bounded-step resize of the particle list: toward a target clamped to [350, 1100], growing
    by appending fresh particles at the tail and shrinking by dropping the oldest at the head, by at
    most 12 per call. The element type is opaque; fresh elements come from the caller. */
module ParticlePool {
  import opened P5Math

  const MinCount: int := 350
  const MaxCount: int := 1100
  const MaxStep: int := 12

  function MinInt(a: int, b: int): int { if a <= b then a else b }

  function Dist(a: int, b: int): nat { if a <= b then b - a else a - b }

  /** The target after `constrain(target, 350, 1100)`. */
  function ClampTarget(target: int): (c: int)
    ensures MinCount <= c <= MaxCount
  {
    ConstrainInt(target, MinCount, MaxCount)
  }

  /** How many particles one call adds or removes. */
  function StepSize(len: nat, target: int): nat
  {
    MinInt(MaxStep, Dist(len, ClampTarget(target)))
  }

  /** How many fresh particles one call consumes: the step when growing, none otherwise. */
  function FreshNeeded(len: nat, target: int): nat
  {
    if len < ClampTarget(target) then StepSize(len, target) else 0
  }

  /** The list length after one call. */
  function AdjustedLength(len: nat, target: int): (n: nat)
    ensures Dist(n, ClampTarget(target)) == Dist(len, ClampTarget(target)) - StepSize(len, target)
    ensures Dist(n, len) == StepSize(len, target)
    ensures len <= ClampTarget(target) ==> len <= n <= ClampTarget(target)
    ensures ClampTarget(target) <= len ==> ClampTarget(target) <= n <= len
  {
    var c := ClampTarget(target);
    if len < c then len + MinInt(MaxStep, c - len)
    else if len > c then len - MinInt(MaxStep, len - c)
    else len
  }

  /** `adjustParticleCount(target)` on the list s, with `supply` providing the fresh particles.
      Growing keeps s as a prefix and appends fresh particles in order; shrinking keeps a suffix of s
      (the newest entries, in their order); at the target nothing changes. */
  function Adjusted<T>(s: seq<T>, target: int, supply: seq<T>): (r: seq<T>)
    requires FreshNeeded(|s|, target) <= |supply|
    ensures |r| == AdjustedLength(|s|, target)
    ensures |s| < ClampTarget(target) ==> r[..|s|] == s && r[|s|..] == supply[..|r| - |s|]
    ensures |s| > ClampTarget(target) ==> r == s[|s| - |r|..]
    ensures |s| == ClampTarget(target) ==> r == s
  {
    var c := ClampTarget(target);
    if |s| < c then s + supply[..MinInt(MaxStep, c - |s|)]
    else if |s| > c then s[MinInt(MaxStep, |s| - c)..]
    else s
  }

  /** A list whose length is already in [350, 1100] stays there after a call, whatever the target. */
  lemma AdjustedLengthInBounds(len: nat, target: int)
    requires MinCount <= len <= MaxCount
    ensures MinCount <= AdjustedLength(len, target) <= MaxCount
  {
  }

  /** The list length after k calls with the same target. */
  function LengthAfter(len: nat, target: int, k: nat): nat
    decreases k
  {
    if k == 0 then len else LengthAfter(AdjustedLength(len, target), target, k - 1)
  }

  function MaxInt(a: int, b: int): int { if a >= b then a else b }

  /** After k calls with a fixed target the distance to the clamped target has shrunk by 12 per call,
      down to 0 and never past it. */
  lemma {:induction false} DistanceAfter(len: nat, target: int, k: nat)
    ensures Dist(LengthAfter(len, target, k), ClampTarget(target)) == MaxInt(0, Dist(len, ClampTarget(target)) - MaxStep * k)
    decreases k
  {
    if k > 0 {
      var n := AdjustedLength(len, target);
      DistanceAfter(n, target, k - 1);
    }
  }

  /** Repeated calls with a fixed target reach it exactly, after ceil(distance / 12) calls. */
  lemma Converges(len: nat, target: int, k: nat)
    requires MaxStep * k >= Dist(len, ClampTarget(target))
    ensures LengthAfter(len, target, k) == ClampTarget(target)
  {
    DistanceAfter(len, target, k);
  }

  /** Once at the target, further calls leave the length where it is (convergence from distance 0). */
  lemma StaysAtTarget(target: int, k: nat)
    ensures LengthAfter(ClampTarget(target), target, k) == ClampTarget(target)
  {
    Converges(ClampTarget(target), target, k);
  }
}
