/** The settle animation's easing curve and interpolation (BottomSheet.js, lines 36-43).
    The curve is  ease(p) = 1 - (1 - p)^3 * cos(2 * pi * p).  Dafny has no cosine, so the
    host's value of cos(2 * pi * p) is a parameter `turnCos`; every fact proved below holds
    for any such function, or names the one value of it that it relies on. */
module Easing {

  /** Fixed length of a settle animation, in the clock's units (milliseconds). */
  const Duration: real := 300.0

  function Cube(x: real): real { x * x * x }

  /** Progress of an animation `elapsed` time units after it started: elapsed / 300, capped at 1.
      There is no lower cap: a frame time stamped before the start gives a negative progress. */
  function Progress(elapsed: real): (p: real)
    ensures p <= 1.0
    ensures p == 1.0 <==> elapsed >= Duration
    ensures 0.0 <= elapsed ==> 0.0 <= p
  {
    if elapsed / Duration < 1.0 then elapsed / Duration else 1.0
  }

  /** The spring curve, evaluated with the host's cosine of a full turn scaled by `p`. */
  function Ease(p: real, turnCos: real -> real): (e: real)
    ensures p == 1.0 ==> e == 1.0
    ensures p == 0.0 && turnCos(0.0) == 1.0 ==> e == 0.0
  {
    1.0 - Cube(1.0 - p) * turnCos(p)
  }

  /** The offset an animation shows at display progress `s`, moving from `from` to `to`. */
  function Interpolate(from: real, to: real, s: real): (y: real)
    ensures s == 0.0 ==> y == from
    ensures s == 1.0 ==> y == to
  {
    from + (to - from) * s
  }

  /** While the display progress stays in [0, 1], a frame between two offsets of a range
      [lo, hi] stays in that range too. */
  lemma InterpolateWithinRange(from: real, to: real, s: real, lo: real, hi: real)
    requires 0.0 <= s <= 1.0
    requires lo <= from <= hi && lo <= to <= hi
    ensures lo <= Interpolate(from, to, s) <= hi
  {
    var d := to - from;
    assert Interpolate(from, to, s) == from + d * s;
    assert d - d * s == d * (1.0 - s);
    if 0.0 <= d {
      ProductNonNegative(d, s);
      ProductNonNegative(d, 1.0 - s);
    } else {
      ProductNonNegative(-d, s);
      ProductNonNegative(-d, 1.0 - s);
      assert (-d) * s == -(d * s);
      assert (-d) * (1.0 - s) == -(d * (1.0 - s));
    }
  }

  lemma ProductNonNegative(a: real, b: real)
    requires 0.0 <= a && 0.0 <= b
    ensures 0.0 <= a * b
  {
  }

  /** Whatever the cosine, a frame at or after the animation's end shows exactly the target. */
  lemma FinalFrameLandsOnTarget(from: real, to: real, elapsed: real, turnCos: real -> real)
    requires elapsed >= Duration
    ensures Interpolate(from, to, Ease(Progress(elapsed), turnCos)) == to
  {
  }

  /** The first frame, at the start time itself, still shows the start offset (cos 0 = 1). */
  lemma FirstFrameShowsStart(from: real, to: real, turnCos: real -> real)
    requires turnCos(0.0) == 1.0
    ensures Interpolate(from, to, Ease(Progress(0.0), turnCos)) == from
  {
  }

  /** The curve overshoots: half way through (cos pi = -1) it is at 1.125, so an animation
      displays an offset beyond its target, and the offset can leave the snap range. */
  lemma EaseOvershootsAtHalf(turnCos: real -> real)
    requires turnCos(0.5) == -1.0
    ensures Ease(0.5, turnCos) == 1.125
    ensures Interpolate(50.0, 10.0, Ease(0.5, turnCos)) == 5.0
  {
  }
}
