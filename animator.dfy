/** One step of the frame-clocked zoom animation (`runScaleAnimation`): the scale
    moves from its current value towards the target in proportion to the time
    elapsed since the first frame, capped at `maxScale`. */
module ZoomAnimator {
  import opened Basics

  /** Duration of a zoom animation in ms (`scaleSpeed`). */
  const ScaleSpeed: real := 300.0

  /** Time since the animation's first frame, saturated at the duration. */
  function Elapsed(t: real, start: real): real
  {
    Min(ScaleSpeed, t - start)
  }

  /** Fraction of the animation done at frame time `t` (1 once it has run its course). */
  function Progress(t: real, start: real): real
  {
    Elapsed(t, start) / ScaleSpeed
  }

  /** The animation has run its course at frame time `t`. */
  predicate AnimationComplete(t: real, start: real)
  {
    Elapsed(t, start) >= ScaleSpeed
  }

  /** The scale after the frame at `t` of an animation that started at `start`,
      interpolating from the current `scale` (not the scale at the start). */
  function AnimationStep(scale: real, target: real, maxScale: real, t: real, start: real): real
  {
    Min(scale + Progress(t, start) * (target - scale), maxScale)
  }

  /** A frame never takes the scale above `maxScale`; when the target is within
      `maxScale` and time has not gone backwards, the new scale lies between the
      current scale and the target, so it never overshoots. */
  lemma AnimationStepBounds(scale: real, target: real, maxScale: real, t: real, start: real)
    requires start <= t
    ensures AnimationStep(scale, target, maxScale, t, start) <= maxScale
    ensures target <= maxScale ==>
              Min(scale, target) <= AnimationStep(scale, target, maxScale, t, start) <= Max(scale, target)
  {
    Interpolation(scale, target, Progress(t, start));
  }

  /** From a positive scale towards a positive target under a positive cap, the
      scale stays positive. */
  lemma AnimationStepPositive(scale: real, target: real, maxScale: real, t: real, start: real)
    requires start <= t && scale > 0.0 && target > 0.0 && maxScale > 0.0
    ensures AnimationStep(scale, target, maxScale, t, start) > 0.0
  {
    var p := Progress(t, start);
    Interpolation(scale, target, p);
    var v := scale + p * (target - scale);
    assert v >= Min(scale, target);
    assert Min(scale, target) > 0.0;
    assert AnimationStep(scale, target, maxScale, t, start) == Min(v, maxScale);
  }

  /** Linear interpolation by a fraction in [0, 1] stays between its end points. */
  lemma Interpolation(a: real, b: real, f: real)
    requires 0.0 <= f <= 1.0
    ensures Min(a, b) <= a + f * (b - a) <= Max(a, b)
  {
    var step := f * (b - a);
    if a <= b {
      FractionOfGap(f, a, b, step);
    } else {
      FractionOfGap(f, b, a, -step);
    }
  }

  /** A fraction `p` in [0, 1] of the gap between `lo` and `hi` lies in [0, hi - lo]. */
  lemma FractionOfGap(f: real, lo: real, hi: real, p: real)
    requires 0.0 <= f <= 1.0 && lo <= hi
    requires p == f * (hi - lo)
    ensures 0.0 <= p <= hi - lo
  {
    var g := hi - lo;
    NonNegativeProduct(f, g);
    NonNegativeProduct(1.0 - f, g);
    assert g - p == (1.0 - f) * g;
  }

  lemma NonNegativeProduct(x: real, y: real)
    requires x >= 0.0 && y >= 0.0
    ensures x * y >= 0.0
  {
  }

  /** The frame that completes the animation lands exactly on the target, capped at
      `maxScale`, whatever the scale was before that frame. */
  lemma AnimationStepCompletes(scale: real, target: real, maxScale: real, t: real, start: real)
    requires AnimationComplete(t, start)
    ensures AnimationStep(scale, target, maxScale, t, start) == Min(target, maxScale)
  {
    assert Progress(t, start) == 1.0;
  }

  /** The scale an undisturbed animation reaches after the frames at `ts` (the
      first frame only records the start time); it stops at the first complete frame. */
  function AnimationRun(scale: real, target: real, maxScale: real, start: real, ts: seq<real>): real
    decreases |ts|
  {
    if ts == [] then scale
    else
      var s := AnimationStep(scale, target, maxScale, ts[0], start);
      if AnimationComplete(ts[0], start) then s else AnimationRun(s, target, maxScale, start, ts[1..])
  }

  /** Some frame of `ts` completes the animation started at `start`. */
  predicate ReachesCompletion(start: real, ts: seq<real>)
  {
    exists i :: 0 <= i < |ts| && AnimationComplete(ts[i], start)
  }

  /** An undisturbed animation that is driven until it completes ends on
      `min(target, maxScale)`; this holds whichever frames came before. */
  lemma {:induction false} AnimationRunConverges(scale: real, target: real, maxScale: real, start: real, ts: seq<real>)
    requires ReachesCompletion(start, ts)
    ensures AnimationRun(scale, target, maxScale, start, ts) == Min(target, maxScale)
    decreases |ts|
  {
    var s := AnimationStep(scale, target, maxScale, ts[0], start);
    if AnimationComplete(ts[0], start) {
      AnimationStepCompletes(scale, target, maxScale, ts[0], start);
    } else {
      var i :| 0 <= i < |ts| && AnimationComplete(ts[i], start);
      assert i > 0 && ts[1..][i - 1] == ts[i];
      AnimationRunConverges(s, target, maxScale, start, ts[1..]);
    }
  }

  /** Each frame moves the scale towards a target within `maxScale` without passing
      it (`AnimationStepBounds`). Over a run of frames no earlier than the start,
      zooming in or out, the scale therefore never leaves the range between the
      start scale and the target. */
  lemma {:induction false} AnimationRunStaysBetween(scale: real, target: real, maxScale: real, start: real, ts: seq<real>)
    requires target <= maxScale
    requires forall i :: 0 <= i < |ts| ==> start <= ts[i]
    ensures Min(scale, target) <= AnimationRun(scale, target, maxScale, start, ts) <= Max(scale, target)
    decreases |ts|
  {
    if ts != [] {
      AnimationStepBounds(scale, target, maxScale, ts[0], start);
      var s := AnimationStep(scale, target, maxScale, ts[0], start);
      if !AnimationComplete(ts[0], start) {
        assert forall i :: 0 <= i < |ts[1..]| ==> ts[1..][i] == ts[i + 1];
        AnimationRunStaysBetween(s, target, maxScale, start, ts[1..]);
      }
    }
  }
}
