/*
 * ConoscopeAppHelper: the exposure-time arithmetic of the auto-exposure
 * loop, `_GetExposureTime` and `_ProcessAutoExposure`.
 */
module AppHelper {
  import C = Common

  /** The first value reached from `v` by steps of `g` that is at least `bound`. */
  function StepUp(v: int, g: int, bound: int): int
    requires g > 0
    decreases bound - v
  {
    if v >= bound then v else StepUp(v + g, g, bound)
  }

  /** The first value reached from `v` by steps of `-g` that is at most `bound`. */
  function StepDown(v: int, g: int, bound: int): int
    requires g > 0
    decreases v - bound
  {
    if v <= bound then v else StepDown(v - g, g, bound)
  }

  /** Stepping up reaches the bound by whole steps and overshoots it by less than one step. */
  lemma {:induction false} StepUpReaches(v: int, g: int, bound: int)
    requires g > 0
    ensures var r := StepUp(v, g, bound);
      r >= bound && r >= v && (r - v) % g == 0 && (r == v || r - g < bound)
    decreases bound - v
  {
    if v < bound {
      StepUpReaches(v + g, g, bound);
      var next := StepUp(v + g, g, bound);
      StepMultiple(next - (v + g), g);
    }
  }

  /** Stepping down reaches the bound by whole steps and undershoots it by less than one step. */
  lemma {:induction false} StepDownReaches(v: int, g: int, bound: int)
    requires g > 0
    ensures var r := StepDown(v, g, bound);
      r <= bound && r <= v && (v - r) % g == 0 && (r == v || r + g > bound)
    decreases v - bound
  {
    if v > bound {
      StepDownReaches(v - g, g, bound);
      var next := StepDown(v - g, g, bound);
      StepMultiple((v - g) - next, g);
    }
  }

  /**
   * The granularity step of `_GetExposureTime`: a time above the granularity
   * is rounded to a multiple of it, a remainder of more than half rounding
   * up; any other time becomes the granularity itself.
   */
  function Granular(exposure: int, g: int): (r: int)
    requires g > 0
  {
    if g > 1 then
      if exposure > g then
        var mod := exposure % g;
        if mod > g / 2 then exposure - mod + g else exposure - mod
      else g
    else exposure
  }

  /** A time above the granularity goes to the nearest multiple of it, ties going down. */
  lemma GranularNearest(exposure: int, g: int)
    requires g > 1 && exposure > g
    ensures Granular(exposure, g) % g == 0
    ensures exposure - g / 2 <= Granular(exposure, g) < exposure + (g - g / 2)
    ensures Granular(exposure, g) >= g
  {
    var q, mod := exposure / g, exposure % g;
    assert exposure - mod == g * q;
    C.DivUnique(g * q, g, q, 0);
    StepMultiple(g * q, g);
    assert q >= 1;
    C.MulAtLeast(q, g);
  }

  /** One more step keeps a multiple of the step a multiple. */
  lemma StepMultiple(a: int, g: int)
    requires g > 0 && a % g == 0
    ensures (a + g) % g == 0
  {
    C.DivUnique(a + g, g, a / g + 1, 0);
  }

  /** `_GetExposureTime`: the granularity applied, then a nonzero minimum and maximum met by whole steps. */
  method GetExposureTime(exposure: int, g: int, min: int, max: int) returns (t: int)
    requires g > 0
    ensures var up := if min != 0 then StepUp(Granular(exposure, g), g, min) else Granular(exposure, g);
            t == if max != 0 then StepDown(up, g, max) else up
  {
    t := exposure;
    if g > 1 {
      if exposure > g {
        var mod := exposure % g;
        t := exposure - mod;
        if mod > g / 2 {
          t := t + g;
        }
      } else {
        t := g;
      }
    }
    ghost var granular := t;
    if min != 0 {
      while t < min
        invariant StepUp(t, g, min) == StepUp(granular, g, min)
        decreases min - t
      {
        t := t + g;
      }
    }
    ghost var up := t;
    if max != 0 {
      while t > max
        invariant StepDown(t, g, max) == StepDown(up, g, max)
        decreases t - max
      {
        t := t - g;
      }
    }
  }

  /**
   * What `_GetExposureTime` guarantees: the result differs from the
   * granular time by whole steps, stays at or below a nonzero maximum, and
   * reaches a nonzero minimum when the maximum leaves room for it.
   */
  lemma ExposureTimeBounds(exposure: int, g: int, min: int, max: int, t: int)
    requires g > 0
    requires t == (var up := if min != 0 then StepUp(Granular(exposure, g), g, min) else Granular(exposure, g);
                   if max != 0 then StepDown(up, g, max) else up)
    ensures (t - Granular(exposure, g)) % g == 0
    ensures max != 0 ==> t <= max
    ensures min != 0 && (max == 0 || max - min >= g) ==> t >= min
    ensures (min == 0 || Granular(exposure, g) >= min) && (max == 0 || Granular(exposure, g) <= max) ==>
              t == Granular(exposure, g)
  {
    var r := Granular(exposure, g);
    var up := if min != 0 then StepUp(r, g, min) else r;
    if min != 0 {
      StepUpReaches(r, g, min);
    }
    assert (up - r) % g == 0;
    if max != 0 {
      StepDownReaches(up, g, max);
      var down := StepDown(up, g, max);
      assert (up - down) % g == 0;
      ModDifference(up - r, up - down, g);
      assert t - r == (up - r) - (up - down);
    }
  }

  lemma ModDifference(a: int, b: int, g: int)
    requires g > 0 && a % g == 0 && b % g == 0
    ensures (a - b) % g == 0
  {
    C.DivUnique(a - b, g, a / g - b / g, 0);
  }

  /** The integer parts of `AutoExposureParam_t` that `_ProcessAutoExposure` tests. */
  datatype AeParam = AeParam(thresholdUp: int, thresholdDown: int, minExposureTimeUs: int, maxExposureTimeUs: int)

  /** The exposure is at or beyond one of the bounds. */
  predicate AtBound(p: AeParam, time: int)
  {
    time <= p.minExposureTimeUs || time >= p.maxExposureTimeUs
  }

  /** The pixel maximum lies strictly between the thresholds. */
  predicate OnTarget(p: AeParam, pixelMax: int)
  {
    p.thresholdDown < pixelMax < p.thresholdUp
  }

  /**
   * `_ProcessAutoExposure`. `proposal` is the exposure time the floating-point
   * extrapolation proposes, truncated to an integer; the method locks at a
   * bound or on target, and otherwise clamps the proposal into the bounds.
   */
  method ProcessAutoExposure(p: AeParam, pixelMax: int, time: int, proposal: int) returns (locked: bool, newTime: int)
    ensures locked <==> AtBound(p, time) || OnTarget(p, pixelMax)
    ensures locked ==> newTime == time
    ensures !locked && proposal < p.minExposureTimeUs ==> newTime == p.minExposureTimeUs
    ensures !locked && proposal >= p.minExposureTimeUs && proposal > p.maxExposureTimeUs ==> newTime == p.maxExposureTimeUs
    ensures !locked && p.minExposureTimeUs <= proposal <= p.maxExposureTimeUs ==> newTime == proposal
  {
    locked := false;
    newTime := time;
    if time <= p.minExposureTimeUs || time >= p.maxExposureTimeUs {
      locked := true;
    } else if p.thresholdDown < pixelMax && pixelMax < p.thresholdUp {
      locked := true;
    } else if proposal < p.minExposureTimeUs {
      newTime := p.minExposureTimeUs;
    } else if proposal > p.maxExposureTimeUs {
      newTime := p.maxExposureTimeUs;
    } else {
      newTime := proposal;
    }
  }

  /**
   * An unlocked step leaves the exposure inside the bounds, and a step that
   * clamps it onto a bound makes the next step lock whatever the pixels say.
   */
  lemma ClampedStepLocksNext(p: AeParam, pixelMax: int, time: int, proposal: int, locked: bool, newTime: int)
    requires p.minExposureTimeUs <= p.maxExposureTimeUs
    requires locked <==> AtBound(p, time) || OnTarget(p, pixelMax)
    requires locked ==> newTime == time
    requires !locked ==> newTime == (if proposal < p.minExposureTimeUs then p.minExposureTimeUs
                                     else if proposal > p.maxExposureTimeUs then p.maxExposureTimeUs else proposal)
    ensures !locked ==> p.minExposureTimeUs <= newTime <= p.maxExposureTimeUs
    ensures !locked && (proposal <= p.minExposureTimeUs || proposal >= p.maxExposureTimeUs) ==> AtBound(p, newTime)
    ensures locked && AtBound(p, time) ==> AtBound(p, newTime)
  {
  }
}
