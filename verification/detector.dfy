/**
 * SwirlDetector: a time-bounded window of mouse-position samples, a cooldown flag,
 * and the trigger step that hands a snapshot of the window to the caller.
 *
 * The wall clock is the `now` parameter of AddPoint. The floating-point part
 * of the classifier (centroid, mean radius, `atan2` bearings) is the
 * `measure` parameter. The deferred reset of the cooldown flag is the
 * CooldownExpired event. The `onSwirl` callback is the value AddPoint returns.
 */
module Detector {
  import opened Wrappers
  import opened Geometry
  import opened Settings
  import opened Rotation

  datatype TimedPoint = TimedPoint(point: Point, time: real)

  /**
   * What the floating-point classifier code derives from the window's points:
   * the mean distance from the centroid, and the `atan2` bearing of a point
   * about that centroid.
   */
  datatype Measurement = Measurement(avgRadius: real, bearingOf: Point -> real)

  /** One bearing per point, in window order, as the loop over `pts` computes them. */
  function Bearings(pts: seq<Point>, m: Measurement): (r: seq<real>)
    ensures |r| == |pts| && forall i :: 0 <= i < |pts| ==> r[i] == m.bearingOf(pts[i])
  {
    seq(|pts|, i requires 0 <= i < |pts| => m.bearingOf(pts[i]))
  }

  /** A sample survives pruning when it is at most `duration` seconds old. */
  predicate InWindow(tp: TimedPoint, now: real, duration: real) {
    !(now - tp.time > duration)
  }

  /** positions.removeAll { now - $0.time > duration }. */
  function Prune(ps: seq<TimedPoint>, now: real, duration: real): (r: seq<TimedPoint>)
    ensures |r| <= |ps|
    ensures forall q :: q in r <==> q in ps && InWindow(q, now, duration)
    decreases |ps|
  {
    if ps == [] then []
    else if InWindow(ps[0], now, duration) then [ps[0]] + Prune(ps[1..], now, duration)
    else Prune(ps[1..], now, duration)
  }

  /** Pruning works element by element, so it keeps the order of the survivors. */
  lemma {:induction false} PruneDistributes(a: seq<TimedPoint>, b: seq<TimedPoint>, now: real, duration: real)
    ensures Prune(a + b, now, duration) == Prune(a, now, duration) + Prune(b, now, duration)
    decreases |a|
  {
    if a != [] {
      assert (a + b)[1..] == a[1..] + b;
      PruneDistributes(a[1..], b, now, duration);
    } else {
      assert a + b == b;
    }
  }

  /** Pruning twice at the same instant prunes nothing more. */
  lemma {:induction false} PruneIdempotent(ps: seq<TimedPoint>, now: real, duration: real)
    ensures Prune(Prune(ps, now, duration), now, duration) == Prune(ps, now, duration)
    decreases |ps|
  {
    if ps != [] {
      PruneIdempotent(ps[1..], now, duration);
      if InWindow(ps[0], now, duration) {
        var rest := Prune(ps[1..], now, duration);
        assert ([ps[0]] + rest)[1..] == rest;
      }
    }
  }

  /** A sample stamped `now` always survives, as the last element. */
  lemma NewestSurvives(ps: seq<TimedPoint>, p: Point, now: real, duration: real)
    requires duration >= 0.0
    ensures Prune(ps + [TimedPoint(p, now)], now, duration) == Prune(ps, now, duration) + [TimedPoint(p, now)]
  {
    PruneDistributes(ps, [TimedPoint(p, now)], now, duration);
    assert Prune([TimedPoint(p, now)], now, duration) == [TimedPoint(p, now)];
  }

  function PointsOf(ps: seq<TimedPoint>): (r: seq<Point>)
    ensures |r| == |ps| && forall i :: 0 <= i < |ps| ==> r[i] == ps[i].point
  {
    seq(|ps|, i requires 0 <= i < |ps| => ps[i].point)
  }

  /** The classifier's verdict: mean radius large enough and rotation of at least triggerAngle turns. */
  predicate Classifies(pts: seq<Point>, s: Store, measure: seq<Point> -> Measurement) {
    var m := measure(pts);
    m.avgRadius >= MinRadius(s) && Abs(TotalRotation(Bearings(pts, m))) >= TriggerAngle(s) * 2.0 * Pi
  }

  /** Whether checkSwirl fires on `window` with the cooldown flag `cooling`. */
  predicate Fires(window: seq<TimedPoint>, cooling: bool, s: Store, measure: seq<Point> -> Measurement) {
    !cooling && |window| >= MinPoints(s) && Classifies(PointsOf(window), s, measure)
  }

  /** A firing classifier has seen at least 2 * triggerAngle + 1 points. */
  lemma ClassifiesNeedsPoints(pts: seq<Point>, s: Store, measure: seq<Point> -> Measurement)
    requires Classifies(pts, s, measure)
    ensures |pts| >= 2
    ensures |pts| as real >= 2.0 * TriggerAngle(s) + 1.0
  {
    TriggerNeedsBearings(Bearings(pts, measure(pts)), TriggerAngle(s));
  }

  class SwirlDetector {
    var positions: seq<TimedPoint>
    var onCooldown: bool

    constructor ()
      ensures positions == [] && !onCooldown
    {
      positions := [];
      onCooldown := false;
    }

    /**
     * Appends the sample, prunes the window relative to `now`, then runs
     * checkSwirl; the result is the snapshot handed to onSwirl, if any.
     */
    method AddPoint(p: Point, now: real, s: Store, measure: seq<Point> -> Measurement)
      returns (emitted: Option<seq<Point>>)
      modifies this
      ensures var window := Prune(old(positions) + [TimedPoint(p, now)], now, WindowDuration(s));
        && (emitted.Some? <==> Fires(window, old(onCooldown), s, measure))
        && (emitted.Some? ==> emitted.value == PointsOf(window) && positions == [] && onCooldown)
        && (emitted.None? ==> positions == window && onCooldown == old(onCooldown))
      ensures forall q :: q in positions ==> now - q.time <= WindowDuration(s)
      ensures emitted.None? ==> |positions| > 0 && positions[|positions| - 1] == TimedPoint(p, now)
      ensures old(onCooldown) ==> emitted.None? && onCooldown
    {
      positions := positions + [TimedPoint(p, now)];
      NewestSurvives(old(positions), p, now, WindowDuration(s));
      positions := Prune(positions, now, WindowDuration(s));
      emitted := CheckSwirl(s, measure);
    }

    /** Fires only off cooldown, on at least minPoints samples, when the classifier agrees. */
    method CheckSwirl(s: Store, measure: seq<Point> -> Measurement) returns (emitted: Option<seq<Point>>)
      modifies this
      ensures emitted.Some? <==> Fires(old(positions), old(onCooldown), s, measure)
      ensures emitted.Some? ==> emitted.value == PointsOf(old(positions)) && positions == [] && onCooldown
      ensures emitted.Some? ==> |emitted.value| >= MinPoints(s) >= 10
      ensures emitted.None? ==> positions == old(positions) && onCooldown == old(onCooldown)
    {
      if onCooldown || |positions| < MinPoints(s) {
        return None;
      }
      var pts := PointsOf(positions);
      var m := measure(pts);
      if m.avgRadius < MinRadius(s) {
        return None;
      }
      var triggerAngleRad := TriggerAngle(s) * 2.0 * Pi;
      var totalAngle := AccumulateRotation(Bearings(pts, m));
      if Abs(totalAngle) >= triggerAngleRad {
        var capturedPts := pts;
        StartCooldown();
        emitted := Some(capturedPts);
      } else {
        emitted := None;
      }
    }

    /** Enters cooldown and empties the window. */
    method StartCooldown()
      modifies this
      ensures onCooldown && positions == []
    {
      onCooldown := true;
      positions := [];
    }

    /** The deferred reset scheduled by startCooldown, as an explicit event. */
    method CooldownExpired()
      modifies this
      ensures !onCooldown && positions == old(positions)
    {
      onCooldown := false;
    }
  }
}
