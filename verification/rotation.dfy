/**
 * The cumulative signed rotation of the swirl classifier.
 *
 * Bearings (the `atan2` angles of consecutive points about their centroid)
 * come from floating-point code that is not modelled; given them, the
 * accumulation and the wrapping of each step into [-Pi, Pi] use only
 * addition and comparison and are modelled exactly over `real`.
 */
module Rotation {
  import opened Geometry

  /** The shortest decimal that rounds to Double.pi (whose exact value is 3.14159265358979311599...). */
  const Pi: real := 3.141592653589793

  /** What the first wrapping loop computes: subtract full turns while above Pi. */
  function WrapDown(da: real): real
    decreases (da - Pi).Floor
  {
    if da > Pi then WrapDown(da - 2.0 * Pi) else da
  }

  /** What the second wrapping loop computes: add full turns while below -Pi. */
  function WrapUp(da: real): real
    decreases (-Pi - da).Floor
  {
    if da < -Pi then WrapUp(da + 2.0 * Pi) else da
  }

  /** An angle step after both wrapping loops. */
  function Wrap(da: real): real {
    WrapUp(WrapDown(da))
  }

  lemma {:induction false} WrapDownRange(da: real)
    ensures WrapDown(da) <= Pi
    ensures da > Pi ==> WrapDown(da) > -Pi
    ensures da <= Pi ==> WrapDown(da) == da
    decreases (da - Pi).Floor
  {
    if da > Pi {
      WrapDownRange(da - 2.0 * Pi);
    }
  }

  lemma {:induction false} WrapUpRange(da: real)
    requires da <= Pi
    ensures -Pi <= WrapUp(da) <= Pi
    ensures da >= -Pi ==> WrapUp(da) == da
    decreases (-Pi - da).Floor
  {
    if da < -Pi {
      WrapUpRange(da + 2.0 * Pi);
    }
  }

  /** Every wrapped step lies in [-Pi, Pi], and an angle already there is left alone. */
  lemma WrapRange(da: real)
    ensures -Pi <= Wrap(da) <= Pi
    ensures -Pi <= da <= Pi ==> Wrap(da) == da
  {
    WrapDownRange(da);
    WrapUpRange(WrapDown(da));
  }

  lemma {:induction false} WrapDownTurns(da: real) returns (k: int)
    ensures k >= 0 && WrapDown(da) == da - (k as real) * (2.0 * Pi)
    decreases (da - Pi).Floor
  {
    if da > Pi {
      var k' := WrapDownTurns(da - 2.0 * Pi);
      k := k' + 1;
    } else {
      k := 0;
    }
  }

  lemma {:induction false} WrapUpTurns(da: real) returns (k: int)
    ensures k >= 0 && WrapUp(da) == da + (k as real) * (2.0 * Pi)
    decreases (-Pi - da).Floor
  {
    if da < -Pi {
      var k' := WrapUpTurns(da + 2.0 * Pi);
      k := k' + 1;
    } else {
      k := 0;
    }
  }

  /** Wrapping changes an angle only by a whole number of turns. */
  lemma WrapTurns(da: real) returns (k: int)
    ensures Wrap(da) == da + (k as real) * (2.0 * Pi)
  {
    var down := WrapDownTurns(da);
    var up := WrapUpTurns(WrapDown(da));
    k := up - down;
  }

  /** The two `while` loops that normalise one angle step. */
  method WrapAngle(da0: real) returns (da: real)
    ensures da == Wrap(da0)
    ensures -Pi <= da <= Pi
  {
    da := da0;
    while da > Pi
      invariant WrapDown(da) == WrapDown(da0)
      decreases (da - Pi).Floor
    {
      da := da - 2.0 * Pi;
    }
    while da < -Pi
      invariant WrapUp(da) == Wrap(da0)
      decreases (-Pi - da).Floor
    {
      da := da + 2.0 * Pi;
    }
    WrapRange(da0);
  }

  /** Sum of the wrapped differences of consecutive bearings. */
  function TotalRotation(bearings: seq<real>): real
    decreases |bearings|
  {
    if |bearings| < 2 then 0.0
    else
      var n := |bearings|;
      TotalRotation(bearings[..n - 1]) + Wrap(bearings[n - 1] - bearings[n - 2])
  }

  /** Each step contributes at most half a turn, so n bearings rotate by at most (n - 1) Pi. */
  lemma {:induction false} TotalRotationBound(bearings: seq<real>)
    ensures Abs(TotalRotation(bearings)) <= (if |bearings| < 2 then 0.0 else (|bearings| - 1) as real * Pi)
    decreases |bearings|
  {
    var n := |bearings|;
    if n >= 2 {
      TotalRotationBound(bearings[..n - 1]);
      WrapRange(bearings[n - 1] - bearings[n - 2]);
    }
  }

  /**
   * The `for` loop over consecutive point pairs, accumulating wrapped steps.
   * With fewer than two bearings there is no pair and the total stays 0.
   */
  method AccumulateRotation(bearings: seq<real>) returns (total: real)
    ensures total == TotalRotation(bearings)
    ensures |bearings| < 2 ==> total == 0.0
  {
    total := 0.0;
    if |bearings| < 2 {
      return;
    }
    var i := 1;
    while i < |bearings|
      invariant 1 <= i <= |bearings|
      invariant total == TotalRotation(bearings[..i])
    {
      var da := WrapAngle(bearings[i] - bearings[i - 1]);
      assert bearings[..i + 1][..i] == bearings[..i];
      total := total + da;
      i := i + 1;
    }
    assert bearings[..i] == bearings;
  }

  /**
   * A rotation of `turns` full turns needs at least 2 * turns + 1 bearings.
   */
  lemma {:induction false} TriggerNeedsBearings(bearings: seq<real>, turns: real)
    requires turns > 0.0
    requires Abs(TotalRotation(bearings)) >= turns * 2.0 * Pi
    ensures |bearings| >= 2
    ensures (|bearings| - 1) as real >= 2.0 * turns
  {
    TotalRotationBound(bearings);
  }
}
