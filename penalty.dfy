/** The piecewise-linear penalty of geometry's `avoid_overlap` term: a table
    of (distance, value) points, linear between neighbours, and the last
    point's value outside the table. */
module Penalty {
  import opened Wrappers
  import opened Rods

  /** A (distance, value) point of the table. */
  type Point = (real, real)

  /** Distances strictly increase along the table, so no segment divides by zero. */
  predicate Increasing(points: seq<Point>) {
    forall j, k :: 0 <= j < k < |points| ==> points[j].0 < points[k].0
  }

  /** `this_value + a * (next_value - this_value)` with
      `a = (d - this) / (nxt - this)`. */
  function Between(p: Point, q: Point, d: real): real
    requires p.0 < q.0
  {
    var a := (d - p.0) / (q.0 - p.0);
    p.1 + a * (q.1 - p.1)
  }

  /** `retval` after the loop has looked at the first n segments: the value
      on the last of them whose closed interval holds d, if any. */
  function LastSegment(points: seq<Point>, d: real, n: nat): (r: Option<real>)
    requires n < |points| && Increasing(points)
    ensures r.None? <==> forall k :: 0 <= k < n ==> !(points[k].0 <= d <= points[k + 1].0)
  {
    if n == 0 then None
    else if points[n - 1].0 <= d <= points[n].0 then Some(Between(points[n - 1], points[n], d))
    else LastSegment(points, d, n - 1)
  }

  /** The interpolated value, or `points[-1][1]` when no segment holds d. */
  function Interpolate(points: seq<Point>, d: real): real
    requires |points| > 0 && Increasing(points)
  {
    match LastSegment(points, d, |points| - 1)
    case Some(v) => v
    case None => points[|points| - 1].1
  }

  /** The loop of `avoid_overlap`'s closure over consecutive points. */
  method InterpolateLoop(points: seq<Point>, d: real) returns (r: real)
    requires |points| > 0 && Increasing(points)
    ensures r == Interpolate(points, d)
  {
    var retval: Option<real> := None;
    var k: nat := 0;
    while k < |points| - 1
      invariant 0 <= k <= |points| - 1
      invariant retval == LastSegment(points, d, k)
    {
      var here, next := points[k], points[k + 1];
      if here.0 <= d <= next.0 {
        retval := Some(Between(here, next, d));
      }
      k := k + 1;
    }
    if retval.None? {
      return points[|points| - 1].1;
    }
    return retval.value;
  }

  /** The distance past which rods no longer count as overlapping:
      `1.05 * minimal_distance`. */
  const Cutoff: real := 1.05 * MinimalDistance

  const OverlapPoints: seq<Point> := [(0.0, 10000.0), (Cutoff, 0.0)]

  /** The value of an overlap term at distance d. */
  function OverlapPenalty(d: real): real {
    Interpolate(OverlapPoints, d)
  }

  /** `avoid_overlap`'s table lookup. */
  method OverlapPenaltyLoop(d: real) returns (r: real)
    ensures r == OverlapPenalty(d)
  {
    r := InterpolateLoop(OverlapPoints, d);
  }

  /** The penalty in closed form: linear from 10000 at distance 0 down to 0
      at the cutoff, and 0 outside. */
  lemma OverlapPenaltyShape(d: real)
    ensures Cutoff == 6.6675
    ensures 0.0 <= d <= Cutoff ==> OverlapPenalty(d) == 10000.0 - 10000.0 * (d / Cutoff)
    ensures d < 0.0 || d >= Cutoff ==> OverlapPenalty(d) == 0.0
  {
    assert Increasing(OverlapPoints);
    var seg := LastSegment(OverlapPoints, d, 1);
    if 0.0 <= d <= Cutoff {
      assert seg == Some(Between((0.0, 10000.0), (Cutoff, 0.0), d));
    } else {
      assert seg == None;
    }
  }

  lemma OverlapPenaltyAtZero()
    ensures OverlapPenalty(0.0) == 10000.0
  {
    OverlapPenaltyShape(0.0);
  }

  /** The penalty never leaves [0, 10000]. */
  lemma OverlapPenaltyBounds(d: real)
    ensures 0.0 <= OverlapPenalty(d) <= 10000.0
  {
    OverlapPenaltyShape(d);
  }

  /** Moving rods apart never raises the penalty. */
  lemma OverlapPenaltyMonotone(d1: real, d2: real)
    requires 0.0 <= d1 <= d2
    ensures OverlapPenalty(d2) <= OverlapPenalty(d1)
  {
    OverlapPenaltyShape(d1);
    OverlapPenaltyShape(d2);
  }
}
