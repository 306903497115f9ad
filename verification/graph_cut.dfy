/**
 * CutGraph: count the points of a graph whose x lies above the upper cut and
 * those whose x lies below the lower cut, then remove that many points from
 * the end and from the front of the point list. A cut value below -997
 * switches that cut off. Only comparisons are made on x.
 */
module GraphCut {

  datatype Point = Point(x: real, y: real)

  /** A cut value below this sentinel means "no cut". */
  const Disabled: real := -997.0

  /** The number of points with x above `cutoff`. */
  function CountAbove(ps: seq<Point>, cutoff: real): (n: nat)
    ensures n <= |ps|
    decreases |ps|
  {
    if |ps| == 0 then 0
    else CountAbove(ps[..|ps| - 1], cutoff) + (if ps[|ps| - 1].x > cutoff then 1 else 0)
  }

  /** The number of points with x below `cutoffLow`. */
  function CountBelow(ps: seq<Point>, cutoffLow: real): (n: nat)
    ensures n <= |ps|
    decreases |ps|
  {
    if |ps| == 0 then 0
    else CountBelow(ps[..|ps| - 1], cutoffLow) + (if ps[|ps| - 1].x < cutoffLow then 1 else 0)
  }

  /** pointsToRemoveHigh: 0 when the upper cut is switched off. */
  function PointsToRemoveHigh(ps: seq<Point>, cutoff: real): (n: nat)
    ensures n <= |ps|
  {
    if cutoff < Disabled then 0 else CountAbove(ps, cutoff)
  }

  /** pointsToRemoveLow: 0 when the lower cut is switched off. */
  function PointsToRemoveLow(ps: seq<Point>, cutoffLow: real): (n: nat)
    ensures n <= |ps|
  {
    if cutoffLow < Disabled then 0 else CountBelow(ps, cutoffLow)
  }

  /**
   * The points left by CutGraph: the last pointsToRemoveHigh points go, then
   * the first pointsToRemoveLow of the rest (all of the rest when there are
   * fewer, since removing from an empty graph does nothing).
   */
  function CutPoints(ps: seq<Point>, cutoff: real, cutoffLow: real): seq<Point> {
    var len := |ps| - PointsToRemoveHigh(ps, cutoff);
    var low := PointsToRemoveLow(ps, cutoffLow);
    ps[(if low <= len then low else len)..len]
  }

  /** The survivors are a contiguous run of the original points, in their original order. */
  lemma CutPointsIsSlice(ps: seq<Point>, cutoff: real, cutoffLow: real)
    ensures exists a, b :: 0 <= a <= b <= |ps| && CutPoints(ps, cutoff, cutoffLow) == ps[a..b]
  {
    var len := |ps| - PointsToRemoveHigh(ps, cutoff);
    var low := PointsToRemoveLow(ps, cutoffLow);
    var a := if low <= len then low else len;
    assert CutPoints(ps, cutoff, cutoffLow) == ps[a..len];
  }

  /** With both cuts switched off the graph is unchanged. */
  lemma CutPointsDisabled(ps: seq<Point>, cutoff: real, cutoffLow: real)
    requires cutoff < Disabled && cutoffLow < Disabled
    ensures CutPoints(ps, cutoff, cutoffLow) == ps
  {
  }

  /** x is ascending. */
  predicate Sorted(ps: seq<Point>) {
    forall i, j :: 0 <= i < j < |ps| ==> ps[i].x <= ps[j].x
  }

  /** The point lies within the active cuts. */
  predicate InRange(p: Point, cutoff: real, cutoffLow: real) {
    (cutoffLow < Disabled || p.x >= cutoffLow) && (cutoff < Disabled || p.x <= cutoff)
  }

  /** The points within the active cuts, in order. */
  function KeepInRange(ps: seq<Point>, cutoff: real, cutoffLow: real): seq<Point>
    decreases |ps|
  {
    if |ps| == 0 then []
    else KeepInRange(ps[..|ps| - 1], cutoff, cutoffLow)
         + (if InRange(ps[|ps| - 1], cutoff, cutoffLow) then [ps[|ps| - 1]] else [])
  }

  /** On ascending x, the points above the cut are exactly the last CountAbove points. */
  lemma {:induction false} SortedAboveIsSuffix(ps: seq<Point>, cutoff: real)
    requires Sorted(ps)
    ensures forall i :: 0 <= i < |ps| ==> (ps[i].x > cutoff <==> i >= |ps| - CountAbove(ps, cutoff))
    decreases |ps|
  {
    if |ps| > 0 {
      var init := ps[..|ps| - 1];
      SortedAboveIsSuffix(init, cutoff);
      assert forall i :: 0 <= i < |init| ==> init[i] == ps[i];
    }
  }

  /** On ascending x, the points below the cut are exactly the first CountBelow points. */
  lemma {:induction false} SortedBelowIsPrefix(ps: seq<Point>, cutoffLow: real)
    requires Sorted(ps)
    ensures forall i :: 0 <= i < |ps| ==> (ps[i].x < cutoffLow <==> i < CountBelow(ps, cutoffLow))
    decreases |ps|
  {
    if |ps| > 0 {
      var init := ps[..|ps| - 1];
      SortedBelowIsPrefix(init, cutoffLow);
      assert forall i :: 0 <= i < |init| ==> init[i] == ps[i];
    }
  }

  /** When the points in range are exactly the indices a..b-1, keeping them gives the slice. */
  lemma {:induction false} KeepInRangeIsInterval(ps: seq<Point>, cutoff: real, cutoffLow: real, a: nat, b: nat)
    requires a <= b <= |ps|
    requires forall i :: 0 <= i < |ps| ==> (InRange(ps[i], cutoff, cutoffLow) <==> a <= i < b)
    ensures KeepInRange(ps, cutoff, cutoffLow) == ps[a..b]
    decreases |ps|
  {
    if |ps| > 0 {
      var n := |ps|;
      var init := ps[..n - 1];
      assert forall i :: 0 <= i < |init| ==> init[i] == ps[i];
      if b == n && a < b {
        KeepInRangeIsInterval(init, cutoff, cutoffLow, a, b - 1);
        assert ps[a..b] == init[a..b - 1] + [ps[n - 1]];
      } else if b == n {
        KeepInRangeIsInterval(init, cutoff, cutoffLow, n - 1, n - 1);
      } else {
        KeepInRangeIsInterval(init, cutoff, cutoffLow, a, b);
        assert ps[a..b] == init[a..b];
      }
    }
  }

  /** On ascending x, CutGraph keeps exactly the points with cutoffLow <= x <= cutoff (for the active cuts). */
  lemma CutPointsSortedKeepsInRange(ps: seq<Point>, cutoff: real, cutoffLow: real)
    requires Sorted(ps)
    ensures CutPoints(ps, cutoff, cutoffLow) == KeepInRange(ps, cutoff, cutoffLow)
  {
    var n := |ps|;
    var high := PointsToRemoveHigh(ps, cutoff);
    var low := PointsToRemoveLow(ps, cutoffLow);
    SortedAboveIsSuffix(ps, cutoff);
    SortedBelowIsPrefix(ps, cutoffLow);
    var a := if low <= n - high then low else n - high;
    forall i | 0 <= i < n
      ensures InRange(ps[i], cutoff, cutoffLow) <==> a <= i < n - high
    {
    }
    KeepInRangeIsInterval(ps, cutoff, cutoffLow, a, n - high);
  }

  /** A graph as an ordered list of points that can shrink in place. */
  class Graph {
    var points: seq<Point>

    constructor (points: seq<Point>)
      ensures this.points == points
    {
      this.points := points;
    }

    /** TGraph::RemovePoint: an index outside the graph is refused with -1 and changes nothing. */
    method RemovePoint(ipoint: int) returns (r: int)
      modifies this
      ensures 0 <= ipoint < |old(points)| ==> points == old(points)[..ipoint] + old(points)[ipoint + 1..] && r == ipoint
      ensures !(0 <= ipoint < |old(points)|) ==> points == old(points) && r == -1
    {
      if ipoint < 0 || ipoint >= |points| {
        return -1;
      }
      points := points[..ipoint] + points[ipoint + 1..];
      r := ipoint;
    }

    /** The counting loop of CutGraph: how many points lie above the upper and below the lower active cut. */
    method CountPointsToRemove(cutoff: real, cutoffLow: real) returns (high: nat, low: nat)
      ensures high == PointsToRemoveHigh(points, cutoff)
      ensures low == PointsToRemoveLow(points, cutoffLow)
    {
      var cutLow := true;
      var cutHigh := true;
      if cutoff < Disabled {
        cutHigh := false;
      }
      if cutoffLow < Disabled {
        cutLow := false;
      }
      high := 0;
      low := 0;
      var i := 0;
      while i < |points|
        invariant 0 <= i <= |points|
        invariant low == if cutLow then CountBelow(points[..i], cutoffLow) else 0
        invariant high == if cutHigh then CountAbove(points[..i], cutoff) else 0
      {
        assert points[..i + 1][..i] == points[..i];
        if cutLow && points[i].x < cutoffLow {
          low := low + 1;
        }
        if cutHigh && points[i].x > cutoff {
          high := high + 1;
        }
        i := i + 1;
      }
      assert points[..|points|] == points;
    }

    /** CutGraph: count, then remove from the end, then from the front. */
    method CutGraph(cutoff: real, cutoffLow: real)
      modifies this
      ensures points == CutPoints(old(points), cutoff, cutoffLow)
    {
      var pointsToRemoveHigh, pointsToRemoveLow := CountPointsToRemove(cutoff, cutoffLow);
      ghost var original := points;
      var k := 0;
      while k < pointsToRemoveHigh
        invariant 0 <= k <= pointsToRemoveHigh <= |original|
        invariant points == original[..|original| - k]
      {
        var _ := RemovePoint(|points| - 1);
        k := k + 1;
      }
      ghost var rest := points;
      k := 0;
      while k < pointsToRemoveLow
        invariant 0 <= k <= pointsToRemoveLow
        invariant points == rest[(if k <= |rest| then k else |rest|)..]
      {
        var _ := RemovePoint(0);
        k := k + 1;
      }
    }
  }
}
