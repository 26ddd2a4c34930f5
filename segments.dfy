/** The angle bookkeeping of the segment store: the equal partition the chart
    starts from, the neighbour indices around the circle, the fold of a
    pointer's atan2 angle into a boundary angle, and the move of one boundary,
    all as functions on the sequence of segments. */
module Segments {
  import opened DonutModel

  /** The segment before segment k around the circle: k - 1, or the last
      segment when k is 0. The same index names the handle before handle k. */
  function PrevIndex(k: nat, n: nat): (p: nat)
    requires k < n
    ensures p < n
    ensures p + 1 == k || p + 1 == k + n
  {
    if k == 0 then n - 1 else k - 1
  }

  /** The handle after handle k: k + 1, or the first handle when k is the last. */
  function NextIndex(k: nat, n: nat): (q: nat)
    requires k < n
    ensures q < n
    ensures q == k + 1 || q + n == k + 1
  {
    if k == n - 1 then 0 else k + 1
  }

  /** a mod n for 0 <= a < 2n: a itself below n, a - n from n on. */
  lemma ModOfOneTurn(a: nat, n: nat)
    requires 0 < n && a < 2 * n
    ensures a % n == if a < n then a else a - n
  {
    if a < n {
      assert a == 0 * n + a;
    } else {
      assert a == 1 * n + (a - n);
    }
  }

  /** The wrap-around at index 0 and at index n - 1 is arithmetic modulo n. */
  lemma NeighbourIndicesAreModular(k: nat, n: nat)
    requires k < n
    ensures PrevIndex(k, n) == (k + n - 1) % n
    ensures NextIndex(k, n) == (k + 1) % n
  {
    ModOfOneTurn(k + n - 1, n);
    ModOfOneTurn(k + 1, n);
  }

  /** Stepping back and forward around the circle undo each other. */
  lemma PrevNextInverse(k: nat, n: nat)
    requires k < n
    ensures NextIndex(PrevIndex(k, n), n) == k
    ensures PrevIndex(NextIndex(k, n), n) == k
  {}

  function Abs(x: real): real
  {
    if x < 0.0 then -x else x
  }

  /** Folds an atan2 result in degrees, d in [-180, 180], into [0, 360): a
      negative d becomes |-360 - d|. The result is the one angle in [0, 360)
      that differs from d by a whole number of turns. */
  function FoldDegrees(d: real): (folded: real)
    requires -180.0 <= d <= 180.0
    ensures 0.0 <= folded < CircleUnits
    ensures folded == d || folded == d + CircleUnits
  {
    if d < 0.0 then Abs(-CircleUnits - d) else d
  }

  /** No other angle in [0, 360) is a whole number of turns away from d. */
  lemma FoldDegreesUnique(d: real, turns: int)
    requires -180.0 <= d <= 180.0
    requires 0.0 <= d + (turns as real) * CircleUnits < CircleUnits
    ensures FoldDegrees(d) == d + (turns as real) * CircleUnits
  {}

  /** The boundary angle a drag stores: 360 minus the folded angle. It lies in
      (0, 360] and is -d up to whole turns (atan2 of the centre-minus-pointer
      offset measures the other way round from the drawing's angles). */
  function BoundaryAngle(d: real): (angle: real)
    requires -180.0 <= d <= 180.0
    ensures 0.0 < angle <= CircleUnits
    ensures angle == -d || angle == CircleUnits - d
  {
    CircleUnits - FoldDegrees(d)
  }

  /** A pointer straight above the centre (d = 0) gives boundary 360, one to
      the right (d = -90) gives 90, one straight below (d = 180) gives 180. */
  lemma BoundaryAngleExamples()
    ensures BoundaryAngle(0.0) == 360.0 && BoundaryAngle(-90.0) == 90.0
    ensures BoundaryAngle(180.0) == 180.0 && BoundaryAngle(-180.0) == 180.0
  {}

  /** Segment i of the initial equal partition of the circle into n parts. */
  function InitialArc(n: nat, viewBox: real, i: nat): (a: Arc)
    requires i < n
    ensures a.endAngle - a.startAngle == CircleUnits / (n as real)
    ensures i + 1 == n ==> a.endAngle == CircleUnits
  {
    var avgAngle := CircleUnits / (n as real);
    Arc(viewBox / 2.0, viewBox / 2.0, viewBox / 2.0, avgAngle * (i as real), avgAngle * ((i + 1) as real))
  }

  /** ArcsData as first built: `segments` equal segments centred in the view
      box with radius viewBox / 2; segment i covers [360/n * i, 360/n * (i+1)],
      so the first starts at 0, the last ends at 360, and each one ends where
      the next one starts. */
  function InitialArcs(segments: nat, viewBox: real): (s: seq<Arc>)
    ensures |s| == segments
    ensures forall i :: 0 <= i < |s| ==>
              s[i].x == viewBox / 2.0 && s[i].y == viewBox / 2.0 && s[i].radius == viewBox / 2.0
    ensures forall i :: 0 <= i < |s| ==>
              s[i].startAngle == CircleUnits / (segments as real) * (i as real)
    ensures forall i :: 0 <= i < |s| ==>
              s[i].endAngle - s[i].startAngle == CircleUnits / (segments as real)
    ensures forall i :: 0 <= i < |s| - 1 ==> s[i].endAngle == s[i + 1].startAngle
    ensures segments > 0 ==> s[0].startAngle == 0.0 && s[segments - 1].endAngle == CircleUnits
  {
    seq(segments, i requires 0 <= i < segments => InitialArc(segments, viewBox, i))
  }

  /** The example chart's six segments start at 0, 60, 120, 180, 240 and 300. */
  lemma InitialArcsOfSix()
    ensures var s := InitialArcs(6, 150.0);
            && s[0].startAngle == 0.0 && s[1].startAngle == 60.0 && s[2].startAngle == 120.0
            && s[3].startAngle == 180.0 && s[4].startAngle == 240.0 && s[5].startAngle == 300.0
            && s[5].endAngle == 360.0
  {}

  /** The sum of the segments' sweeps, endAngle - startAngle. */
  function TotalSweep(s: seq<Arc>): real
  {
    if s == [] then 0.0 else (s[0].endAngle - s[0].startAngle) + TotalSweep(s[1..])
  }

  /** When each segment ends where the next starts, the sweeps add up to the
      distance from the first start to the last end. */
  lemma {:induction false} TotalSweepTelescopes(s: seq<Arc>)
    requires |s| > 0
    requires forall i :: 0 <= i < |s| - 1 ==> s[i].endAngle == s[i + 1].startAngle
    ensures TotalSweep(s) == s[|s| - 1].endAngle - s[0].startAngle
  {
    if |s| > 1 {
      TotalSweepTelescopes(s[1..]);
    }
  }

  /** The initial segments cover the circle exactly once. */
  lemma InitialArcsCoverCircle(segments: nat, viewBox: real)
    requires segments > 0
    ensures TotalSweep(InitialArcs(segments, viewBox)) == CircleUnits
  {
    TotalSweepTelescopes(InitialArcs(segments, viewBox));
  }

  /** Two angles in [0, 360] that name the same direction. */
  predicate SameDirection(a: real, b: real)
  {
    a == b || a == b + CircleUnits || b == a + CircleUnits
  }

  /** Every segment ends where the next one around the circle starts: the
      boundaries leave no gap and no overlap. */
  predicate Contiguous(s: seq<Arc>)
  {
    forall i {:trigger EndsWhereNextStarts(s, i)} :: 0 <= i < |s| ==> EndsWhereNextStarts(s, i)
  }

  /** Segment i ends in the direction where the next segment starts. */
  predicate EndsWhereNextStarts(s: seq<Arc>, i: nat)
    requires i < |s|
  {
    SameDirection(s[i].endAngle, s[NextIndex(i, |s|)].startAngle)
  }

  /** Every boundary angle is in [0, 360]. */
  predicate AnglesInRange(s: seq<Arc>)
  {
    forall i :: 0 <= i < |s| ==>
      0.0 <= s[i].startAngle <= CircleUnits && 0.0 <= s[i].endAngle <= CircleUnits
  }

  lemma InitialArcsContiguous(segments: nat, viewBox: real)
    ensures Contiguous(InitialArcs(segments, viewBox))
  {
    var s := InitialArcs(segments, viewBox);
    forall i | 0 <= i < |s|
      ensures EndsWhereNextStarts(s, i)
    {
      if i == |s| - 1 {
        assert s[NextIndex(i, |s|)] == s[0];
      }
    }
  }

  lemma InitialArcsInRange(segments: nat, viewBox: real)
    ensures AnglesInRange(InitialArcs(segments, viewBox))
  {
    var s := InitialArcs(segments, viewBox);
    forall i | 0 <= i < |s|
      ensures 0.0 <= s[i].startAngle <= CircleUnits && 0.0 <= s[i].endAngle <= CircleUnits
    {
      ShareOfCircle(segments, i);
      ShareOfCircle(segments, i + 1);
    }
  }

  /** j of n equal shares of the circle make an angle in [0, 360]. */
  lemma ShareOfCircle(n: nat, j: nat)
    requires j <= n && n > 0
    ensures 0.0 <= CircleUnits / (n as real) * (j as real) <= CircleUnits
  {
    var avg := CircleUnits / (n as real);
    assert avg * (n as real) == CircleUnits;
    assert avg * (j as real) <= avg * (n as real);
  }

  /** Dragging boundary k to `angle`: segment k's startAngle becomes angle,
      then the previous segment's endAngle is set to segment k's startAngle.
      The two segments beside boundary k share the new angle, and nothing else
      changes; with a single segment both writes hit it. */
  function MoveBoundary(s: seq<Arc>, k: nat, angle: real): (r: seq<Arc>)
    requires k < |s|
    ensures |r| == |s|
    ensures r[k].startAngle == angle && r[PrevIndex(k, |s|)].endAngle == angle
    ensures PrevIndex(k, |s|) != k ==>
              r[k] == s[k].(startAngle := angle) && r[PrevIndex(k, |s|)] == s[PrevIndex(k, |s|)].(endAngle := angle)
    ensures PrevIndex(k, |s|) == k ==> r[k] == s[k].(startAngle := angle, endAngle := angle)
    ensures forall i :: 0 <= i < |s| && i != k && i != PrevIndex(k, |s|) ==> r[i] == s[i]
  {
    var p := PrevIndex(k, |s|);
    var moved := s[k := s[k].(startAngle := angle)];
    moved[p := moved[p].(endAngle := moved[k].startAngle)]
  }

  /** Moving one boundary keeps every boundary shared by its two segments:
      the moved one because both sides get the new angle, the others because
      they are not touched. */
  lemma MoveBoundaryKeepsContiguous(s: seq<Arc>, k: nat, angle: real)
    requires k < |s|
    requires Contiguous(s)
    ensures Contiguous(MoveBoundary(s, k, angle))
  {
    var r := MoveBoundary(s, k, angle);
    var n := |s|;
    var p := PrevIndex(k, n);
    forall i | 0 <= i < n
      ensures EndsWhereNextStarts(r, i)
    {
      var j := NextIndex(i, n);
      PrevNextInverse(i, n);
      PrevNextInverse(k, n);
      if j == k {
        assert i == p;
      } else {
        assert EndsWhereNextStarts(s, i);
        assert i != p;
        assert r[i].endAngle == s[i].endAngle;
        assert r[j].startAngle == s[j].startAngle;
      }
    }
  }

  lemma MoveBoundaryKeepsRange(s: seq<Arc>, k: nat, angle: real)
    requires k < |s|
    requires AnglesInRange(s)
    requires 0.0 <= angle <= CircleUnits
    ensures AnglesInRange(MoveBoundary(s, k, angle))
  {}

  /** A drag does not keep the boundaries in order: in the six-segment chart,
      dragging boundary 2 back to 30 degrees leaves segment 1 running from 60
      to 30, a segment that now wraps almost the whole circle. */
  lemma MoveBoundaryPastNeighbour()
    ensures var r := MoveBoundary(InitialArcs(6, 150.0), 2, 30.0);
            r[1].startAngle == 60.0 && r[1].endAngle == 30.0 && r[2].startAngle == 30.0
            && r[2].endAngle == 180.0
  {}
}
