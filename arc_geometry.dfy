/** The pure descriptors of the donut: the wedge path of a segment
    (describeArc), the connector line at the segment's middle
    (arcCoordinates), the boundary handle line (handlerCoordinates) and the
    letter of a segment's label. */
module ArcGeometry {
  import opened DonutModel
  import opened SvgPath

  /** How far one turns clockwise from `startAngle` to reach `endAngle`, for
      angles in [0, 360]: a segment with startAngle > endAngle wraps past 0. */
  function ClockwiseSpan(startAngle: real, endAngle: real): (span: real)
    ensures 0.0 <= startAngle <= CircleUnits && 0.0 <= endAngle <= CircleUnits ==>
              0.0 <= span <= CircleUnits
    ensures startAngle + span == endAngle || startAngle + span == endAngle + CircleUnits
  {
    if startAngle <= endAngle then endAngle - startAngle else endAngle - startAngle + CircleUnits
  }

  /** The large-arc flag of the outer arc: "0" when endAngle - startAngle is at
      most 180, "1" otherwise. */
  function LargeArcFlag(startAngle: real, endAngle: real): (flag: string)
    ensures flag == "0" || flag == "1"
  {
    if endAngle - startAngle <= 180.0 then "0" else "1"
  }

  /** For a segment that does not wrap, the flag is "1" exactly when the
      segment covers more than half the circle. */
  lemma LargeArcFlagOfUnwrapped(startAngle: real, endAngle: real)
    requires 0.0 <= startAngle <= endAngle <= CircleUnits
    ensures LargeArcFlag(startAngle, endAngle) == "1" <==> ClockwiseSpan(startAngle, endAngle) > 180.0
  {}

  /** A wrapped segment always gets "0", whatever its clockwise span. */
  lemma LargeArcFlagOfWrapped(startAngle: real, endAngle: real)
    requires 0.0 <= endAngle < startAngle <= CircleUnits
    ensures LargeArcFlag(startAngle, endAngle) == "0"
    ensures ClockwiseSpan(startAngle, endAngle) > 180.0 <==> startAngle - endAngle < 180.0
  {}

  /** A span of exactly 180 degrees draws the small arc, 181 the large one;
      the wrapped segment {300, 180} spans 240 degrees clockwise but is still
      flagged "0". */
  lemma LargeArcFlagExamples()
    ensures LargeArcFlag(0.0, 180.0) == "0" && LargeArcFlag(0.0, 181.0) == "1"
    ensures LargeArcFlag(300.0, 180.0) == "0" && ClockwiseSpan(300.0, 180.0) == 240.0
  {}

  /** The token list of a wedge whose outline visits the outer points o0, o1
      and the inner points i1, i0. */
  function WedgeTokens(o0: Point, o1: Point, i1: Point, i0: Point, outer: real, inner: real, flag: string)
    : seq<Token>
  {
    MoveTokens(o0) + (ArcTokens(outer, Sym(flag), Num(0.0), o1) + (LineTokens(i1)
      + (ArcTokens(inner, Num(0.0), Num(1.0), i0) + LineTokens(o0))))
  }

  /** "M x y" */
  function MoveTokens(p: Point): seq<Token>
  {
    [Sym("M"), Num(p.x), Num(p.y)]
  }

  /** "L x y" */
  function LineTokens(p: Point): seq<Token>
  {
    [Sym("L"), Num(p.x), Num(p.y)]
  }

  /** "A r r 0 largeArc sweep x y": a circular arc of radius r, no rotation. */
  function ArcTokens(r: real, largeArc: Token, sweep: Token, p: Point): seq<Token>
  {
    [Sym("A"), Num(r), Num(r), Num(0.0), largeArc, sweep, Num(p.x), Num(p.y)]
  }

  /** The wedge of a segment: move to the outer point at endAngle, arc
      (sweep 0) to the outer point at startAngle, line to the inner point at
      startAngle, arc (sweep 1) to the inner point at endAngle, line back to
      the first point. `point` is where the outline starts. */
  function DescribeArc(polar: Polar, borderSize: real, arc: Arc): (desc: ArcPath)
    ensures desc.point == polar(arc.x, arc.y, arc.radius, arc.endAngle)
    ensures |desc.path| == 25
  {
    var largeArcFlag := LargeArcFlag(arc.startAngle, arc.endAngle);
    var innerRadius := arc.radius - borderSize;
    var start := polar(arc.x, arc.y, arc.radius, arc.endAngle);
    var end := polar(arc.x, arc.y, arc.radius, arc.startAngle);
    var startLine := polar(arc.x, arc.y, innerRadius, arc.startAngle);
    var endLine := polar(arc.x, arc.y, innerRadius, arc.endAngle);
    ArcPath(WedgeTokens(start, end, startLine, endLine, arc.radius, innerRadius, largeArcFlag), start)
  }

  /** Read as path commands, a wedge's tokens are move-to o0, the outer arc
      to o1, line-to i1, the inner arc to i0, and line-to o0. */
  lemma ReadWedgeTokens(o0: Point, o1: Point, i1: Point, i0: Point, outer: real, inner: real, flag: string)
    requires flag == "0" || flag == "1"
    ensures ReadPath(WedgeTokens(o0, o1, i1, i0, outer, inner, flag)) == Some([
              MoveTo(o0), ArcTo(outer, outer, 0.0, flag == "1", false, o1), LineTo(i1),
              ArcTo(inner, inner, 0.0, false, true, i0), LineTo(o0)])
  {
    var ts := WedgeTokens(o0, o1, i1, i0, outer, inner, flag);
    var c0, c1, c2 := MoveTo(o0), ArcTo(outer, outer, 0.0, flag == "1", false, o1), LineTo(i1);
    var c3, c4 := ArcTo(inner, inner, 0.0, false, true, i0), LineTo(o0);
    WedgeVertices(o0, o1, i1, i0, outer, inner, flag);
    WedgeCommands(o0, o1, i1, i0, outer, inner, flag);
    WedgeArcParameters(o0, o1, i1, i0, outer, inner, flag);
    assert ReadFrom(ts, 22) == Some([c4]) by {
      assert ReadFrom(ts, 25) == Some([]);
      assert [c4] + [] == [c4];
    }
    assert ReadFrom(ts, 14) == Some([c3, c4]) by {
      assert [c3] + [c4] == [c3, c4];
    }
    assert ReadFrom(ts, 11) == Some([c2, c3, c4]) by {
      assert [c2] + [c3, c4] == [c2, c3, c4];
    }
    assert ReadFrom(ts, 3) == Some([c1, c2, c3, c4]) by {
      assert [c1] + [c2, c3, c4] == [c1, c2, c3, c4];
    }
    assert ReadFrom(ts, 0) == Some([c0, c1, c2, c3, c4]) by {
      assert [c0] + [c1, c2, c3, c4] == [c0, c1, c2, c3, c4];
    }
  }

  /** Read as SVG path commands, a wedge's token list is the closed outline of
      an annulus sector: the outer arc from endAngle back to startAngle with
      sweep 0 and the large-arc flag, the radial edge at startAngle, the inner
      arc (radius - borderSize) forward to endAngle with sweep 1, and the
      radial edge at endAngle back to the start. */
  lemma DescribeArcOutline(polar: Polar, borderSize: real, arc: Arc)
    ensures var outer := arc.radius;
            var inner := arc.radius - borderSize;
            ReadPath(DescribeArc(polar, borderSize, arc).path) == Some([
              MoveTo(polar(arc.x, arc.y, outer, arc.endAngle)),
              ArcTo(outer, outer, 0.0, arc.endAngle - arc.startAngle > 180.0, false,
                    polar(arc.x, arc.y, outer, arc.startAngle)),
              LineTo(polar(arc.x, arc.y, inner, arc.startAngle)),
              ArcTo(inner, inner, 0.0, false, true, polar(arc.x, arc.y, inner, arc.endAngle)),
              LineTo(polar(arc.x, arc.y, outer, arc.endAngle))])
    ensures Closed(ReadPath(DescribeArc(polar, borderSize, arc).path).value)
  {
    var outer := arc.radius;
    var inner := arc.radius - borderSize;
    var flag := LargeArcFlag(arc.startAngle, arc.endAngle);
    var o0 := polar(arc.x, arc.y, outer, arc.endAngle);
    var o1 := polar(arc.x, arc.y, outer, arc.startAngle);
    var i1 := polar(arc.x, arc.y, inner, arc.startAngle);
    var i0 := polar(arc.x, arc.y, inner, arc.endAngle);
    assert DescribeArc(polar, borderSize, arc).path == WedgeTokens(o0, o1, i1, i0, outer, inner, flag);
    assert (flag == "1") == (arc.endAngle - arc.startAngle > 180.0);
    ReadWedgeTokens(o0, o1, i1, i0, outer, inner, flag);
  }

  /** The angle of a segment's connector: halfway between its boundaries,
      adding a full turn when the segment wraps past 0. */
  function MidAngle(startAngle: real, endAngle: real): (mid: real)
    ensures 0.0 <= startAngle <= CircleUnits && 0.0 <= endAngle <= CircleUnits ==>
              mid == startAngle + ClockwiseSpan(startAngle, endAngle) / 2.0
    ensures 0.0 <= startAngle <= CircleUnits && 0.0 <= endAngle <= CircleUnits ==>
              startAngle <= mid <= startAngle + CircleUnits / 2.0
  {
    (if startAngle > endAngle
     then startAngle + endAngle + CircleUnits
     else startAngle + endAngle) / 2.0
  }

  /** The segment {350, 10} has its connector at 360 (straight up), not at 180. */
  lemma MidAngleOfWrappedExample()
    ensures MidAngle(350.0, 10.0) == 360.0
    ensures MidAngle(10.0, 350.0) == 180.0
  {}

  /** The connector line of a segment: both ends on the ray at the segment's
      MidAngle, the first at mid-band (radius - borderSize / 2) and the second
      (where the label marker sits) outside the donut (radius + borderSize / 2). */
  function ArcCoordinates(polar: Polar, borderSize: real, arc: Arc): (stick: Stick)
    ensures Point(stick.x1, stick.y1)
              == polar(arc.x, arc.y, arc.radius - borderSize / 2.0, MidAngle(arc.startAngle, arc.endAngle))
    ensures Point(stick.x2, stick.y2)
              == polar(arc.x, arc.y, arc.radius + borderSize / 2.0, MidAngle(arc.startAngle, arc.endAngle))
  {
    var angle := MidAngle(arc.startAngle, arc.endAngle);
    var p1 := polar(arc.x, arc.y, arc.radius - borderSize / 2.0, angle);
    var p2 := polar(arc.x, arc.y, arc.radius + borderSize / 2.0, angle);
    Stick(p1.x, p1.y, p2.x, p2.y)
  }

  /** The handle line of the boundary at a segment's startAngle, from the
      outer edge (radius) to the inner edge (radius - borderSize). It depends
      on nothing but the centre, the radius and startAngle. */
  function HandlerCoordinates(polar: Polar, borderSize: real, arc: Arc): (stick: Stick)
    ensures Point(stick.x1, stick.y1) == polar(arc.x, arc.y, arc.radius, arc.startAngle)
    ensures Point(stick.x2, stick.y2) == polar(arc.x, arc.y, arc.radius - borderSize, arc.startAngle)
  {
    var p1 := polar(arc.x, arc.y, arc.radius, arc.startAngle);
    var p2 := polar(arc.x, arc.y, arc.radius - borderSize, arc.startAngle);
    Stick(p1.x, p1.y, p2.x, p2.y)
  }

  /** A handle sits on the edge the two segments beside it share: it is the
      radial edge from the outer arc to the inner arc in the path of the
      segment it starts, and the edge joining the inner arc back to the
      outline's start in the path of the segment it ends. */
  lemma HandleOnSharedEdge(polar: Polar, borderSize: real, before: Arc, after: Arc)
    requires before.x == after.x && before.y == after.y && before.radius == after.radius
    requires before.endAngle == after.startAngle
    ensures var h := HandlerCoordinates(polar, borderSize, after);
            var pa := DescribeArc(polar, borderSize, after).path;
            var pb := DescribeArc(polar, borderSize, before).path;
            && Num(h.x1) == pa[9] == pb[1] && Num(h.y1) == pa[10] == pb[2]
            && Num(h.x2) == pa[12] == pb[20] && Num(h.y2) == pa[13] == pb[21]
  {
    var inner := after.radius - borderSize;
    var flagA, flagB := LargeArcFlag(after.startAngle, after.endAngle), LargeArcFlag(before.startAngle, before.endAngle);
    var o, i := polar(after.x, after.y, after.radius, after.startAngle), polar(after.x, after.y, inner, after.startAngle);
    WedgeVertices(polar(after.x, after.y, after.radius, after.endAngle), o, i,
                  polar(after.x, after.y, inner, after.endAngle), after.radius, inner, flagA);
    WedgeVertices(polar(before.x, before.y, before.radius, before.endAngle),
                  polar(before.x, before.y, before.radius, before.startAngle),
                  polar(before.x, before.y, inner, before.startAngle), i, before.radius, inner, flagB);
  }

  /** Where the command letters sit in a wedge's tokens. */
  lemma WedgeCommands(o0: Point, o1: Point, i1: Point, i0: Point, outer: real, inner: real, flag: string)
    ensures var ts := WedgeTokens(o0, o1, i1, i0, outer, inner, flag);
            && |ts| == 25
            && ts[0] == Sym("M") && ts[3] == Sym("A") && ts[11] == Sym("L") && ts[14] == Sym("A") && ts[22] == Sym("L")
            && ts[23] == Num(o0.x) && ts[24] == Num(o0.y)
  {}

  /** Where the radii and flags of the two arcs sit in a wedge's tokens. */
  lemma WedgeArcParameters(o0: Point, o1: Point, i1: Point, i0: Point, outer: real, inner: real, flag: string)
    ensures var ts := WedgeTokens(o0, o1, i1, i0, outer, inner, flag);
            && ts[4] == ts[5] == Num(outer) && ts[6] == Num(0.0) && ts[7] == Sym(flag) && ts[8] == Num(0.0)
            && ts[15] == ts[16] == Num(inner) && ts[17] == ts[18] == Num(0.0) && ts[19] == Num(1.0)
  {}

  /** Where the coordinates of the four vertices sit in a wedge's tokens. */
  lemma WedgeVertices(o0: Point, o1: Point, i1: Point, i0: Point, outer: real, inner: real, flag: string)
    ensures var ts := WedgeTokens(o0, o1, i1, i0, outer, inner, flag);
            && ts[1] == Num(o0.x) && ts[2] == Num(o0.y) && ts[9] == Num(o1.x) && ts[10] == Num(o1.y)
            && ts[12] == Num(i1.x) && ts[13] == Num(i1.y) && ts[20] == Num(i0.x) && ts[21] == Num(i0.y)
  {}

  /** The letter on a segment's label marker: the character with code
      index + 65, so A, B, C, ... */
  function Label(index: nat): (c: char)
    requires index + 65 < 0xD800
    ensures c as int - 'A' as int == index
    ensures index < 26 ==> 'A' <= c <= 'Z'
  {
    (index + 65) as char
  }

  /** Different segments get different letters. */
  lemma LabelsDistinct(i: nat, j: nat)
    requires i + 65 < 0xD800 && j + 65 < 0xD800
    ensures Label(i) == Label(j) <==> i == j
  {}
}
