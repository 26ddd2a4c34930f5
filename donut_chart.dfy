/** The donut chart component: the segment store (ArcsData), the attributes
    of the SVG nodes already mounted for each segment and each handle, and
    the two ref cells of the drag controller, updated in place by the
    mouse-down, mouse-move and mouse-up listeners. */
module Chart {
  import opened DonutModel
  import opened ArcGeometry
  import opened Segments

  /** The attributes of a segment's mounted group: the wedge path, the
      connector line, and the label marker circle and text, both placed at
      the connector's outer end. */
  datatype Group = Group(path: seq<Token>, line: Stick, circle: Point, text: Point)

  /** A handle's two mounted lines, the visible one and the one that takes
      the mouse-down; both are drawn at the same coordinates. */
  datatype HandleNodes = HandleNodes(line: Stick, grip: Stick)

  /** Every mounted node shows what its segment's record describes: group i
      the wedge and connector of segment i, handle i the line at segment i's
      startAngle. */
  predicate Shows(polar: Polar, borderSize: real, arcs: seq<Arc>, groups: seq<Group>, handles: seq<HandleNodes>)
  {
    && |groups| == |arcs| && |handles| == |arcs|
    && (forall i {:trigger NodesShow(polar, borderSize, arcs[i], groups[i], handles[i])} :: 0 <= i < |arcs| ==>
          NodesShow(polar, borderSize, arcs[i], groups[i], handles[i]))
  }

  /** A segment's group and the handle at its startAngle show that segment. */
  predicate NodesShow(polar: Polar, borderSize: real, arc: Arc, group: Group, handle: HandleNodes)
  {
    group == GroupOf(polar, borderSize, arc) && handle == HandleOf(polar, borderSize, arc)
  }

  /** Repainting handle k and the groups of segments k and PrevIndex(k) after
      boundary k moved brings every mounted node back in line with the
      records: the handle before k is drawn from its segment's startAngle,
      which the move did not touch. */
  lemma RepaintAfterMove(polar: Polar, borderSize: real, arcs: seq<Arc>, groups: seq<Group>,
                         handles: seq<HandleNodes>, k: nat, angle: real)
    requires k < |arcs|
    requires Shows(polar, borderSize, arcs, groups, handles)
    ensures var moved := MoveBoundary(arcs, k, angle);
            var p := PrevIndex(k, |arcs|);
            Shows(polar, borderSize, moved,
                  groups[p := GroupOf(polar, borderSize, moved[p])][k := GroupOf(polar, borderSize, moved[k])],
                  handles[k := HandleOf(polar, borderSize, moved[k])])
  {
    var moved := MoveBoundary(arcs, k, angle);
    var p := PrevIndex(k, |arcs|);
    var gs := groups[p := GroupOf(polar, borderSize, moved[p])][k := GroupOf(polar, borderSize, moved[k])];
    var hs := handles[k := HandleOf(polar, borderSize, moved[k])];
    forall i | 0 <= i < |arcs|
      ensures NodesShow(polar, borderSize, moved[i], gs[i], hs[i])
    {
      assert NodesShow(polar, borderSize, arcs[i], groups[i], handles[i]);
      if i == p && i != k {
        assert moved[i] == arcs[i].(endAngle := angle);
        assert HandlerCoordinates(polar, borderSize, moved[i]) == HandlerCoordinates(polar, borderSize, arcs[i]);
      }
    }
  }

  /** What holds of the chart between events: the mounted nodes show the
      records, the boundaries are shared, and every angle is in [0, 360]. */
  predicate ChartInvariant(polar: Polar, borderSize: real, arcs: seq<Arc>, groups: seq<Group>,
                           handles: seq<HandleNodes>)
  {
    Shows(polar, borderSize, arcs, groups, handles) && Contiguous(arcs) && AnglesInRange(arcs)
  }

  /** A drag step (move boundary k to an angle in [0, 360], repaint handle k
      and the groups beside it) keeps the chart invariant. */
  lemma DragKeepsInvariant(polar: Polar, borderSize: real, arcs: seq<Arc>, groups: seq<Group>,
                           handles: seq<HandleNodes>, k: nat, angle: real)
    requires k < |arcs| && 0.0 <= angle <= CircleUnits
    requires ChartInvariant(polar, borderSize, arcs, groups, handles)
    ensures var moved := MoveBoundary(arcs, k, angle);
            var p := PrevIndex(k, |arcs|);
            ChartInvariant(polar, borderSize, moved,
                           groups[p := GroupOf(polar, borderSize, moved[p])][k := GroupOf(polar, borderSize, moved[k])],
                           handles[k := HandleOf(polar, borderSize, moved[k])])
  {
    MoveBoundaryKeepsContiguous(arcs, k, angle);
    MoveBoundaryKeepsRange(arcs, k, angle);
    RepaintAfterMove(polar, borderSize, arcs, groups, handles, k, angle);
  }

  /** The controller's state as a value: idle, or dragging one boundary. */
  datatype DragState = Idle | Dragging(handle: nat)

  /** What the group of a segment shows. */
  function GroupOf(polar: Polar, borderSize: real, arc: Arc): (g: Group)
    ensures g.path == DescribeArc(polar, borderSize, arc).path
    ensures g.line == ArcCoordinates(polar, borderSize, arc)
    ensures g.circle == g.text == Point(g.line.x2, g.line.y2)
  {
    var stick := ArcCoordinates(polar, borderSize, arc);
    Group(DescribeArc(polar, borderSize, arc).path, stick, Point(stick.x2, stick.y2), Point(stick.x2, stick.y2))
  }

  /** What the handle at a segment's startAngle shows. */
  function HandleOf(polar: Polar, borderSize: real, arc: Arc): (h: HandleNodes)
    ensures h.line == h.grip == HandlerCoordinates(polar, borderSize, arc)
  {
    var stick := HandlerCoordinates(polar, borderSize, arc);
    HandleNodes(stick, stick)
  }

  class DonutChart {
    const polar: Polar
    const borderSize: real
    /** ArcsData: one record per segment, updated in place by a drag. */
    const arcs: array<Arc>
    /** The attributes of the mounted group of each segment (arcsRefs). */
    var groups: seq<Group>
    /** The attributes of the mounted handle of each boundary (handlersRefs). */
    var handles: seq<HandleNodes>
    /** shouldStartListenForMove */
    var dragging: bool
    /** currentHandlerAngle: the index of the boundary being dragged. */
    var activeHandle: nat

    ghost predicate Valid()
      reads this, arcs
    {
      && ChartInvariant(polar, borderSize, arcs[..], groups, handles)
      && (dragging ==> activeHandle < arcs.Length)
    }

    function State(): (s: DragState)
      reads this
      ensures s.Dragging? <==> dragging
      ensures s.Dragging? ==> s.handle == activeHandle
    {
      if dragging then Dragging(activeHandle) else Idle
    }

    /** Mounting the chart: ArcsData is the equal partition of the circle into
        `segments` parts, every group and handle is drawn from it, and no drag
        is in progress. */
    constructor (viewBox: real, segments: nat, borderSize: real, polar: Polar)
      ensures Valid()
      ensures fresh(arcs)
      ensures arcs[..] == InitialArcs(segments, viewBox)
      ensures this.polar == polar && this.borderSize == borderSize
      ensures State() == Idle && activeHandle == 0
    {
      var data := InitialArcs(segments, viewBox);
      this.polar := polar;
      this.borderSize := borderSize;
      arcs := new Arc[segments](i requires 0 <= i < segments => data[i]);
      groups := seq(segments, i requires 0 <= i < segments => GroupOf(polar, borderSize, data[i]));
      handles := seq(segments, i requires 0 <= i < segments => HandleOf(polar, borderSize, data[i]));
      dragging := false;
      activeHandle := 0;
      new;
      assert arcs[..] == data;
      InitialArcsContiguous(segments, viewBox);
      InitialArcsInRange(segments, viewBox);
    }

    /** setGroupElementsPositions: overwrite the attributes of segment
        index's group with what `arc` describes. */
    method SetGroupElementsPositions(index: nat, arc: Arc)
      requires index < |groups|
      modifies this`groups
      ensures groups == old(groups)[index := GroupOf(polar, borderSize, arc)]
    {
      groups := groups[index := GroupOf(polar, borderSize, arc)];
    }

    /** setHandlersPositions: overwrite both lines of handle index with the
        handle line at `arc`'s startAngle. */
    method SetHandlersPositions(index: nat, arc: Arc)
      requires index < |handles|
      modifies this`handles
      ensures handles == old(handles)[index := HandleOf(polar, borderSize, arc)]
    {
      handles := handles[index := HandleOf(polar, borderSize, arc)];
    }

    /** Mouse-down on handle `index`: remember the handle, then start
        listening for moves. */
    method MouseDown(index: nat)
      requires Valid()
      requires index < arcs.Length
      modifies this
      ensures Valid()
      ensures State() == Dragging(index)
    {
      activeHandle := index;
      dragging := true;
    }

    /** Mouse-up anywhere: stop listening for moves; the handle index stays. */
    method MouseUp()
      requires Valid()
      modifies this
      ensures Valid()
      ensures State() == Idle && activeHandle == old(activeHandle)
    {
      dragging := false;
    }

    /** The boundary update of a drag: segment k's startAngle becomes
        `angle`, then the previous segment's endAngle becomes segment k's
        startAngle, each record changed in place. */
    method RotateBoundary(k: nat, angle: real)
      requires k < arcs.Length
      modifies arcs
      ensures arcs[..] == MoveBoundary(old(arcs[..]), k, angle)
    {
      var prevArcIdx := PrevIndex(k, arcs.Length);
      arcs[k] := arcs[k].(startAngle := angle);
      arcs[prevArcIdx] := arcs[prevArcIdx].(endAngle := arcs[k].startAngle);
    }

    /** A mouse move whose atan2 angle, in degrees, is `degrees`: while no
        drag is in progress nothing happens and no handle is probed. */
    method MouseMove(degrees: real) returns (probed: seq<nat>)
      requires Valid()
      requires -180.0 <= degrees <= 180.0
      modifies arcs, this`groups, this`handles
      ensures Valid()
      ensures !dragging ==> probed == []
      ensures !dragging ==> arcs[..] == old(arcs[..]) && groups == old(groups) && handles == old(handles)
      ensures dragging ==>
                arcs[..] == MoveBoundary(old(arcs[..]), activeHandle, BoundaryAngle(degrees))
      ensures dragging ==>
                probed == [PrevIndex(activeHandle, arcs.Length), activeHandle, NextIndex(activeHandle, arcs.Length)]
      ensures dragging ==>
                var k, p := activeHandle, PrevIndex(activeHandle, arcs.Length);
                && handles == old(handles)[k := HandleOf(polar, borderSize, arcs[k])]
                && groups == old(groups)[p := GroupOf(polar, borderSize, arcs[p])][k := GroupOf(polar, borderSize, arcs[k])]
    {
      if dragging {
        probed := Drag(degrees);
      } else {
        probed := [];
      }
    }

    /** A move during a drag of boundary k = activeHandle: the boundary moves
        to BoundaryAngle(degrees) (segment k's start and the previous
        segment's end), `probed` lists the handles whose boxes are compared
        for collision (the one before k, k, and the one after k), and exactly
        handle k and the groups of the two segments beside it are repainted. */
    method Drag(degrees: real) returns (probed: seq<nat>)
      requires Valid() && dragging
      requires -180.0 <= degrees <= 180.0
      modifies arcs, this`groups, this`handles
      ensures Valid()
      ensures arcs[..] == MoveBoundary(old(arcs[..]), activeHandle, BoundaryAngle(degrees))
      ensures probed == [PrevIndex(activeHandle, arcs.Length), activeHandle, NextIndex(activeHandle, arcs.Length)]
      ensures var k, p := activeHandle, PrevIndex(activeHandle, arcs.Length);
              && handles == old(handles)[k := HandleOf(polar, borderSize, arcs[k])]
              && groups == old(groups)[p := GroupOf(polar, borderSize, arcs[p])][k := GroupOf(polar, borderSize, arcs[k])]
    {
      var handlerIdx := activeHandle;
      var degWithPi := FoldDegrees(degrees);
      var prevArcIdx := PrevIndex(handlerIdx, arcs.Length);
      var nextArcIdx := handlerIdx;
      ghost var before := arcs[..];

      var newAngle := CircleUnits - degWithPi;
      assert newAngle == BoundaryAngle(degrees);
      RotateBoundary(nextArcIdx, newAngle);

      probed := [PrevIndex(handlerIdx, |handles|), handlerIdx, NextIndex(handlerIdx, |handles|)];

      SetHandlersPositions(handlerIdx, arcs[nextArcIdx]);
      SetGroupElementsPositions(prevArcIdx, arcs[prevArcIdx]);
      SetGroupElementsPositions(nextArcIdx, arcs[nextArcIdx]);

      DragKeepsInvariant(polar, borderSize, before, old(groups), old(handles), handlerIdx, newAngle);
    }
  }

  /** The example chart of six segments: press handle 2, move the pointer to
      where atan2 gives -100 degrees, release. Segment 1 now ends and
      segment 2 starts at 100 degrees; the other segments are as mounted. */
  method DragScenario(polar: Polar)
  {
    var chart := new DonutChart(150.0, 6, 35.0, polar);
    var initial := chart.arcs[..];
    chart.MouseDown(2);
    var probed := chart.MouseMove(-100.0);
    chart.MouseUp();
    assert probed == [1, 2, 3];
    assert chart.arcs[1].endAngle == 100.0 && chart.arcs[2].startAngle == 100.0;
    assert chart.arcs[1].startAngle == 60.0 && chart.arcs[2].endAngle == 180.0;
    assert forall i :: 0 <= i < 6 && i != 1 && i != 2 ==> chart.arcs[i] == initial[i];
    assert chart.State() == Idle;
  }
}
