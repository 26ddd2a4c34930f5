# Donut chart angle bookkeeping, in Dafny

This project models the donut chart component of a React application
(`src/components/DonutChart/index.tsx`). The chart draws `segments` wedges of
a ring. Each wedge has a draggable handle at its start boundary. Dragging a
handle moves the boundary that two neighbouring wedges share.

The model has five modules:

- `DonutModel` holds the value types. These are the records of
  `src/models/Donut.ts`: a segment record `Arc`, a straight line `Stick`, and
  a wedge path `ArcPath`. A path is a list of `Token`s, each a command letter
  or flag, or a number. `Polar` is the type of the polar-to-Cartesian
  conversion. Its trigonometry is not modelled: every descriptor takes it as
  a parameter, so every property holds for any such conversion.
- `SvgPath` is a reader for the absolute `M`, `L` and `A` commands of
  section 8.3 of SVG 1.1. It turns a token list into path commands. It is the
  independent view used to check the wedge paths.
- `ArcGeometry` holds the pure descriptors:
  - `describeArc`, the wedge path with its large-arc flag;
  - `arcCoordinates`, the connector line at the segment's middle angle;
  - `handlerCoordinates`, the handle line at a segment's start angle;
  - the label letter `index + 65`.
- `Segments` works on the segment store (`ArcsData`) as a sequence:
  - the initial equal partition of the circle;
  - the neighbour indices, which wrap around;
  - the fold of the pointer's `atan2` angle into a boundary angle;
  - the move of one boundary.
- `Chart` holds the component's state in class `DonutChart`:
  - `ArcsData`, an array of records updated in place;
  - the attributes of the mounted SVG groups and handles;
  - the two ref cells of the drag controller.

  Its methods are the mount, the mouse-down, mouse-move and mouse-up
  listeners, and the two repaint helpers. They keep one invariant: every
  mounted node shows what its record describes, every boundary is shared by
  its two segments, and every angle lies in [0, 360].

## Model

| member | source | states |
|---|---|---|
| `Segments.PrevIndex` | src/components/DonutChart/index.tsx:194-195 | the segment before k is below n and is k - 1, or n - 1 when k is 0 |
| `Segments.NextIndex` | src/components/DonutChart/index.tsx:209-212 | the handle after k is below n and is k + 1, or 0 when k is the last |
| `Segments.NeighbourIndicesAreModular` | src/components/DonutChart/index.tsx:194-195 | both neighbour indices are arithmetic modulo n: (k + n - 1) % n and (k + 1) % n |
| `Segments.PrevNextInverse` | src/components/DonutChart/index.tsx:204-212 | stepping back and forward around the circle undo each other |
| `Segments.FoldDegrees` | src/components/DonutChart/index.tsx:187-192 | the folded angle lies in [0, 360) and differs from d by 0 or one full turn |
| `Segments.FoldDegreesUnique` | src/components/DonutChart/index.tsx:187-192 | the folded angle is the one angle in [0, 360) a whole number of turns from d |
| `Segments.BoundaryAngle` | src/components/DonutChart/index.tsx:187-201 | the stored boundary 360 - folded lies in (0, 360] and equals -d or 360 - d |
| `Segments.BoundaryAngleExamples` | src/components/DonutChart/index.tsx:187-201 | pointer above gives 360, to the right gives 90, below gives 180 from either side |
| `Segments.InitialArc` | src/components/DonutChart/index.tsx:107-117 | each initial segment spans 360/n, and the last one ends at 360 |
| `Segments.InitialArcs` | src/components/DonutChart/index.tsx:107-117 | n segments centred at viewBox/2 with radius viewBox/2; segment i starts at 360/n * i and spans 360/n; each ends where the next starts; the first starts at 0 and the last ends at 360 |
| `Segments.InitialArcsOfSix` | src/components/DonutChart/index.tsx:107-117 | the six-segment chart starts its segments at 0, 60, 120, 180, 240 and 300 and ends at 360 |
| `Segments.TotalSweepTelescopes` | src/components/DonutChart/index.tsx:107-117 | when segments are chained end to start, their sweeps add up to last end minus first start |
| `Segments.InitialArcsCoverCircle` | src/components/DonutChart/index.tsx:107-117 | the sweeps of the initial partition add up to exactly 360 |
| `Segments.InitialArcsContiguous` | src/components/DonutChart/index.tsx:107-117 | in the initial partition every segment ends where the next one around the circle starts, the last included |
| `Segments.InitialArcsInRange` | src/components/DonutChart/index.tsx:107-117 | every initial angle is in [0, 360] |
| `Segments.MoveBoundary` | src/components/DonutChart/index.tsx:194-202 | segment k starts and segment prev(k) ends at the new angle; with two or more segments exactly those fields change; with one segment both land on it; every other segment is unchanged |
| `Segments.MoveBoundaryKeepsContiguous` | src/components/DonutChart/index.tsx:194-202 | moving a boundary keeps every boundary shared by its two segments |
| `Segments.MoveBoundaryKeepsRange` | src/components/DonutChart/index.tsx:194-202 | a boundary moved to an angle in [0, 360] keeps every angle in [0, 360] |
| `Segments.MoveBoundaryPastNeighbour` | src/components/DonutChart/index.tsx:194-202 | a drag may carry a boundary past its neighbour: boundary 2 of six dragged to 30 leaves segment 1 running from 60 to 30 |
| `ArcGeometry.ClockwiseSpan` | src/components/DonutChart/index.tsx:74-76 | the clockwise distance from start to end lies in [0, 360] and reaches end directly or after one turn |
| `ArcGeometry.LargeArcFlag` | src/components/DonutChart/index.tsx:30 | the flag is the text "0" or "1" |
| `ArcGeometry.LargeArcFlagOfUnwrapped` | src/components/DonutChart/index.tsx:30 | for a segment that does not wrap, the flag is "1" exactly when it spans more than 180 degrees |
| `ArcGeometry.LargeArcFlagOfWrapped` | src/components/DonutChart/index.tsx:30 | a wrapped segment always gets "0", including one whose clockwise span exceeds 180 |
| `ArcGeometry.LargeArcFlagExamples` | src/components/DonutChart/index.tsx:30 | a span of 180 gives "0", 181 gives "1", and the wrapped {300, 180} gives "0" with a span of 240 |
| `ArcGeometry.DescribeArc` | src/components/DonutChart/index.tsx:29-66 | the anchor point is the outer point at endAngle, and the path has 25 tokens |
| `ArcGeometry.ReadWedgeTokens` | src/components/DonutChart/index.tsx:38-64 | the token list reads as move-to, the outer arc, line-to, the inner arc (sweep 1), and line-to back to the first point |
| `ArcGeometry.DescribeArcOutline` | src/components/DonutChart/index.tsx:29-66 | the wedge path reads as a closed outline: move to the outer point at endAngle; outer arc of the radius with sweep 0 and the large-arc flag to startAngle; line in to radius - borderSize; inner arc with sweep 1 to endAngle; line back to the first point |
| `ArcGeometry.MidAngle` | src/components/DonutChart/index.tsx:74-76 | the connector angle is start plus half the clockwise span, and lies between start and start + 180 |
| `ArcGeometry.MidAngleOfWrappedExample` | src/components/DonutChart/index.tsx:74-76 | the wrapped segment {350, 10} has its connector at 360, while {10, 350} has it at 180 |
| `ArcGeometry.ArcCoordinates` | src/components/DonutChart/index.tsx:69-87 | both connector ends lie on the ray at MidAngle, one at radius - borderSize/2 and the other at radius + borderSize/2 |
| `ArcGeometry.HandlerCoordinates` | src/components/DonutChart/index.tsx:90-105 | the handle runs from the outer point at startAngle to the inner point (radius - borderSize) at startAngle |
| `ArcGeometry.HandleOnSharedEdge` | src/components/DonutChart/index.tsx:29-66 | a handle lies on the edge its two segments share: the radial edge of the segment it starts and the closing edge of the segment it ends |
| `ArcGeometry.Label` | src/components/DonutChart/index.tsx:295 | the label of segment i is the character i places after 'A', a capital letter for i < 26 |
| `ArcGeometry.LabelsDistinct` | src/components/DonutChart/index.tsx:295 | two segments get the same letter only when they are the same segment |
| `Chart.GroupOf` | src/components/DonutChart/index.tsx:131-156 | a repainted group shows the wedge path, the connector line, and the marker circle and text at the connector's outer end |
| `Chart.HandleOf` | src/components/DonutChart/index.tsx:158-176 | both lines of a repainted handle are the handle line at the segment's startAngle |
| `Chart.RepaintAfterMove` | src/components/DonutChart/index.tsx:219-226 | after boundary k moves, repainting handle k and the groups of segments prev(k) and k brings every mounted node back in line with the records |
| `Chart.DragKeepsInvariant` | src/components/DonutChart/index.tsx:194-226 | one drag step keeps the chart invariant: nodes in line, boundaries shared, angles in range |
| `Chart.DonutChart.State` | src/components/DonutChart/index.tsx:20-21 | the controller is dragging handle k exactly when the flag is set and the stored index is k |
| `Chart.DonutChart.constructor` | src/components/DonutChart/index.tsx:107-129 | the store is the initial partition, every node shows its record, and no drag is in progress |
| `Chart.DonutChart.SetGroupElementsPositions` | src/components/DonutChart/index.tsx:131-156 | only group index changes, to what the given record describes |
| `Chart.DonutChart.SetHandlersPositions` | src/components/DonutChart/index.tsx:158-176 | only handle index changes, to the handle line of the given record |
| `Chart.DonutChart.MouseDown` | src/components/DonutChart/index.tsx:329-332 | the controller is dragging the pressed handle, and the invariant holds |
| `Chart.DonutChart.MouseUp` | src/components/DonutChart/index.tsx:238-240 | the controller is idle, and the handle index is kept |
| `Chart.DonutChart.RotateBoundary` | src/components/DonutChart/index.tsx:194-202 | the store after the in-place update is MoveBoundary of the store before |
| `Chart.DonutChart.MouseMove` | src/components/DonutChart/index.tsx:178-227 | while idle nothing changes and nothing is probed; while dragging it does what Drag does |
| `Chart.DonutChart.Drag` | src/components/DonutChart/index.tsx:180-226 | the store becomes MoveBoundary to BoundaryAngle(d); the probed handles are prev(k), k and next(k); exactly handle k and the groups of prev(k) and k are repainted; the invariant holds |

## Left out

- `polarToCartesian` is imported from a helpers file that is not part of this model. It is a parameter of every descriptor, so no property depends on its trigonometry.
- `detectCollision` is not part of this model either. Its result is only logged, so the model keeps just the three handle indices whose boxes are compared (`probed`).
- The DOM and the console are left out: `getElementsByTagName`, `getBoundingClientRect` and the console calls. A mounted group or handle is modelled as the value of its attributes, and `setAttribute` as overwriting that value.
- React plumbing is left out:
  - `useRef`, and listener registration in `useEffect`;
  - JSX rendering beyond the initial attribute values;
  - ref arrays that grow on re-render;
  - `ArcsData` being rebuilt on re-render.
- `Math.atan2`, the window size and floating point are left out. A mouse move takes the `atan2` result in degrees, in [-180, 180], as its input. Angles are exact `real`s.
- The random fill colour is left out, and so is the number-to-text formatting of `join(" ")`. A path is the token list before joining.
- `Segments.InitialArcs`: the segment count is a `nat`. A fractional or negative count is not modelled.
- `ArcGeometry.Label` is limited to codes below 0xD800. `String.fromCharCode` takes its argument modulo 65536, which is not modelled.
- `ArcGeometry.LargeArcFlag` is modelled as written: it compares `endAngle - startAngle` with 180 and ignores wrap-around. A segment that wraps past 0 gets "0" whatever its clockwise span. `LargeArcFlagOfWrapped` and `LargeArcFlagExamples` state this.
- `ArcGeometry.DescribeArc` states only its anchor and length in its own contract. What the token list says is stated by `DescribeArcOutline` through the path reader.
- A drag may carry a boundary past its neighbour, as `MoveBoundaryPastNeighbour` shows. Nothing in the component prevents it, so the invariant keeps shared boundaries and the angle range, not their order.
