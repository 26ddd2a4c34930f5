/** Value types of the donut chart: the records of src/models/Donut.ts, the
    tokens of a wedge's path, and the polar-to-Cartesian conversion that the
    chart takes from its helpers. */
module DonutModel {

  /** Degrees in a full turn (CIRCLE_UNITS). */
  const CircleUnits: real := 360.0

  datatype Point = Point(x: real, y: real)

  /** StickProps: a straight line from (x1, y1) to (x2, y2). */
  datatype Stick = Stick(x1: real, y1: real, x2: real, y2: real)

  /** SVGElementProps: one segment of the donut, centred at (x, y), with outer
      radius `radius`, covering the angles from startAngle to endAngle
      (degrees, clockwise from 12 o'clock). */
  datatype Arc = Arc(x: real, y: real, radius: real, startAngle: real, endAngle: real)

  /** One entry of a path's token list before it is joined with spaces:
      a command letter or flag written as text, or a number. */
  datatype Token = Sym(s: string) | Num(v: real)

  /** ArcProps: the path of a wedge and the point where its outline starts. */
  datatype ArcPath = ArcPath(path: seq<Token>, point: Point)

  /** polarToCartesian(cx, cy, r, angle): the point at distance r from
      (cx, cy) in the direction `angle`. Its trigonometry is not modelled;
      every descriptor takes the conversion as a parameter. */
  type Polar = (real, real, real, real) -> Point
}
