/** A reader for the path token lists the chart produces: the absolute
    move-to, line-to and elliptical-arc commands of section 8.3 of SVG 1.1.
    It is the independent view against which the wedge paths are checked. */
module SvgPath {
  import opened DonutModel

  datatype Option<T> = None | Some(value: T)

  datatype Command =
    | MoveTo(to: Point)
    | LineTo(to: Point)
    | ArcTo(rx: real, ry: real, rotation: real, largeArc: bool, sweep: bool, to: Point)

  /** An arc flag is the text "0" or "1"; a symbol and a number read the same
      once the tokens are joined with spaces. */
  function ReadFlag(t: Token): Option<bool>
  {
    match t
    case Sym(s) => if s == "0" then Some(false) else if s == "1" then Some(true) else None
    case Num(v) => if v == 0.0 then Some(false) else if v == 1.0 then Some(true) else None
  }

  function Prepend(c: Command, rest: Option<seq<Command>>): Option<seq<Command>>
  {
    if rest.Some? then Some([c] + rest.value) else None
  }

  /** The commands a token list spells, or None when it is not a well-formed
      sequence of M, L and A commands with their arguments. */
  function ReadPath(ts: seq<Token>): Option<seq<Command>>
  {
    ReadFrom(ts, 0)
  }

  /** The commands spelled by the tokens from index i on. */
  function ReadFrom(ts: seq<Token>, i: nat): Option<seq<Command>>
    requires i <= |ts|
    decreases |ts| - i
  {
    if i == |ts| then Some([])
    else if ts[i] == Sym("M") && i + 3 <= |ts| && ts[i + 1].Num? && ts[i + 2].Num? then
      Prepend(MoveTo(Point(ts[i + 1].v, ts[i + 2].v)), ReadFrom(ts, i + 3))
    else if ts[i] == Sym("L") && i + 3 <= |ts| && ts[i + 1].Num? && ts[i + 2].Num? then
      Prepend(LineTo(Point(ts[i + 1].v, ts[i + 2].v)), ReadFrom(ts, i + 3))
    else if ts[i] == Sym("A") && i + 8 <= |ts| && ts[i + 1].Num? && ts[i + 2].Num? && ts[i + 3].Num?
            && ReadFlag(ts[i + 4]).Some? && ReadFlag(ts[i + 5]).Some? && ts[i + 6].Num? && ts[i + 7].Num? then
      Prepend(ArcTo(ts[i + 1].v, ts[i + 2].v, ts[i + 3].v, ReadFlag(ts[i + 4]).value, ReadFlag(ts[i + 5]).value,
                    Point(ts[i + 6].v, ts[i + 7].v)),
              ReadFrom(ts, i + 8))
    else None
  }

  /** The point a command ends at. */
  function EndPoint(c: Command): Point
  {
    c.to
  }

  /** An outline is closed when it starts with a move-to and its last command
      comes back to that point. */
  predicate Closed(cmds: seq<Command>)
  {
    |cmds| >= 2 && cmds[0].MoveTo? && EndPoint(cmds[|cmds| - 1]) == cmds[0].to
  }
}
