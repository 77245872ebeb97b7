/**
 * The Tk canvas of the drawing application, seen as the ordered sequence of
 * items the application has created on it. Tk's stacking order is creation
 * order here (nothing raises or lowers items), so the last element of the
 * sequence is the most recently created item.
 */
module Canvas {
  import opened Wrappers

  /** A pixel position on the canvas, as delivered in a pointer event. */
  datatype Point = Point(x: int, y: int)

  /** A Tk font descriptor (family, size, weight). */
  datatype Font = Font(family: string, size: int, weight: string)

  /**
   * One item per canvas creation call. Style options that the call passes
   * explicitly are `Some`; an option left to Tk's default is `None`.
   */
  datatype Primitive =
    | Line(from: Point, to: Point, fill: Option<string>, width: Option<int>, smooth: Option<bool>)
    | Oval(corner1: Point, corner2: Point, fill: Option<string>, outline: Option<string>, width: Option<int>)
    | Rect(corner1: Point, corner2: Point, fill: Option<string>, outline: Option<string>, width: Option<int>)
    | Polygon(vertices: seq<Point>, fill: Option<string>, outline: Option<string>)
    | Text(at: Point, anchor: string, fill: Option<string>, text: string, font: Font)

  /** The coordinate list the creation call was given, as points. */
  function Coords(p: Primitive): seq<Point>
  {
    match p
    case Line(a, b, _, _, _) => [a, b]
    case Oval(a, b, _, _, _) => [a, b]
    case Rect(a, b, _, _, _) => [a, b]
    case Polygon(vs, _, _) => vs
    case Text(a, _, _, _, _) => [a]
  }

  /** `v` lies in the square of half-width `r` centred on `c`. */
  predicate WithinSquare(v: Point, c: Point, r: int)
  {
    c.x - r <= v.x <= c.x + r && c.y - r <= v.y <= c.y + r
  }
}
