/** Core Graphics value types, with CGFloat modelled as `real`. */
module Geometry {

  datatype Option<T> = None | Some(value: T)

  datatype Point = Point(x: real, y: real)

  datatype Size = Size(width: real, height: real)

  const Origin := Point(0.0, 0.0)

  /** A CGRect. The min/max accessors work on the standardized rectangle,
      so a negative width or height is measured from the other edge. */
  datatype Rect = Rect(origin: Point, size: Size) {

    function MinX(): real { if size.width >= 0.0 then origin.x else origin.x + size.width }
    function MaxX(): real { if size.width >= 0.0 then origin.x + size.width else origin.x }
    function MinY(): real { if size.height >= 0.0 then origin.y else origin.y + size.height }
    function MaxY(): real { if size.height >= 0.0 then origin.y + size.height else origin.y }
    /** CGRect.width and .height: the standardized (non-negative) extent. */
    function Width(): real { MaxX() - MinX() }
    function Height(): real { MaxY() - MinY() }
    function MidX(): real { origin.x + size.width / 2.0 }
    function MidY(): real { origin.y + size.height / 2.0 }

    /** CGRect.contains(_:): the minimum edges belong to the rectangle, the
        maximum edges do not, so an empty rectangle contains nothing. */
    predicate Contains(p: Point) {
      MinX() <= p.x < MaxX() && MinY() <= p.y < MaxY()
    }
  }

  /** A layer's frame in its superlayer, derived from its position and bounds
      with the default anchor point (0.5, 0.5) and no layer transform. */
  function FrameOf(position: Point, bounds: Rect): (r: Rect)
    ensures r.size == bounds.size && r.MidX() == position.x && r.MidY() == position.y
  {
    Rect(Point(position.x - bounds.size.width / 2.0, position.y - bounds.size.height / 2.0), bounds.size)
  }

  /** The commands a UIBezierPath records for a polyline. */
  datatype PathCommand = MoveTo(to: Point) | LineTo(to: Point) | Close

  /** A straight segment from one point to another, as it is drawn. */
  datatype Segment = Segment(from: Point, to: Point)

  /** The segments a path draws: `start` is the start of the current subpath
      (the target of `Close`) and `current` the pen position. A line from
      `current` to `current` never arises for paths that begin with `MoveTo`. */
  function Trace(path: seq<PathCommand>, start: Point, current: Point): seq<Segment>
  {
    if path == [] then []
    else match path[0]
      case MoveTo(p) => Trace(path[1..], p, p)
      case LineTo(p) => [Segment(current, p)] + Trace(path[1..], start, p)
      case Close => [Segment(current, start)] + Trace(path[1..], start, start)
  }

  /** The points a path visits through `MoveTo` and `LineTo`, in order. */
  function Vertices(path: seq<PathCommand>): seq<Point>
  {
    if path == [] then []
    else match path[0]
      case MoveTo(p) => [p] + Vertices(path[1..])
      case LineTo(p) => [p] + Vertices(path[1..])
      case Close => Vertices(path[1..])
  }
}
