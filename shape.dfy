/** Shapes with optional fill and stroke, and the bounding box of their
    geometry. The bezier path type, its bounding-box routine and the
    contents of paints and strokes belong to other parts of the engine:
    they are the type parameter `Bezier`, the identifiers inside `Paint`
    and `Stroke`, and the function parameter `pathBounds`. */
module Shape {
  import opened Wrappers
  import opened Geom

  /** A fill paint; an identifier stands for its contents. */
  datatype Paint = Paint(id: nat)

  /** A border stroke; an identifier stands for its contents. */
  datatype Stroke = Stroke(id: nat)

  /** A shape's outline. */
  datatype Geometry<Bezier> =
    | Line(point: Point)   // a line from the shape's position to `point`
    | Rect(size: Size)     // a rectangle with its origin in the top-left corner
    | Path(path: Bezier)   // a bezier path

  /** A geometry with an optional background fill and an optional border stroke. */
  datatype Shape<Bezier> =
    Shape(geometry: Geometry<Bezier>, fill: Option<Paint>, stroke: Option<Stroke>)

  /** Exactly one of fill and stroke is set. The type itself allows both or neither. */
  predicate HasFillXorStroke<Bezier>(shape: Shape<Bezier>) {
    shape.fill.Some? != shape.stroke.Some?
  }

  /** Fill the geometry without a stroke. */
  function Filled<Bezier>(g: Geometry<Bezier>, fill: Paint): (r: Shape<Bezier>)
    ensures r.geometry == g
    ensures r.fill == Some(fill) && r.stroke == None
    ensures HasFillXorStroke(r)
  {
    Shape(g, Some(fill), None)
  }

  /** Stroke the geometry without a fill. */
  function Stroked<Bezier>(g: Geometry<Bezier>, stroke: Stroke): (r: Shape<Bezier>)
    ensures r.geometry == g
    ensures r.fill == None && r.stroke == Some(stroke)
    ensures HasFillXorStroke(r)
  {
    Shape(g, None, Some(stroke))
  }

  /** The geometry's axis-aligned bounding box. Total: there is no error
      case. A line's end point is taken as the extent as it is, without
      clamping; a path's box is whatever `pathBounds` says. */
  function Bounds<Bezier>(g: Geometry<Bezier>, pathBounds: Bezier -> Size): (r: Size)
    ensures g.Line? ==> r.width == g.point.x && r.height == g.point.y
    ensures g.Rect? ==> r == g.size
    ensures g.Path? ==> r == pathBounds(g.path)
  {
    match g
    case Line(p) => Size(p.x, p.y)
    case Rect(s) => s
    case Path(q) => pathBounds(q)
  }

  /** The geometry whose bounds are proper extents: a line to a point with
      non-negative components, a rectangle of non-negative size, or a path
      whose external bounds are non-negative. */
  predicate HasExtentBounds<Bezier>(g: Geometry<Bezier>, pathBounds: Bezier -> Size) {
    match g
    case Line(p) => p.x >= 0 && p.y >= 0
    case Rect(s) => IsExtent(s)
    case Path(q) => IsExtent(pathBounds(q))
  }

  /** Bounds are a proper extent exactly when the geometry is one of the
      cases above; in particular a line drawn "backward" has a negative box. */
  lemma BoundsExtentIff<Bezier>(g: Geometry<Bezier>, pathBounds: Bezier -> Size)
    ensures IsExtent(Bounds(g, pathBounds)) <==> HasExtentBounds(g, pathBounds)
  {
  }
}
