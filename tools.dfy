/**
 * What a press in a shape mode creates: the starting geometry of each
 * shape class and the paint it gets from the pen. Both application
 * revisions create shapes this way.
 */
module Tools {
  import opened Geometry
  import opened Shapes
  import opened Events

  /** Modes whose shapes have an inside that the fill setting applies to. */
  predicate Closed(mode: ShapeMode) {
    mode in {Rectangular, Circle, Ellipse, Square}
  }

  /**
   * The starting geometry: a path that moves to the press point, a line
   * from the press point to itself, an empty rectangle at the press point,
   * and a circle, ellipse or square of size zero at the origin.
   */
  function InitialGeom(mode: ShapeMode, x: real, y: real): (g: Geom)
    requires mode != Unknown
    ensures Fits(mode, g)
  {
    match mode
    case Stroke => PathGeom([MoveTo(x, y)])
    case Rectangular => RectGeom(x, y, 0.0, 0.0)
    case Circle => CircleGeom(0.0, 0.0, 0.0)
    case Line => LineGeom(x, y, x, y)
    case Ellipse => EllipseGeom(0.0, 0.0, 0.0, 0.0)
    case Square => RectGeom(0.0, 0.0, 0.0, 0.0)
  }

  /**
   * The paint of a new shape. A closed shape with the fill setting on is
   * painted in the pen colour without outline; every other shape is
   * outlined in the pen colour and width, and its inside is not painted.
   */
  function Style(mode: ShapeMode, pen: Pen): (s: (Paint, Outline))
    ensures s.1 == NoOutline <==> Closed(mode) && pen.fill
    ensures s.1 == NoOutline ==> s.0 == Colour(pen.colour)
    ensures s.1 != NoOutline ==> s.1 == Outline(Colour(pen.colour), pen.width) && !s.0.Colour?
    ensures s.0 == NoPaint <==> !Closed(mode)
  {
    if !Closed(mode) then (NoPaint, Outline(Colour(pen.colour), pen.width))
    else if pen.fill then (Colour(pen.colour), NoOutline)
    else (Transparent, Outline(Colour(pen.colour), pen.width))
  }

  /** A drag in the mode a shape was created in always finds the shape class it expects. */
  lemma DragAfterPressFits(mode: ShapeMode, x: real, y: real, sx: real, sy: real, mx: real, my: real)
    requires mode != Unknown
    ensures Reshape(mode, InitialGeom(mode, x, y), sx, sy, mx, my).Some?
  {
  }
}
