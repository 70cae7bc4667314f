/**
 * Coordinates, the geometry of the shapes the editor draws, and the
 * kind-specific rules that reshape the shape under construction while the
 * pointer is dragged. Coordinates are exact reals.
 */
module Geometry {
  import opened Common

  /** An immutable 2-D point. */
  datatype Point2D = Point2D(x: real, y: real)

  /** One element of a freehand path. */
  datatype PathElement = MoveTo(x: real, y: real) | LineTo(x: real, y: real)

  /** The geometry of each shape class the editor creates. */
  datatype Geom =
    | PathGeom(elements: seq<PathElement>)
    | RectGeom(x: real, y: real, width: real, height: real)
    | CircleGeom(centerX: real, centerY: real, radius: real)
    | LineGeom(startX: real, startY: real, endX: real, endY: real)
    | EllipseGeom(centerX: real, centerY: real, radiusX: real, radiusY: real)

  /** The shape tool selected in the tool box; Unknown when none is. */
  datatype ShapeMode = Stroke | Rectangular | Circle | Line | Ellipse | Square | Unknown

  function Min(a: real, b: real): real { if a <= b then a else b }

  function Max(a: real, b: real): real { if a >= b then a else b }

  function Abs(a: real): real { if a < 0.0 then -a else a }

  /**
   * Rectangle drag from anchor (sx, sy) to pointer (mx, my): the anchor
   * and the pointer are opposite corners, whatever the drag direction.
   */
  function RectangleDrag(sx: real, sy: real, mx: real, my: real): (g: Geom)
    ensures g.RectGeom?
    ensures g.x == Min(sx, mx) && g.y == Min(sy, my)
    ensures g.width == Abs(mx - sx) && g.height == Abs(my - sy)
    ensures g.x + g.width == Max(sx, mx) && g.y + g.height == Max(sy, my)
  {
    if sx < mx then
      if sy < my then RectGeom(sx, sy, mx - sx, my - sy)
      else RectGeom(sx, my, mx - sx, sy - my)
    else
      if sy < my then RectGeom(mx, sy, sx - mx, my - sy)
      else RectGeom(mx, my, sx - mx, sy - my)
  }

  /** Dragging back from the pointer to the anchor gives the same rectangle. */
  lemma RectangleDragSymmetric(sx: real, sy: real, mx: real, my: real)
    ensures RectangleDrag(sx, sy, mx, my) == RectangleDrag(mx, my, sx, sy)
  {
  }

  /**
   * Ellipse drag: centred on the midpoint of anchor and pointer, with radii
   * equal to half the horizontal and vertical distances.
   */
  function EllipseDrag(sx: real, sy: real, mx: real, my: real): (g: Geom)
    ensures g.EllipseGeom?
    ensures g.centerX == (sx + mx) / 2.0 && g.centerY == (sy + my) / 2.0
    ensures g.radiusX == Abs(mx - sx) / 2.0 && g.radiusY == Abs(my - sy) / 2.0
  {
    var cx := if sx < mx then sx + (mx - sx) / 2.0 else mx + (sx - mx) / 2.0;
    var rx := if sx < mx then mx - cx else sx - cx;
    var cy := if sy < my then sy + (my - sy) / 2.0 else my + (sy - my) / 2.0;
    var ry := if sy < my then my - cy else sy - cy;
    EllipseGeom(cx, cy, rx, ry)
  }

  /**
   * Circle drag: centred on the midpoint, with the larger of the two
   * half-distances as radius.
   */
  function CircleDrag(sx: real, sy: real, mx: real, my: real): (g: Geom)
    ensures g.CircleGeom?
    ensures g.centerX == (sx + mx) / 2.0 && g.centerY == (sy + my) / 2.0
    ensures g.radius == Max(Abs(mx - sx) / 2.0, Abs(my - sy) / 2.0)
    ensures g.radius >= 0.0
  {
    var cx := if sx < mx then sx + (mx - sx) / 2.0 else mx + (sx - mx) / 2.0;
    var cy := if sy < my then sy + (my - sy) / 2.0 else my + (sy - my) / 2.0;
    var r :=
      if sx < mx then
        if sy < my then Max(mx - cx, my - cy) else Max(mx - cx, sy - cy)
      else
        if sy < my then Max(sx - cx, my - cy) else Max(sx - cx, sy - cy);
    CircleGeom(cx, cy, r)
  }

  /** The branch of the square rule that takes its side from the vertical distance. */
  predicate SquareUpperRight(sx: real, sy: real, mx: real, my: real) {
    sx < mx && !(sy < my)
  }

  /**
   * Square drag, as the four branches are written: the anchor is always a
   * corner and width equals height, but the side is the horizontal distance
   * except in the upper-right branch, which uses the vertical one.
   */
  function SquareDrag(sx: real, sy: real, mx: real, my: real): (g: Geom)
    ensures g.RectGeom? && g.width == g.height && g.width >= 0.0
    ensures g.x == Min(sx, mx)
    ensures (g.x == sx || g.x + g.width == sx) && (g.y == sy || g.y + g.height == sy)
    ensures !SquareUpperRight(sx, sy, mx, my) ==> g.width == Abs(mx - sx)
    ensures SquareUpperRight(sx, sy, mx, my) ==> g.width == sy - my && g.y == my
    ensures !SquareUpperRight(sx, sy, mx, my) ==> g.y == (if sy < my then sy else sy - g.width)
  {
    if sx < mx then
      if sy < my then RectGeom(sx, sy, mx - sx, mx - sx)        // lower right
      else RectGeom(sx, my, sy - my, sy - my)                    // upper right
    else
      if sy < my then RectGeom(mx, sy, sx - mx, sx - mx)        // lower left
      else RectGeom(mx, sy - sx + mx, sx - mx, sx - mx)         // upper left
  }

  /**
   * A drag up and to the right by (10, 2) gives a square of side 2, not of
   * the horizontal distance 10 that every other direction uses.
   */
  lemma SquareUpperRightUsesVerticalDistance()
    ensures SquareDrag(0.0, 0.0, 10.0, -2.0).width == 2.0
    ensures SquareDrag(0.0, 0.0, -10.0, -2.0).width == 10.0
  {
  }

  /** The clicked "point": a square of side strokeWidth centred on the click. */
  function PointSquare(x: real, y: real, strokeWidth: real): (g: Geom)
    ensures g.RectGeom? && g.width == strokeWidth && g.height == strokeWidth
    ensures g.x + g.width / 2.0 == x && g.y + g.height / 2.0 == y
  {
    var a := strokeWidth / 2.0;
    RectGeom(x - a, y - a, a * 2.0, a * 2.0)
  }

  /** Whether geometry g belongs to the shape class the mode draws. */
  predicate Fits(mode: ShapeMode, g: Geom) {
    match mode
    case Stroke => g.PathGeom?
    case Rectangular => g.RectGeom?
    case Square => g.RectGeom?
    case Circle => g.CircleGeom?
    case Line => g.LineGeom?
    case Ellipse => g.EllipseGeom?
    case Unknown => true
  }

  /**
   * The new geometry of the in-progress shape g after a drag to (mx, my)
   * from anchor (sx, sy) in the given mode; None when g is not of the class
   * the mode works on (the source's cast fails).
   */
  function Reshape(mode: ShapeMode, g: Geom, sx: real, sy: real, mx: real, my: real): (r: Option<Geom>)
    ensures r.None? <==> !Fits(mode, g)
    ensures r.Some? ==> Fits(mode, r.value)
    ensures mode == Unknown ==> r == Some(g)
    ensures mode == Stroke && g.PathGeom? ==> r.value.elements == g.elements + [LineTo(mx, my)]
    ensures mode == Line && g.LineGeom? ==> r.value == LineGeom(sx, sy, mx, my)
    ensures mode == Rectangular && g.RectGeom? ==> r.value == RectangleDrag(sx, sy, mx, my)
    ensures mode == Square && g.RectGeom? ==> r.value == SquareDrag(sx, sy, mx, my)
    ensures mode == Circle && g.CircleGeom? ==> r.value == CircleDrag(sx, sy, mx, my)
    ensures mode == Ellipse && g.EllipseGeom? ==> r.value == EllipseDrag(sx, sy, mx, my)
  {
    if !Fits(mode, g) then None
    else
      match mode
      case Stroke => Some(PathGeom(g.elements + [LineTo(mx, my)]))
      case Rectangular => Some(RectangleDrag(sx, sy, mx, my))
      case Circle => Some(CircleDrag(sx, sy, mx, my))
      case Line => Some(LineGeom(sx, sy, mx, my))
      case Ellipse => Some(EllipseDrag(sx, sy, mx, my))
      case Square => Some(SquareDrag(sx, sy, mx, my))
      case Unknown => Some(g)
  }

  /** Pointer offset from the press point. */
  function Offset(pointer: Point2D, origin: Point2D): (d: Point2D)
    ensures origin.x + d.x == pointer.x && origin.y + d.y == pointer.y
  {
    Point2D(pointer.x - origin.x, pointer.y - origin.y)
  }

  /** A position moved by an offset. */
  function Translated(p: Point2D, d: Point2D): (q: Point2D)
    ensures Offset(q, p) == d
  {
    Point2D(p.x + d.x, p.y + d.y)
  }
}
