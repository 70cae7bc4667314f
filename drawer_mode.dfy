/**
 * The drawing mode of the current revision. A press starts a shape of the
 * selected kind at the pointer and records it, a drag reshapes it, a
 * release lets go of it, and a click that did not end a drag draws a
 * point.
 */
module DrawerModes {
  import opened Common
  import opened Geometry
  import opened Shapes
  import opened Actions
  import opened History
  import opened ActionBuffer
  import opened Events
  import opened Tools

  class DrawerMode {
    const canvas: Canvas
    const buffer: ActionBufferImpl
    /** Set by every drag, cleared by the click that ends it. */
    var drawingShape: bool
    /** The shape under construction, between a press and the release. */
    var shape: Shape?
    var shapeStartX: real
    var shapeStartY: real

    constructor (canvas: Canvas, buffer: ActionBufferImpl)
      ensures this.canvas == canvas && this.buffer == buffer
      ensures !drawingShape && shape == null && shapeStartX == 0.0 && shapeStartY == 0.0
    {
      this.canvas := canvas;
      this.buffer := buffer;
      drawingShape := false;
      shape := null;
      shapeStartX, shapeStartY := 0.0, 0.0;
    }

    /**
     * Records the pointer as the anchor whatever the button; in a shape mode
     * creates the shape, puts it on the canvas, records its drawing and makes
     * it the shape under construction.
     */
    method HandlePress(me: MouseEvent, mode: ShapeMode, pen: Pen)
      requires buffer.Valid()
      modifies this, canvas, buffer
      ensures buffer.Valid() && drawingShape == old(drawingShape)
      ensures shapeStartX == me.x && shapeStartY == me.y
      ensures mode == Unknown ==>
        && shape == old(shape)
        && canvas.children == old(canvas.children)
        && buffer.State() == old(buffer.State())
      ensures mode != Unknown ==>
        && shape != null && fresh(shape)
        && shape.geom == InitialGeom(mode, me.x, me.y)
        && (shape.fill, shape.outline) == Style(mode, pen)
        && canvas.children == old(canvas.children) + [shape]
        && Records(old(buffer.State()), buffer.State())
        && var a := buffer.State().Latest();
           a.Draw? && fresh(a.draw) && a.draw.canvas == canvas && a.draw.shape == shape
    {
      shapeStartX, shapeStartY := me.x, me.y;
      if mode != Unknown {
        var style := Style(mode, pen);
        var s := new Shape(InitialGeom(mode, me.x, me.y), style.0, style.1);
        var draw := new DrawAction(canvas, s);
        canvas.Add(s);
        buffer.Add(Draw(draw));
        shape := s;
      }
    }

    /**
     * Marks a drag in progress and reshapes the shape under construction by
     * the rule of the selected mode. When that shape is not of the class the
     * mode works on, the source's cast fails; the geometry is then kept.
     */
    method HandleDrag(me: MouseEvent, mode: ShapeMode) returns (r: Outcome)
      modifies this`drawingShape, shape
      ensures drawingShape
      ensures shape == null ==> r == Pass
      ensures shape != null ==>
        match Reshape(mode, old(shape.geom), shapeStartX, shapeStartY, me.x, me.y)
        case None => r == Fail(ClassCast) && shape.geom == old(shape.geom)
        case Some(g) => r == Pass && shape.geom == g
      ensures shape != null ==>
        && shape.fill == old(shape.fill) && shape.outline == old(shape.outline)
        && Layout(shape) == old(Layout(shape)) && Translate(shape) == old(Translate(shape))
        && shape.highlighted == old(shape.highlighted)
    {
      drawingShape := true;
      r := Pass;
      if shape != null && mode != Unknown {
        match Reshape(mode, shape.geom, shapeStartX, shapeStartY, me.x, me.y)
        case None => r := Fail(ClassCast);
        case Some(g) => shape.geom := g;
      }
    }

    /**
     * A primary click ends a drag, or else draws a point: a filled square of
     * the pen width centred on the click, recorded like any drawn shape.
     * Other buttons do nothing.
     */
    method HandleClick(me: MouseEvent, pen: Pen)
      requires buffer.Valid()
      modifies this`drawingShape, canvas, buffer
      ensures buffer.Valid()
      ensures me.button != Primary || old(drawingShape) ==>
        && canvas.children == old(canvas.children)
        && buffer.State() == old(buffer.State())
      ensures me.button != Primary ==> drawingShape == old(drawingShape)
      ensures me.button == Primary ==> !drawingShape
      ensures me.button == Primary && !old(drawingShape) ==>
        && Records(old(buffer.State()), buffer.State())
        && var a := buffer.State().Latest();
           && a.Draw? && fresh(a.draw) && fresh(a.draw.shape) && a.draw.canvas == canvas
           && a.draw.shape.geom == PointSquare(me.x, me.y, pen.width)
           && a.draw.shape.fill == Colour(pen.colour) && a.draw.shape.outline == NoOutline
           && canvas.children == old(canvas.children) + [a.draw.shape]
    {
      if me.button != Primary {
        return;
      }
      if drawingShape {
        drawingShape := false;
        return;
      }
      var point := new Shape(PointSquare(me.x, me.y, pen.width), Colour(pen.colour), NoOutline);
      var draw := new DrawAction(canvas, point);
      buffer.Add(Draw(draw));
      canvas.Add(point);
    }

    /** Entering a shape changes nothing in this mode: in particular it is not highlighted. */
    method HandleEnter(me: MouseEvent)
      ensures me.source.OnShape? ==> me.source.shape.highlighted == old(me.source.shape.highlighted)
      ensures canvas.children == old(canvas.children) && buffer.State() == old(buffer.State())
    {
    }

    /** Leaving a shape changes nothing in this mode: in particular its highlight stays. */
    method HandleExit(me: MouseEvent)
      ensures me.source.OnShape? ==> me.source.shape.highlighted == old(me.source.shape.highlighted)
      ensures canvas.children == old(canvas.children) && buffer.State() == old(buffer.State())
    {
    }

    /** Lets go of the shape under construction; the drag flag stays as it is. */
    method HandleRelease()
      modifies this`shape
      ensures shape == null
    {
      shape := null;
    }
  }
}
