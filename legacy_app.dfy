/**
 * The monolithic application of the older revision. One object holds
 * everything: a field per shape kind for the shape under construction,
 * the anchor of a drawing drag, the scene and translate anchors of a move,
 * the drag flag and the director flag. Its handlers decide between
 * drawing and directing by that flag and move shapes by their translate
 * position. The selected shape tool and the pen are given to the handlers
 * as values.
 */
module LegacyApp {
  import opened Common
  import opened Geometry
  import opened Shapes
  import opened Actions
  import opened History
  import opened EditHistory
  import opened Events
  import opened Tools

  class DrawerFX {
    const canvas: Canvas
    const buffer: EditHistoryBuffer
    var path: Shape?
    var rect: Shape?
    var circle: Shape?
    var line: Shape?
    var ellipse: Shape?
    var square: Shape?
    /** Anchor of a drawing drag. */
    var rsX: real
    var rsY: real
    var drawingShape: bool
    var orgSceneX: real
    var orgSceneY: real
    var orgTranslateX: real
    var orgTranslateY: real
    var dirMode: bool

    /** The field holding the shape under construction of each kind. */
    function InProgress(mode: ShapeMode): Shape?
      reads this
    {
      match mode
      case Stroke => path
      case Rectangular => rect
      case Circle => circle
      case Line => line
      case Ellipse => ellipse
      case Square => square
      case Unknown => null
    }

    /** The buffer is consistent, and each field holds a shape of its own kind. */
    ghost predicate Valid()
      reads this, buffer, path, rect, circle, line, ellipse, square
    {
      buffer.Valid() && Kinds()
    }

    /** Each field holds a shape of the kind its declared type names. */
    ghost predicate Kinds()
      reads this, path, rect, circle, line, ellipse, square
    {
      && (path != null ==> path.geom.PathGeom?)
      && (rect != null ==> rect.geom.RectGeom?)
      && (circle != null ==> circle.geom.CircleGeom?)
      && (line != null ==> line.geom.LineGeom?)
      && (ellipse != null ==> ellipse.geom.EllipseGeom?)
      && (square != null ==> square.geom.RectGeom?)
    }

    function OrgScene(): Point2D
      reads this
    {
      Point2D(orgSceneX, orgSceneY)
    }

    function OrgTranslate(): Point2D
      reads this
    {
      Point2D(orgTranslateX, orgTranslateY)
    }

    /** The initial field values: empty canvas and history, nothing in progress, drawing mode. */
    constructor ()
      ensures Valid() && fresh(canvas) && fresh(buffer)
      ensures canvas.children == [] && buffer.State() == Empty()
      ensures forall mode :: InProgress(mode) == null
      ensures !drawingShape && !dirMode
    {
      canvas := new Canvas();
      buffer := new EditHistoryBuffer();
      path, rect, circle, line, ellipse, square := null, null, null, null, null, null;
      rsX, rsY := 0.0, 0.0;
      drawingShape := false;
      orgSceneX, orgSceneY, orgTranslateX, orgTranslateY := 0.0, 0.0, 0.0, 0.0;
      dirMode := false;
    }

    /**
     * In the director mode a secondary click on a shape erases it. In the
     * drawing mode a primary click ends a drag, or else draws a point.
     */
    method ClickHandler(me: MouseEvent, pen: Pen)
      requires Valid()
      modifies this`drawingShape, canvas, buffer
      ensures Valid()
      ensures dirMode ==> drawingShape == old(drawingShape)
      ensures dirMode && me.button == Secondary && me.source.OnShape? ==>
        && canvas.children == Without(old(canvas.children), me.source.shape)
        && Records(old(buffer.State()), buffer.State())
        && var a := buffer.State().Latest();
           a.Erase? && fresh(a.erase) && a.erase.canvas == canvas && a.erase.shape == me.source.shape
      ensures !dirMode && me.button != Primary ==> drawingShape == old(drawingShape)
      ensures !dirMode && me.button == Primary ==> !drawingShape
      ensures !dirMode && me.button == Primary && !old(drawingShape) ==>
        && Records(old(buffer.State()), buffer.State())
        && var a := buffer.State().Latest();
           && a.Draw? && fresh(a.draw) && fresh(a.draw.shape) && a.draw.canvas == canvas
           && a.draw.shape.geom == PointSquare(me.x, me.y, pen.width)
           && a.draw.shape.fill == Colour(pen.colour) && a.draw.shape.outline == NoOutline
           && canvas.children == old(canvas.children) + [a.draw.shape]
      ensures (if dirMode then !(me.button == Secondary && me.source.OnShape?)
               else me.button != Primary || old(drawingShape)) ==>
        canvas.children == old(canvas.children) && buffer.State() == old(buffer.State())
    {
      if dirMode {
        if me.button == Secondary && me.source.OnShape? {
          var shape := me.source.shape;
          canvas.Remove(shape);
          var erase := new EraseAction(canvas, shape);
          buffer.AddAction(Erase(erase));
        }
      } else {
        if me.button != Primary {
          return;
        }
        if drawingShape {
          drawingShape := false;
          return;
        }
        var point := new Shape(PointSquare(me.x, me.y, pen.width), Colour(pen.colour), NoOutline);
        var draw := new DrawAction(canvas, point);
        buffer.AddAction(Draw(draw));
        canvas.Add(point);
      }
    }

    /** What a drag may change besides the handler's own fields. */
    function DragObjects(me: MouseEvent, selected: ShapeMode): set<object>
      requires buffer.Valid()
      reads this, buffer
    {
      if dirMode then
        if me.source.OnShape? then {me.source.shape} + MoveRecord() else {}
      else if InProgress(selected) != null then {InProgress(selected)}
      else {}
    }

    /** The latest done action, when it is a translate move. */
    function MoveRecord(): set<object>
      requires buffer.Valid()
      reads this, buffer
    {
      match Previous(buffer.State()).0
      case TranslateMove(t) => {t}
      case _ => {}
    }

    /**
     * Only the primary button drags. In the director mode the source shape
     * is put at its translate anchor plus the pointer's movement in the
     * scene since the press, whatever the history holds; the new position is
     * stored in the latest action only when that is a translate move. In the
     * drawing mode the flag is set and the selected kind's shape under
     * construction, if any, is reshaped.
     */
    method DragHandler(me: MouseEvent, selected: ShapeMode)
      requires Valid()
      modifies this`drawingShape, if me.button == Primary then DragObjects(me, selected) else {}
      ensures Valid() && buffer.State() == old(buffer.State()) && canvas.children == old(canvas.children)
      ensures me.button != Primary ==> drawingShape == old(drawingShape)
      ensures me.button == Primary && dirMode ==> drawingShape == old(drawingShape)
      ensures me.button == Primary && dirMode && me.source.OnShape? ==>
        && Translate(me.source.shape) == Translated(OrgTranslate(), Offset(me.Scene(), OrgScene()))
        && OnlyTranslateChanged(me.source.shape)
        && match Previous(buffer.State()).0
           case TranslateMove(t) => t.newPoint == Some(Translate(me.source.shape)) && t.oldPoint == old(t.oldPoint)
           case _ => true
      ensures me.button == Primary && !dirMode ==> drawingShape
      ensures me.button == Primary && !dirMode && InProgress(selected) != null ==>
        var s := InProgress(selected);
        && s.geom == Reshape(selected, old(s.geom), rsX, rsY, me.x, me.y).value
        && Layout(s) == old(Layout(s)) && Translate(s) == old(Translate(s))
        && s.fill == old(s.fill) && s.outline == old(s.outline) && s.highlighted == old(s.highlighted)
    {
      if me.button != Primary {
        return;
      }
      if dirMode {
        if me.source.OnShape? {
          DragToMove(me);
        }
      } else {
        DragToDraw(me, selected);
      }
    }

    method DragToMove(me: MouseEvent)
      requires Valid() && me.source.OnShape?
      modifies me.source.shape, MoveRecord()
      ensures Valid() && buffer.State() == old(buffer.State())
      ensures Translate(me.source.shape) == Translated(OrgTranslate(), Offset(me.Scene(), OrgScene()))
      ensures OnlyTranslateChanged(me.source.shape)
      ensures match Previous(buffer.State()).0
        case TranslateMove(t) => t.newPoint == Some(Translate(me.source.shape)) && t.oldPoint == old(t.oldPoint)
        case _ => true
    {
      var shape := me.source.shape;
      var moved := Translated(OrgTranslate(), Offset(me.Scene(), OrgScene()));
      shape.translateX := moved.x;
      shape.translateY := moved.y;
      var previous := buffer.PeekPreviousAction();
      if previous.TranslateMove? {
        previous.translateMove.SetNewPoint(moved);
      }
    }

    method DragToDraw(me: MouseEvent, selected: ShapeMode)
      requires Valid()
      modifies this`drawingShape, if InProgress(selected) != null then {InProgress(selected)} else {}
      ensures Valid() && drawingShape
      ensures InProgress(selected) != null ==>
        var s := InProgress(selected);
        && s.geom == Reshape(selected, old(s.geom), rsX, rsY, me.x, me.y).value
        && Layout(s) == old(Layout(s)) && Translate(s) == old(Translate(s))
        && s.fill == old(s.fill) && s.outline == old(s.outline) && s.highlighted == old(s.highlighted)
    {
      drawingShape := true;
      var s := InProgress(selected);
      if s != null {
        s.geom := Reshape(selected, s.geom, rsX, rsY, me.x, me.y).value;
      }
    }

    /**
     * Only the primary button presses. In the director mode the scene
     * anchor is recorded, and a press on a shape records its translate
     * anchor and a translate move from there. In the drawing mode the
     * selected kind's shape is created, shown, recorded and kept as under
     * construction; every kind but the stroke takes the pointer as anchor.
     */
    method PressHandler(me: MouseEvent, selected: ShapeMode, pen: Pen)
      requires Valid()
      modifies this, canvas, buffer
      ensures Valid() && dirMode == old(dirMode) && drawingShape == old(drawingShape)
      ensures me.button != Primary || (!dirMode && selected == Unknown) ==>
        && unchanged(this)
        && canvas.children == old(canvas.children) && buffer.State() == old(buffer.State())
      ensures dirMode ==> forall mode :: InProgress(mode) == old(InProgress(mode))
      ensures dirMode ==> rsX == old(rsX) && rsY == old(rsY) && canvas.children == old(canvas.children)
      ensures me.button == Primary && dirMode ==> OrgScene() == me.Scene()
      ensures me.button == Primary && dirMode && !me.source.OnShape? ==>
        OrgTranslate() == old(OrgTranslate()) && buffer.State() == old(buffer.State())
      ensures me.button == Primary && dirMode && me.source.OnShape? ==>
        && OrgTranslate() == Translate(me.source.shape)
        && Records(old(buffer.State()), buffer.State())
        && var a := buffer.State().Latest();
           && a.TranslateMove? && fresh(a.translateMove) && a.translateMove.shape == me.source.shape
           && a.translateMove.oldPoint == Some(OrgTranslate()) && a.translateMove.newPoint == None
      ensures !dirMode ==> OrgScene() == old(OrgScene()) && OrgTranslate() == old(OrgTranslate())
      ensures me.button == Primary && !dirMode && selected != Unknown ==>
        && (forall mode :: mode != selected ==> InProgress(mode) == old(InProgress(mode)))
        && InProgress(selected) != null && fresh(InProgress(selected))
        && InProgress(selected).geom == InitialGeom(selected, me.x, me.y)
        && (InProgress(selected).fill, InProgress(selected).outline) == Style(selected, pen)
        && canvas.children == old(canvas.children) + [InProgress(selected)]
        && Records(old(buffer.State()), buffer.State())
        && buffer.State().Latest().Draw?
        && fresh(buffer.State().Latest().draw)
        && buffer.State().Latest().draw.canvas == canvas
        && buffer.State().Latest().draw.shape == InProgress(selected)
        && if selected == Stroke then rsX == old(rsX) && rsY == old(rsY) else rsX == me.x && rsY == me.y
    {
      if me.button != Primary {
        return;
      }
      if dirMode {
        PressToMove(me);
      } else if selected != Unknown {
        PressToDraw(me, selected, pen);
      }
    }

    method PressToMove(me: MouseEvent)
      requires Valid()
      modifies this`orgSceneX, this`orgSceneY, this`orgTranslateX, this`orgTranslateY, buffer
      ensures Valid()
      ensures OrgScene() == me.Scene()
      ensures !me.source.OnShape? ==>
        OrgTranslate() == old(OrgTranslate()) && buffer.State() == old(buffer.State())
      ensures me.source.OnShape? ==>
        && OrgTranslate() == Translate(me.source.shape)
        && Records(old(buffer.State()), buffer.State())
        && var a := buffer.State().Latest();
           && a.TranslateMove? && fresh(a.translateMove) && a.translateMove.shape == me.source.shape
           && a.translateMove.oldPoint == Some(OrgTranslate()) && a.translateMove.newPoint == None
    {
      orgSceneX, orgSceneY := me.sceneX, me.sceneY;
      if me.source.OnShape? {
        var shape := me.source.shape;
        orgTranslateX, orgTranslateY := shape.translateX, shape.translateY;
        var move := new TranslateMoveAction(shape);
        move.SetOldPoint(OrgTranslate());
        buffer.AddAction(TranslateMove(move));
      }
    }

    method PressToDraw(me: MouseEvent, selected: ShapeMode, pen: Pen)
      requires Valid() && selected != Unknown
      modifies this`rsX, this`rsY, this`path, this`rect, this`circle, this`line, this`ellipse, this`square, canvas, buffer
      ensures Valid()
      ensures forall mode :: mode != selected ==> InProgress(mode) == old(InProgress(mode))
      ensures InProgress(selected) != null && fresh(InProgress(selected))
      ensures InProgress(selected).geom == InitialGeom(selected, me.x, me.y)
      ensures (InProgress(selected).fill, InProgress(selected).outline) == Style(selected, pen)
      ensures canvas.children == old(canvas.children) + [InProgress(selected)]
      ensures Records(old(buffer.State()), buffer.State())
      ensures buffer.State().Latest().Draw?
      ensures fresh(buffer.State().Latest().draw)
      ensures buffer.State().Latest().draw.canvas == canvas
      ensures buffer.State().Latest().draw.shape == InProgress(selected)
      ensures if selected == Stroke then rsX == old(rsX) && rsY == old(rsY) else rsX == me.x && rsY == me.y
    {
      if selected != Stroke {
        rsX, rsY := me.x, me.y;
      }
      var style := Style(selected, pen);
      var s := new Shape(InitialGeom(selected, me.x, me.y), style.0, style.1);
      var draw := new DrawAction(canvas, s);
      canvas.Add(s);
      buffer.AddAction(Draw(draw));
      Adopt(selected, s);
    }

    /** Keeps s as the shape under construction of its kind. */
    method Adopt(mode: ShapeMode, s: Shape)
      requires Kinds() && mode != Unknown && Fits(mode, s.geom)
      modifies this`path, this`rect, this`circle, this`line, this`ellipse, this`square
      ensures Kinds() && InProgress(mode) == s
      ensures forall other :: other != mode ==> InProgress(other) == old(InProgress(other))
    {
      match mode
      case Stroke => path := s;
      case Rectangular => rect := s;
      case Circle => circle := s;
      case Line => line := s;
      case Ellipse => ellipse := s;
      case Square => square := s;
    }

    /** Lets go of the selected kind's shape under construction, except a square, which stays. */
    method ReleaseHandler(selected: ShapeMode)
      requires Valid()
      modifies this`path, this`rect, this`circle, this`line, this`ellipse
      ensures Valid()
      ensures selected != Square ==> InProgress(selected) == null
      ensures forall mode :: mode != selected || mode == Square ==> InProgress(mode) == old(InProgress(mode))
    {
      match selected
      case Stroke => path := null;
      case Rectangular => rect := null;
      case Circle => circle := null;
      case Line => line := null;
      case Ellipse => ellipse := null;
      case _ =>
    }

    /** Entering a shape highlights it in the director mode only. */
    method EnterHandler(me: MouseEvent)
      requires Valid()
      modifies if me.source.OnShape? then {me.source.shape} else {}
      ensures Valid()
      ensures me.source.OnShape? ==>
        && me.source.shape.highlighted == (dirMode || old(me.source.shape.highlighted))
        && OnlyHighlightChanged(me.source.shape)
    {
      if dirMode && me.source.OnShape? {
        me.source.shape.highlighted := true;
      }
    }

    /** Leaving a shape clears its highlight in either mode. */
    method ExitHandler(me: MouseEvent)
      requires Valid()
      modifies if me.source.OnShape? then {me.source.shape} else {}
      ensures Valid()
      ensures me.source.OnShape? ==> !me.source.shape.highlighted && OnlyHighlightChanged(me.source.shape)
    {
      if me.source.OnShape? {
        me.source.shape.highlighted := false;
      }
    }

    /** Undoes the latest done action, stepping the history back over it. */
    method Undo() returns (exitPrompt: bool)
      requires Valid() && UndoEnabled(Previous(buffer.State()).0)
      modifies buffer, Footprint(Previous(buffer.State()).0)
      ensures Valid()
      ensures buffer.State() == Previous(old(buffer.State())).1
      ensures exitPrompt == old(Previous(buffer.State()).0).Start?
      ensures Undone(old(Previous(buffer.State()).0))
    {
      var action := buffer.GetPreviousAction();
      exitPrompt := UndoAction(action);
    }

    /** Redoes the next undone action, stepping the history forward over it. */
    method Redo() returns (r: Outcome)
      requires Valid() && RedoEnabled(Next(buffer.State()).0)
      modifies buffer, Footprint(Next(buffer.State()).0)
      ensures Valid()
      ensures buffer.State() == Next(old(buffer.State())).1
      ensures r == if old(Next(buffer.State()).0).Start? then Fail(InputMismatch) else Pass
      ensures Redone(old(Next(buffer.State()).0))
    {
      var action := buffer.GetNextAction();
      r := RedoAction(action);
    }

    /**
     * A key press. The scene's event filter consumes SPACE and redoes, so
     * the key handler's own SPACE branch is never reached; the key handler
     * undoes on ESCAPE and turns the director mode on with CONTROL.
     */
    method KeyPressed(code: KeyCode) returns (exitPrompt: bool, r: Outcome)
      requires Valid()
      requires code == Escape ==> UndoEnabled(Previous(buffer.State()).0)
      requires code == Space ==> RedoEnabled(Next(buffer.State()).0)
      modifies this`dirMode, buffer,
        if code == Escape then Footprint(Previous(buffer.State()).0)
        else if code == Space then Footprint(Next(buffer.State()).0)
        else {}
      ensures Valid()
      ensures dirMode == (code == Control || old(dirMode))
      ensures code == Escape ==>
        && buffer.State() == Previous(old(buffer.State())).1
        && exitPrompt == old(Previous(buffer.State()).0).Start?
        && Undone(old(Previous(buffer.State()).0))
      ensures code == Space ==>
        && buffer.State() == Next(old(buffer.State())).1
        && r == (if old(Next(buffer.State()).0).Start? then Fail(InputMismatch) else Pass)
        && Redone(old(Next(buffer.State()).0))
      ensures code != Escape && code != Space ==>
        buffer.State() == old(buffer.State()) && canvas.children == old(canvas.children)
      ensures code != Escape ==> !exitPrompt
      ensures code != Space ==> r == Pass
    {
      exitPrompt, r := false, Pass;
      if code == Space {
        r := Redo();
      } else if code == Escape {
        exitPrompt := Undo();
      } else if code == Control {
        dirMode := true;
      }
    }

    /** Releasing CONTROL turns the director mode off. */
    method KeyReleased(code: KeyCode)
      modifies this`dirMode
      ensures dirMode == (code != Control && old(dirMode))
    {
      if code == Control {
        dirMode := false;
      }
    }
  }
}
