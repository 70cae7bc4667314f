/**
 * The older copy of the director mode, working on an EditHistoryBuffer.
 * Its handlers behave as those of DirectorModes.DirectorMode. Its move
 * records come from a drawer.actions package that is not part of this
 * model; they are taken to be the layout-based MoveAction.
 */
module LegacyDirector {
  import opened Common
  import opened Geometry
  import opened Shapes
  import opened Actions
  import opened History
  import opened EditHistory
  import opened Events

  class DirectorMode {
    const canvas: Canvas
    const buffer: EditHistoryBuffer

    constructor (canvas: Canvas, buffer: EditHistoryBuffer)
      ensures this.canvas == canvas && this.buffer == buffer
    {
      this.canvas := canvas;
      this.buffer := buffer;
    }

    /** The shape to erase: the source of a secondary click on a shape. */
    function EraseTarget(me: MouseEvent): Option<Shape> {
      if me.button == Secondary && me.source.OnShape? then Some(me.source.shape) else None
    }

    method HandleClick(me: MouseEvent)
      requires buffer.Valid()
      modifies canvas, buffer
      ensures buffer.Valid()
      ensures EraseTarget(me).None? ==>
        canvas.children == old(canvas.children) && buffer.State() == old(buffer.State())
      ensures EraseTarget(me).Some? ==>
        && canvas.children == Without(old(canvas.children), me.source.shape)
        && Records(old(buffer.State()), buffer.State())
        && var a := buffer.State().Latest();
           a.Erase? && fresh(a.erase) && a.erase.canvas == canvas && a.erase.shape == me.source.shape
    {
      if me.button == Secondary && me.source.OnShape? {
        var shape := me.source.shape;
        canvas.Remove(shape);
        var erase := new EraseAction(canvas, shape);
        buffer.AddAction(Erase(erase));
      }
    }

    /** The shape a drag moves and the move record it updates, when there are both. */
    function DragTarget(me: MouseEvent): Option<(Shape, MoveAction)>
      requires buffer.Valid()
      reads buffer
    {
      match (me.source, Previous(buffer.State()).0)
      case (OnShape(s), Move(m)) => Some((s, m))
      case _ => None
    }

    function DragFrame(me: MouseEvent): set<object>
      requires buffer.Valid()
      reads buffer
    {
      match DragTarget(me)
      case None => {}
      case Some((s, m)) => {s, m}
    }

    /**
     * Moves the dragged shape by the pointer's offset from where the move
     * started, and stores the new layout as the move's new point. The
     * history itself is left alone. A record without a pointer anchor makes
     * the source throw a null-pointer exception before anything changes.
     */
    method HandleDrag(me: MouseEvent) returns (r: Outcome)
      requires buffer.Valid()
      modifies DragFrame(me)
      ensures buffer.State() == old(buffer.State())
      ensures DragTarget(me).None? ==> r == Pass
      ensures DragTarget(me).Some? ==>
        var (s, m) := DragTarget(me).value;
        && m.oldLayoutPoint == old(m.oldLayoutPoint)
        && m.originalMousePoint == old(m.originalMousePoint)
        && OnlyLayoutChanged(s)
        && if m.originalMousePoint.None? then
             && r == Fail(NullPointer)
             && Layout(s) == old(Layout(s)) && m.newLayoutPoint == old(m.newLayoutPoint)
           else
             && r == Pass
             && Layout(s) == Translated(old(Layout(s)), Offset(me.Local(), m.originalMousePoint.value))
             && m.newLayoutPoint == Some(Layout(s))
    {
      var previous := buffer.PeekPreviousAction();
      r := Pass;
      if me.source.OnShape? && previous.Move? {
        var move := previous.move;
        var origin := move.GetOriginalMousePoint();
        if origin.None? {
          r := Fail(NullPointer);
          return;
        }
        var offset := Offset(me.Local(), origin.value);
        var shape := me.source.shape;
        var layout := Translated(Layout(shape), offset);
        shape.layoutX := layout.x;
        shape.layoutY := layout.y;
        move.SetNewLayoutPoint(layout);
      }
    }

    /** A press on a shape records a move of it, anchored at the pointer and the current layout. */
    method HandlePress(me: MouseEvent)
      requires buffer.Valid()
      modifies buffer
      ensures buffer.Valid()
      ensures !me.source.OnShape? ==> buffer.State() == old(buffer.State())
      ensures me.source.OnShape? ==>
        && Records(old(buffer.State()), buffer.State())
        && var a := buffer.State().Latest();
           && a.Move? && fresh(a.move) && a.move.shape == me.source.shape
           && a.move.originalMousePoint == Some(me.Local())
           && a.move.oldLayoutPoint == Some(Layout(me.source.shape))
           && a.move.newLayoutPoint == None
    {
      if me.source.OnShape? {
        var shape := me.source.shape;
        var move := new MoveAction(shape);
        move.SetOriginalMousePoint(me.Local());
        move.SetOldLayoutPoint(Layout(shape));
        buffer.AddAction(Move(move));
      }
    }

    method HandleEnter(me: MouseEvent)
      modifies Hovered(me)
      ensures me.source.OnShape? ==> me.source.shape.highlighted && OnlyHighlightChanged(me.source.shape)
    {
      if me.source.OnShape? {
        me.source.shape.highlighted := true;
      }
    }

    method HandleExit(me: MouseEvent)
      modifies Hovered(me)
      ensures me.source.OnShape? ==> !me.source.shape.highlighted && OnlyHighlightChanged(me.source.shape)
    {
      if me.source.OnShape? {
        me.source.shape.highlighted := false;
      }
    }

    /** A release changes nothing: neither the canvas nor the history. */
    method HandleRelease(me: MouseEvent)
      ensures canvas.children == old(canvas.children) && buffer.State() == old(buffer.State())
    {
    }
  }
}
