/**
 * The application object of the current revision, reduced to its state:
 * the canvas, the buffer, the two usage modes and which of them receives
 * the mouse, and the selected shape mode. The keys switch the mode and undo
 * or redo; mouse events go to the current mode.
 */
module DrawerApp {
  import opened Common
  import opened Geometry
  import opened Shapes
  import opened Actions
  import opened History
  import opened ActionBuffer
  import opened Events
  import opened DrawerModes
  import opened DirectorModes

  /** The usage mode that receives mouse events. */
  datatype UsageMode = Directing(director: DirectorMode) | Drawing(drawer: DrawerMode)

  class DrawerFX {
    const canvas: Canvas
    const buffer: ActionBufferImpl
    var director: DirectorMode
    var drawer: DrawerMode
    var currentMode: UsageMode
    var currentShapeMode: ShapeMode

    /** Every mode instance works on this application's canvas and buffer. */
    ghost predicate Valid()
      reads this, buffer
    {
      && buffer.Valid()
      && director.canvas == canvas && director.buffer == buffer
      && drawer.canvas == canvas && drawer.buffer == buffer
      && match currentMode
         case Directing(d) => d.canvas == canvas && d.buffer == buffer
         case Drawing(d) => d.canvas == canvas && d.buffer == buffer
    }

    /** The initial field values: an empty canvas and history, drawing strokes. */
    constructor ()
      ensures Valid() && fresh(canvas) && fresh(buffer) && fresh(director) && fresh(drawer)
      ensures canvas.children == [] && buffer.State() == Empty()
      ensures currentMode == Drawing(drawer) && currentShapeMode == Stroke
      ensures !drawer.drawingShape && drawer.shape == null
    {
      var pane := new Canvas();
      var history := new ActionBufferImpl();
      var drawerMode := new DrawerMode(pane, history);
      canvas, buffer := pane, history;
      director := new DirectorMode(pane, history);
      drawer := drawerMode;
      currentMode := Drawing(drawerMode);
      currentShapeMode := Stroke;
    }

    /**
     * Replaces both mode instances by new ones. The current mode is not
     * reassigned, so it stays the earlier instance until CONTROL is next
     * pressed or released.
     */
    method SetApplicationModes()
      requires Valid()
      modifies this`director, this`drawer
      ensures Valid() && fresh(director) && fresh(drawer)
      ensures currentMode == old(currentMode)
      ensures currentMode.Drawing? ==> currentMode.drawer != drawer
      ensures currentMode.Directing? ==> currentMode.director != director
    {
      director := new DirectorMode(canvas, buffer);
      drawer := new DrawerMode(canvas, buffer);
    }

    /** Undoes the latest done action, stepping the history back over it. */
    method Undo() returns (exitPrompt: bool)
      requires Valid() && UndoEnabled(Previous(buffer.State()).0)
      modifies buffer, Footprint(Previous(buffer.State()).0)
      ensures Valid()
      ensures buffer.State() == Previous(old(buffer.State())).1
      ensures exitPrompt == old(Previous(buffer.State()).0).Start?
      ensures Undone(old(Previous(buffer.State()).0))
    {
      var action := buffer.GetPrevious();
      exitPrompt := UndoAction(action);
    }

    /** Redoes the next undone action, stepping the history forward over it. */
    method Redo() returns (r: Outcome)
      requires Valid() && RedoEnabled(Next(buffer.State()).0)
      modifies buffer, Footprint(Next(buffer.State()).0)
      ensures Valid()
      ensures buffer.State() == Next(old(buffer.State())).1
      ensures r == if old(Next(buffer.State()).0).Start? then Fail(InputMismatch) else Pass
      ensures Redone(old(Next(buffer.State()).0))
    {
      var action := buffer.GetNext();
      r := RedoAction(action);
    }

    /**
     * A key press. SPACE is taken by the scene's event filter, which
     * consumes it and redoes; the key handler undoes on ESCAPE and turns to
     * the director mode on CONTROL. F1 opens the help window, which is not
     * modelled; other keys do nothing.
     */
    method KeyPressed(code: KeyCode) returns (exitPrompt: bool, r: Outcome)
      requires Valid()
      requires code == Escape ==> UndoEnabled(Previous(buffer.State()).0)
      requires code == Space ==> RedoEnabled(Next(buffer.State()).0)
      modifies this`currentMode, buffer,
        if code == Escape then Footprint(Previous(buffer.State()).0)
        else if code == Space then Footprint(Next(buffer.State()).0)
        else {}
      ensures Valid()
      ensures currentMode == if code == Control then Directing(director) else old(currentMode)
      ensures code == Escape ==>
        && buffer.State() == Previous(old(buffer.State())).1
        && exitPrompt == old(Previous(buffer.State()).0).Start?
        && Undone(old(Previous(buffer.State()).0))
      ensures code == Space ==>
        && buffer.State() == Next(old(buffer.State())).1
        && r == (if old(Next(buffer.State()).0).Start? then Fail(InputMismatch) else Pass)
        && Redone(old(Next(buffer.State()).0))
      ensures code != Escape && code != Space ==>
        buffer.State() == old(buffer.State()) && canvas.children == old(canvas.children)
      ensures code != Escape ==> !exitPrompt
      ensures code != Space ==> r == Pass
    {
      exitPrompt, r := false, Pass;
      if code == Space {
        r := Redo();
      } else if code == Escape {
        exitPrompt := Undo();
      } else if code == Control {
        currentMode := Directing(director);
      }
    }

    /** Releasing CONTROL turns back to the drawing mode. */
    method KeyReleased(code: KeyCode)
      requires Valid()
      modifies this`currentMode
      ensures Valid()
      ensures currentMode == if code == Control then Drawing(drawer) else old(currentMode)
    {
      if code == Control {
        currentMode := Drawing(drawer);
      }
    }

    /** A change of the selected shape tool: its shape mode, or Unknown for any other toggle or none. */
    method ShapeToggleChanged(newValue: Toggle)
      modifies this`currentShapeMode
      ensures currentShapeMode == if newValue.ShapeToggle? then newValue.mode else Unknown
    {
      currentShapeMode := if newValue.ShapeToggle? then newValue.mode else Unknown;
    }

    /** The current mode object, whose fields a mouse event may change. */
    function ModeObject(): set<object>
      reads this
    {
      match currentMode
      case Directing(d) => {d}
      case Drawing(d) => {d}
    }

    /**
     * A press goes to the current mode. In the director mode it records at
     * most a move and leaves the canvas alone; in the drawing mode it records
     * and shows one new shape, unless no shape mode is selected.
     */
    method MousePressed(me: MouseEvent, pen: Pen)
      requires Valid()
      modifies ModeObject(), canvas, buffer
      ensures Valid()
      ensures currentMode.Directing? ==>
        && canvas.children == old(canvas.children)
        && (if me.source.OnShape? then Records(old(buffer.State()), buffer.State()) && buffer.State().Latest().Move?
            else buffer.State() == old(buffer.State()))
      ensures currentMode.Drawing? && currentShapeMode == Unknown ==>
        canvas.children == old(canvas.children) && buffer.State() == old(buffer.State())
      ensures currentMode.Drawing? && currentShapeMode != Unknown ==>
        && Records(old(buffer.State()), buffer.State())
        && buffer.State().Latest().Draw?
        && canvas.children == old(canvas.children) + [buffer.State().Latest().draw.shape]
    {
      match currentMode
      case Directing(d) => d.HandlePress(me);
      case Drawing(d) => d.HandlePress(me, currentShapeMode, pen);
    }

    /** The objects a drag may change: the dragged shape and its move record, or the shape under construction. */
    function DragObjects(me: MouseEvent): set<object>
      requires Valid()
      reads this, buffer, ModeObject()
    {
      match currentMode
      case Directing(d) => d.DragFrame(me)
      case Drawing(d) => {d} + (if d.shape != null then {d.shape} else {})
    }

    /** A drag goes to the current mode; in either mode it leaves the canvas list and the history alone. */
    method MouseDragged(me: MouseEvent) returns (r: Outcome)
      requires Valid()
      modifies DragObjects(me)
      ensures Valid()
      ensures canvas.children == old(canvas.children) && buffer.State() == old(buffer.State())
      ensures r.Fail? ==> if currentMode.Directing? then r.error == NullPointer else r.error == ClassCast
    {
      match currentMode
      case Directing(d) => r := d.HandleDrag(me);
      case Drawing(d) => r := d.HandleDrag(me, currentShapeMode);
    }

    /**
     * A click goes to the current mode. It records at most one action: an
     * erase in the director mode, a drawn point in the drawing mode.
     */
    method MouseClicked(me: MouseEvent, pen: Pen)
      requires Valid()
      modifies ModeObject(), canvas, buffer
      ensures Valid()
      ensures buffer.State() == old(buffer.State()) || Records(old(buffer.State()), buffer.State())
      ensures Records(old(buffer.State()), buffer.State()) ==>
        if currentMode.Directing? then buffer.State().Latest().Erase? else buffer.State().Latest().Draw?
    {
      match currentMode
      case Directing(d) => d.HandleClick(me);
      case Drawing(d) => d.HandleClick(me, pen);
    }

    /** A release goes to the current mode; only the drawing mode has something to let go of. */
    method MouseReleased(me: MouseEvent)
      requires Valid()
      modifies ModeObject()
      ensures Valid()
      ensures currentMode.Drawing? ==>
        && currentMode.drawer.shape == null
        && currentMode.drawer.drawingShape == old(currentMode.drawer.drawingShape)
        && currentMode.drawer.shapeStartX == old(currentMode.drawer.shapeStartX)
        && currentMode.drawer.shapeStartY == old(currentMode.drawer.shapeStartY)
    {
      match currentMode
      case Directing(d) => d.HandleRelease(me);
      case Drawing(d) => d.HandleRelease();
    }

    /** Entering a shape highlights it in the director mode only. */
    method MouseEntered(me: MouseEvent)
      requires Valid()
      modifies Hovered(me)
      ensures Valid()
      ensures me.source.OnShape? ==>
        && me.source.shape.highlighted == (currentMode.Directing? || old(me.source.shape.highlighted))
        && OnlyHighlightChanged(me.source.shape)
    {
      match currentMode
      case Directing(d) => d.HandleEnter(me);
      case Drawing(d) => d.HandleEnter(me);
    }

    /** Leaving a shape clears its highlight in the director mode only. */
    method MouseExited(me: MouseEvent)
      requires Valid()
      modifies Hovered(me)
      ensures Valid()
      ensures me.source.OnShape? ==>
        && me.source.shape.highlighted == (currentMode.Drawing? && old(me.source.shape.highlighted))
        && OnlyHighlightChanged(me.source.shape)
    {
      match currentMode
      case Directing(d) => d.HandleExit(me);
      case Drawing(d) => d.HandleExit(me);
    }
  }
}
