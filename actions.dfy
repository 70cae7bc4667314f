/**
 * Reversible edits of the drawing surface. Draw and Erase toggle one
 * shape's membership in the canvas child list; the two move records set one
 * shape's layout or translate position; Start and Blank are the sentinels
 * the history hands out at its two ends.
 */
module Actions {
  import opened Common
  import opened Geometry
  import opened Shapes

  /** Drawing of a shape: undo takes it off the canvas, redo puts the same instance back. */
  class DrawAction {
    const canvas: Canvas
    const shape: Shape

    constructor (canvas: Canvas, newShape: Shape)
      ensures this.canvas == canvas && shape == newShape
    {
      this.canvas := canvas;
      shape := newShape;
    }

    method Undo()
      modifies canvas
      ensures canvas.children == Without(old(canvas.children), shape)
    {
      canvas.Remove(shape);
    }

    method Redo()
      requires shape !in canvas.children
      modifies canvas
      ensures canvas.children == old(canvas.children) + [shape]
    {
      canvas.Add(shape);
    }
  }

  /** Erasing of a shape: the mirror of DrawAction. */
  class EraseAction {
    const canvas: Canvas
    const shape: Shape

    constructor (canvas: Canvas, newShape: Shape)
      ensures this.canvas == canvas && shape == newShape
    {
      this.canvas := canvas;
      shape := newShape;
    }

    method Undo()
      requires shape !in canvas.children
      modifies canvas
      ensures canvas.children == old(canvas.children) + [shape]
    {
      canvas.Add(shape);
    }

    method Redo()
      modifies canvas
      ensures canvas.children == Without(old(canvas.children), shape)
    {
      canvas.Remove(shape);
    }
  }

  /** Where a move leaves a position: the saved point if one was recorded, else where it is. */
  function Restore(current: Point2D, saved: Option<Point2D>): (p: Point2D)
    ensures saved.None? ==> p == current
    ensures saved.Some? ==> p == saved.value
  {
    match saved
    case None => current
    case Some(q) => q
  }

  /** Applying the same restore twice is the same as once. */
  lemma RestoreIdempotent(current: Point2D, saved: Option<Point2D>)
    ensures Restore(Restore(current, saved), saved) == Restore(current, saved)
  {
  }

  /** A later restore to a recorded point overrides any earlier one. */
  lemma RestoreOverrides(current: Point2D, first: Option<Point2D>, second: Point2D)
    ensures Restore(Restore(current, first), Some(second)) == second
  {
  }

  /**
   * Moving of a shape by its layout position. The director records the
   * layout at press time, the pointer position at press time, and the
   * layout after each drag step.
   */
  class MoveAction {
    const shape: Shape
    var oldLayoutPoint: Option<Point2D>
    var newLayoutPoint: Option<Point2D>
    var originalMousePoint: Option<Point2D>

    constructor (newShape: Shape)
      ensures shape == newShape
      ensures oldLayoutPoint == None && newLayoutPoint == None && originalMousePoint == None
    {
      shape := newShape;
      oldLayoutPoint, newLayoutPoint, originalMousePoint := None, None, None;
    }

    method Undo()
      modifies shape`layoutX, shape`layoutY
      ensures Layout(shape) == Restore(old(Layout(shape)), oldLayoutPoint)
    {
      if oldLayoutPoint.Some? {
        shape.layoutX := oldLayoutPoint.value.x;
        shape.layoutY := oldLayoutPoint.value.y;
      }
    }

    method Redo()
      modifies shape`layoutX, shape`layoutY
      ensures Layout(shape) == Restore(old(Layout(shape)), newLayoutPoint)
    {
      if newLayoutPoint.Some? {
        shape.layoutX := newLayoutPoint.value.x;
        shape.layoutY := newLayoutPoint.value.y;
      }
    }

    method SetOldLayoutPoint(p: Point2D)
      modifies this`oldLayoutPoint
      ensures oldLayoutPoint == Some(p)
    {
      oldLayoutPoint := Some(p);
    }

    method SetNewLayoutPoint(p: Point2D)
      modifies this`newLayoutPoint
      ensures newLayoutPoint == Some(p)
    {
      newLayoutPoint := Some(p);
    }

    method SetOriginalMousePoint(p: Point2D)
      modifies this`originalMousePoint
      ensures originalMousePoint == Some(p)
    {
      originalMousePoint := Some(p);
    }

    method GetOriginalMousePoint() returns (p: Option<Point2D>)
      ensures p == originalMousePoint
    {
      p := originalMousePoint;
    }
  }

  /** Moving of a shape by its translate position (the older revision of MoveAction). */
  class TranslateMoveAction {
    const shape: Shape
    var oldPoint: Option<Point2D>
    var newPoint: Option<Point2D>

    constructor (newShape: Shape)
      ensures shape == newShape && oldPoint == None && newPoint == None
    {
      shape := newShape;
      oldPoint, newPoint := None, None;
    }

    method Undo()
      modifies shape`translateX, shape`translateY
      ensures Translate(shape) == Restore(old(Translate(shape)), oldPoint)
    {
      if oldPoint.Some? {
        shape.translateX := oldPoint.value.x;
        shape.translateY := oldPoint.value.y;
      }
    }

    method Redo()
      modifies shape`translateX, shape`translateY
      ensures Translate(shape) == Restore(old(Translate(shape)), newPoint)
    {
      if newPoint.Some? {
        shape.translateX := newPoint.value.x;
        shape.translateY := newPoint.value.y;
      }
    }

    method SetOldPoint(p: Point2D)
      modifies this`oldPoint
      ensures oldPoint == Some(p)
    {
      oldPoint := Some(p);
    }

    method SetNewPoint(p: Point2D)
      modifies this`newPoint
      ensures newPoint == Some(p)
    {
      newPoint := Some(p);
    }
  }

  /** Every kind of entry the history holds or hands out. */
  datatype Action =
    | Draw(draw: DrawAction)
    | Erase(erase: EraseAction)
    | Move(move: MoveAction)
    | TranslateMove(translateMove: TranslateMoveAction)
    | Start   // no earlier action: its undo asks whether to quit, its redo is an error
    | Blank   // no later action: undo and redo do nothing

  /** The objects an action's undo and redo may change. */
  function Footprint(a: Action): set<object> {
    match a
    case Draw(d) => {d.canvas}
    case Erase(e) => {e.canvas}
    case Move(m) => {m.shape}
    case TranslateMove(t) => {t.shape}
    case Start => {}
    case Blank => {}
  }

  /** The objects an action's effect is stated over: its footprint and the record itself. */
  function Objects(a: Action): set<object> {
    Footprint(a) + match a
      case Move(m) => {m}
      case TranslateMove(t) => {t}
      case _ => {}
  }

  /** Undo would not put back a shape that is already on the canvas. */
  predicate UndoEnabled(a: Action)
    reads Footprint(a)
  {
    a.Erase? ==> a.erase.shape !in a.erase.canvas.children
  }

  /** Redo would not put back a shape that is already on the canvas. */
  predicate RedoEnabled(a: Action)
    reads Footprint(a)
  {
    a.Draw? ==> a.draw.shape !in a.draw.canvas.children
  }

  /** What undoing a has done between the two states; a move changes nothing of its shape but the position. */
  twostate predicate Undone(a: Action)
    reads Objects(a)
  {
    match a
    case Draw(d) => d.canvas.children == Without(old(d.canvas.children), d.shape)
    case Erase(e) => e.canvas.children == old(e.canvas.children) + [e.shape]
    case Move(m) =>
      Layout(m.shape) == Restore(old(Layout(m.shape)), m.oldLayoutPoint) && OnlyLayoutChanged(m.shape)
    case TranslateMove(t) =>
      Translate(t.shape) == Restore(old(Translate(t.shape)), t.oldPoint) && OnlyTranslateChanged(t.shape)
    case Start => true
    case Blank => true
  }

  /** What redoing a has done between the two states; a move changes nothing of its shape but the position. */
  twostate predicate Redone(a: Action)
    reads Objects(a)
  {
    match a
    case Draw(d) => d.canvas.children == old(d.canvas.children) + [d.shape]
    case Erase(e) => e.canvas.children == Without(old(e.canvas.children), e.shape)
    case Move(m) =>
      Layout(m.shape) == Restore(old(Layout(m.shape)), m.newLayoutPoint) && OnlyLayoutChanged(m.shape)
    case TranslateMove(t) =>
      Translate(t.shape) == Restore(old(Translate(t.shape)), t.newPoint) && OnlyTranslateChanged(t.shape)
    case Start => true
    case Blank => true
  }

  /**
   * Undo of any action. The start sentinel's undo opens the exit
   * confirmation dialog; the model reports that as exitPrompt.
   */
  method UndoAction(a: Action) returns (exitPrompt: bool)
    requires UndoEnabled(a)
    modifies Footprint(a)
    ensures exitPrompt == a.Start?
    ensures Undone(a)
  {
    exitPrompt := false;
    match a
    case Draw(d) => d.Undo();
    case Erase(e) => e.Undo();
    case Move(m) => m.Undo();
    case TranslateMove(t) => t.Undo();
    case Start => exitPrompt := true;
    case Blank =>
  }

  /** Redo of any action; the start sentinel refuses it. */
  method RedoAction(a: Action) returns (r: Outcome)
    requires RedoEnabled(a)
    modifies Footprint(a)
    ensures r == if a.Start? then Fail(InputMismatch) else Pass
    ensures Redone(a)
  {
    r := Pass;
    match a
    case Draw(d) => d.Redo();
    case Erase(e) => e.Redo();
    case Move(m) => m.Redo();
    case TranslateMove(t) => t.Redo();
    case Start => r := Fail(InputMismatch);
    case Blank =>
  }
}
