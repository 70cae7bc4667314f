/**
 * The input the handlers see: mouse events with the node they were
 * delivered to, key codes, the shape tool selection, and the pen settings
 * (the sample line's stroke width and colour, and the fill check box),
 * which the model takes as plain values.
 */
module Events {
  import opened Geometry
  import opened Shapes

  datatype MouseButton = Primary | Secondary | Middle | NoButton

  /** The node an event was delivered to: a drawn shape or the canvas itself. */
  datatype Source = OnShape(shape: Shape) | OnCanvas

  /**
   * A mouse event. x and y are in the local coordinates of the source node,
   * sceneX and sceneY in scene coordinates.
   */
  datatype MouseEvent = MouseEvent(
    x: real, y: real,
    sceneX: real, sceneY: real,
    button: MouseButton,
    source: Source)
  {
    function Local(): Point2D { Point2D(x, y) }
    function Scene(): Point2D { Point2D(sceneX, sceneY) }
  }

  /** The objects a pointer crossing may change: the shape it crosses, if any. */
  function Hovered(me: MouseEvent): set<object> {
    if me.source.OnShape? then {me.source.shape} else {}
  }

  datatype KeyCode = Escape | Space | Control | F1 | OtherKey

  /** The toggle a change of the shape tool group selects; NoToggle when it is deselected. */
  datatype Toggle = ShapeToggle(mode: ShapeMode) | OtherToggle | NoToggle

  /** Stroke width and colour of the sample line, and whether closed shapes are filled. */
  datatype Pen = Pen(width: real, colour: int, fill: bool)
}
