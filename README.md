# DrawerFX core in Dafny

DrawerFX is a small JavaFX drawing editor. On a canvas the user draws strokes, rectangles, circles, lines, ellipses, squares and single points. Holding CONTROL switches to a director mode. There a press and drag moves a shape, a secondary click erases it, and hovering highlights it. ESCAPE undoes the latest edit and SPACE redoes it.

This project models the parts of the editor that hold real logic. The repository contains two revisions of them:

- **Current revision** (the `drawer` packages):
  - the `ActionBufferImpl` history;
  - the `DrawAction`, layout-based `MoveAction` and `ApplicationStartAction` records;
  - the `DrawerMode` and `DirectorMode` usage modes;
  - the `DrawerFX` application object, which switches between the modes and dispatches mouse events to the current one.
- **Older revision** (the root package, plus `drawer/DirectorMode.java` and `drawer/EditHistoryBuffer.java`):
  - the `EditHistoryBuffer` history;
  - `EraseAction` and the translate-based `MoveAction`;
  - a director mode over `EditHistoryBuffer`;
  - the monolithic `DrawerFX`, whose handlers choose between drawing and directing by a flag.

Each source file is modelled as it is written.

Modules:

- **Common**: `Option` stands for a nullable reference, and `Outcome` for an operation that may stop with an exception.
- **Geometry**:
  - points and the shape geometries;
  - the drag rules of each shape kind: rectangle, ellipse, circle, square, line and stroke;
  - the pointer offset arithmetic of a move.
- **Shapes**:
  - `Shape` is a class with geometry, paint, layout and translate position, and a highlight flag.
  - `Canvas` is a class whose ordered child list says what is visible.
  - `Without` models `List.remove(Object)`.
- **Actions**:
  - the reversible edits as classes whose `Undo`/`Redo` change the canvas or one shape in place;
  - the `Action` datatype the history holds (`Start` and `Blank` are the two end-of-history sentinels);
  - `Undone`/`Redone`, which state the effect of undo and redo on every kind of action.
- **History**:
  - the undo/redo log as a value: entries and a cursor;
  - the operations on it (clear, record, step back, step forward);
  - the laws relating them.
- **ActionBuffer** and **EditHistory**: the two buffer classes. Each keeps a sequence and a cursor in place of a list iterator. Every method is stated against the `History` value the buffer holds.
- **Tools**: the starting geometry and paint of a shape created by a press.
- **Events**: mouse events (with the node they reach), key codes, tool-selection toggles, and the pen (stroke width, colour, fill setting) as plain values.
- **DrawerModes**, **DirectorModes**, **LegacyDirector**: the usage modes as classes with the source's fields.
- **DrawerApp**: the current application object as a class holding its mode fields.
- **LegacyApp**: the older application object. It holds one field per in-progress shape kind, plus the anchors and flags its handlers update.

Coordinates are exact reals. The source's arithmetic here is subtraction, halving and comparison, so the stated equalities are the intended ones. A thrown exception is an `Outcome` value:

- the redo of the start sentinel throws `InputMismatchException`;
- a drag against a move record without a pointer anchor throws a null-pointer exception;
- a drag whose in-progress shape is not of the selected kind throws a class-cast exception.

## Model

| member | source | states |
|---|---|---|
| Geometry.RectangleDrag | src/drawer/mode/DrawerMode.java:68-101 | The pointer and the anchor are opposite corners in all four drag directions: x and y are the smaller coordinates, width and height are the absolute distances (never negative), and x + width, y + height are the larger coordinates. |
| Geometry.RectangleDragSymmetric | src/drawer/mode/DrawerMode.java:68-101 | Swapping the anchor and the pointer gives the same rectangle. |
| Geometry.EllipseDrag | src/drawer/mode/DrawerMode.java:139-166 | The centre is the midpoint of the anchor and the pointer, and the radii are half the horizontal and half the vertical distance. |
| Geometry.CircleDrag | src/drawer/mode/DrawerMode.java:103-128 | The centre is the midpoint, and the radius is the larger of the two half-distances (never negative). |
| Geometry.SquareDrag | src/drawer/mode/DrawerMode.java:167-201 | Width equals height and is never negative. The anchor is a corner of the square, and x is the smaller of the two x coordinates. The side is the horizontal distance, except in the upper-right branch (lines 180-186), where it is the vertical distance and the top edge is at the pointer. In the other three branches the square lies below the anchor when the pointer is below it (top edge at the anchor), and above it otherwise (bottom edge at the anchor). |
| Geometry.SquareUpperRightUsesVerticalDistance | src/drawer/mode/DrawerMode.java:180-186 | A drag up and to the right by (10, 2) gives side 2, while the mirrored drag gives side 10. |
| Geometry.PointSquare | src/drawer/mode/DrawerMode.java:50-52 | The clicked point is a square whose side is the stroke width, centred on the click. |
| Geometry.Reshape | src/drawer/mode/DrawerMode.java:60-203 | A drag of the in-progress shape fails exactly when its class does not fit the selected mode, and the result then fits that mode. A stroke gains exactly one LineTo at the pointer. A line runs from the anchor to the pointer. Rectangle, square, circle and ellipse follow their drag rules. With no shape mode selected the geometry is kept. |
| Geometry.Offset | src/drawer/mode/DirectorMode.java:83-87 | The offset added to the original pointer point gives the current pointer point. `DirectorModes.DragFollowsPointer` shows what this and `Translated` achieve together: the dragged layout follows the pointer. |
| Geometry.Translated | src/drawer/mode/DirectorMode.java:89-93 | The new layout lies at exactly the given offset from the old one. Its partner is `DirectorModes.DragFollowsPointer`. |
| Shapes.Without | src/drawer/action/DrawAction.java:28-30 | Removing a shape removes one copy of it, and leaves the list unchanged when the shape is absent. |
| Shapes.WithoutSplits | src/drawer/action/DrawAction.java:28-30 | The other children keep their relative order: the list is cut around the first occurrence. |
| Shapes.WithoutDistinct | src/drawer/action/DrawAction.java:28-30 | In a list without duplicates, the removed shape is gone entirely and no duplicates appear. |
| Shapes.WithoutAppended | src/EraseAction.java:26-33 | Appending a shape that was absent and then removing it gives back the original list, so erase-undo followed by erase-redo leaves the shape absent again. |
| Shapes.WithoutThenAppend | src/drawer/action/DrawAction.java:28-35 | Removing a present shape and appending it again keeps the same children; only the shape's position in the list changes. |
| Shapes.Canvas.Add | src/drawer/action/DrawAction.java:33-35 | The same shape instance is appended at the end, and a list without duplicates stays without duplicates. |
| Shapes.Canvas.Remove | src/drawer/action/DrawAction.java:28-30 | The children become the list with that shape removed, and the shape is no longer a child when there were no duplicates. |
| Actions.DrawAction.constructor | src/drawer/action/DrawAction.java:22-25 | Stores the canvas and the shape. Both are constant fields, so neither is ever reassigned. |
| Actions.DrawAction.Undo | src/drawer/action/DrawAction.java:28-30 | Takes the drawn shape off the canvas; the other children keep their relative order. |
| Actions.DrawAction.Redo | src/drawer/action/DrawAction.java:33-35 | Appends the same shape instance to the end of the children. |
| Actions.EraseAction.constructor | src/EraseAction.java:20-23 | Stores the canvas and the erased shape. |
| Actions.EraseAction.Undo | src/EraseAction.java:26-28 | Appends the erased shape back onto the canvas. |
| Actions.EraseAction.Redo | src/EraseAction.java:31-33 | Removes the erased shape; the other children keep their relative order. |
| Actions.Restore | src/drawer/action/MoveAction.java:30-43 | A move sets a position to the saved point if one was recorded, and otherwise leaves it as it is. |
| Actions.RestoreIdempotent | src/drawer/action/MoveAction.java:30-43 | Undoing or redoing a move twice has the same effect as doing it once. |
| Actions.RestoreOverrides | src/drawer/action/MoveAction.java:30-43 | Once the new point is recorded, undo followed by redo leaves the shape at the new point, whatever undo did before. |
| Actions.MoveAction.constructor | src/drawer/action/MoveAction.java:25-27 | Stores the shape; all three points start unset. |
| Actions.MoveAction.Undo | src/drawer/action/MoveAction.java:30-35 | Sets the layout position to the old layout point if one is set, and otherwise changes nothing. Only the shape's layout X and Y may change. |
| Actions.MoveAction.Redo | src/drawer/action/MoveAction.java:38-43 | Sets the layout position to the new layout point only if one is set, so after a press with no drag redo changes nothing. Only the shape's layout X and Y may change. |
| Actions.MoveAction.SetOldLayoutPoint | src/drawer/action/MoveAction.java:45-47 | Sets the old layout point and changes no other field. |
| Actions.MoveAction.SetNewLayoutPoint | src/drawer/action/MoveAction.java:49-51 | Sets the new layout point and changes no other field. |
| Actions.MoveAction.SetOriginalMousePoint | src/drawer/action/MoveAction.java:53-55 | Sets the original mouse point and changes no other field. |
| Actions.MoveAction.GetOriginalMousePoint | src/drawer/action/MoveAction.java:57-59 | Returns the value last set, or none. |
| Actions.TranslateMoveAction.constructor | src/MoveAction.java:23-25 | Stores the shape; both points start unset. |
| Actions.TranslateMoveAction.Undo | src/MoveAction.java:28-33 | Sets the translate position to the old point only when one is set. Only the shape's translate X and Y may change. |
| Actions.TranslateMoveAction.Redo | src/MoveAction.java:36-41 | Sets the translate position to the new point only when one is set. Only the shape's translate X and Y may change. |
| Actions.TranslateMoveAction.SetOldPoint | src/MoveAction.java:43-45 | Sets the old point and changes no other field. |
| Actions.TranslateMoveAction.SetNewPoint | src/MoveAction.java:47-49 | Sets the new point and changes no other field. |
| Actions.UndoAction | src/drawer/action/ApplicationStartAction.java:16-20 | Undo of any history entry has the effect `Undone` states for that kind of entry, and changes only that entry's canvas or shape. The start sentinel's undo asks for exit confirmation and changes nothing else. |
| Actions.RedoAction | src/drawer/action/ApplicationStartAction.java:54-56 | Redo of any history entry has the effect `Redone` states for that kind of entry. The start sentinel's redo fails with an input-mismatch error and changes nothing. |
| History.Empty | src/drawer/buffer/ActionBufferImpl.java:22-26 | The cleared log has nothing to undo and nothing to redo. |
| History.Truncated | src/drawer/buffer/ActionBufferImpl.java:34-39 | The log keeps exactly the done entries and has nothing left to redo. |
| History.Added | src/drawer/buffer/ActionBufferImpl.java:28-32 | After recording, the done entries are the old done entries plus the new action, which is the latest. Nothing is left to redo, the length is the old cursor + 1, and the cursor is at the end. |
| History.Previous | src/drawer/buffer/ActionBufferImpl.java:41-47 | With the cursor above 0, returns the latest done entry and moves it to the front of the undone ones, decrementing the cursor. At 0 it returns the start sentinel and changes nothing. The entries never change. |
| History.Next | src/drawer/buffer/ActionBufferImpl.java:49-55 | Below the end, returns the first undone entry and moves it to the back of the done ones, incrementing the cursor. At the end it returns the blank sentinel and changes nothing. The entries never change. |
| History.EmptyEnds | src/drawer/buffer/ActionBufferImpl.java:22-55 | After clearing, a step back yields the start sentinel and a step forward yields the blank one, and neither changes the log. |
| History.PreviousThenNext | src/drawer/buffer/ActionBufferImpl.java:41-55 | A step back followed by a step forward returns the same action and restores the original log. |
| History.NextThenPrevious | src/drawer/buffer/ActionBufferImpl.java:41-55 | A step forward followed by a step back returns the same action and restores the original log. |
| History.AddAllAppends | src/drawer/buffer/ActionBufferImpl.java:28-39 | Recording a non-empty run of actions appends the run to the done entries and leaves nothing to redo. |
| History.StepBackMovesCursor | src/drawer/buffer/ActionBufferImpl.java:41-47 | K steps back within the done entries move the cursor back by K and keep every entry. |
| History.RecordedRun | src/drawer/buffer/ActionBufferImpl.java:22-39 | Recording a run into a cleared log gives exactly that run, all done. |
| History.TruncationCount | src/drawer/buffer/ActionBufferImpl.java:28-47 | N recordings, then K ≤ N steps back, then one more recording leave exactly N − K + 1 entries: the first N − K recorded actions and then the new one, with the cursor at the end. |
| ActionBuffer.ActionBufferImpl.constructor | src/drawer/buffer/ActionBufferImpl.java:18-20 | A new buffer holds the cleared log. |
| ActionBuffer.ActionBufferImpl.Clear | src/drawer/buffer/ActionBufferImpl.java:22-26 | Afterwards the buffer holds the empty log with the cursor at 0. |
| ActionBuffer.ActionBufferImpl.Add | src/drawer/buffer/ActionBufferImpl.java:28-32 | The new log is the old one with the undone entries discarded and the action recorded as the latest done one. |
| ActionBuffer.ActionBufferImpl.CleanForwardHistory | src/drawer/buffer/ActionBufferImpl.java:34-39 | The loop removes every entry at or after the cursor, one at a time, and keeps the entries before it and the cursor. |
| ActionBuffer.ActionBufferImpl.GetPrevious | src/drawer/buffer/ActionBufferImpl.java:41-47 | Returns the action `History.Previous` hands out, and the buffer holds the log it produces. |
| ActionBuffer.ActionBufferImpl.GetNext | src/drawer/buffer/ActionBufferImpl.java:49-55 | Returns the action `History.Next` hands out, and the buffer holds the log it produces. |
| ActionBuffer.ActionBufferImpl.PeekPrevious | src/drawer/buffer/ActionBufferImpl.java:57-68 | Returns what `GetPrevious` would: the entry before the cursor, or the start sentinel at 0. It leaves the entries and the cursor unchanged. |
| ActionBuffer.ActionBufferImpl.PeekNext | src/drawer/buffer/ActionBufferImpl.java:70-81 | Returns what `GetNext` would: the entry at the cursor, or the blank sentinel at the end. It leaves the entries and the cursor unchanged. |
| EditHistory.EditHistoryBuffer.constructor | src/drawer/EditHistoryBuffer.java:18-20 | A new buffer holds the cleared log. |
| EditHistory.EditHistoryBuffer.Clear | src/drawer/EditHistoryBuffer.java:22-25 | Resets to the empty log with the cursor at 0. |
| EditHistory.EditHistoryBuffer.AddAction | src/drawer/EditHistoryBuffer.java:27-30 | Discards the forward history and appends the action, leaving the cursor at the end. |
| EditHistory.EditHistoryBuffer.CleanForwardHistory | src/drawer/EditHistoryBuffer.java:32-37 | The loop removes every entry at or after the cursor and keeps the entries before it. |
| EditHistory.EditHistoryBuffer.GetPreviousAction | src/drawer/EditHistoryBuffer.java:39-44 | Steps back over one entry and returns it, or returns the start sentinel at the beginning without moving. |
| EditHistory.EditHistoryBuffer.GetNextAction | src/drawer/EditHistoryBuffer.java:47-52 | Steps forward over one entry and returns it, or returns the blank sentinel at the end without moving. |
| EditHistory.EditHistoryBuffer.PeekPreviousAction | src/drawer/EditHistoryBuffer.java:54-64 | Returns what `GetPreviousAction` would, and leaves the entries and the cursor unchanged. |
| EditHistory.EditHistoryBuffer.PeekNextAction | src/drawer/EditHistoryBuffer.java:66-76 | Returns what `GetNextAction` would, and leaves the entries and the cursor unchanged. |
| Tools.InitialGeom | src/drawer/mode/DrawerMode.java:212-298 | The shape a press creates in a shape mode is of the class that mode works on. |
| Tools.Style | src/drawer/mode/DrawerMode.java:212-298 | A shape has no outline exactly when it is a closed kind and the fill setting is on; it is then painted in the pen colour. Otherwise it is outlined in the pen colour and width and its inside is not coloured. A stroke or line has no fill paint at all. |
| Tools.DragAfterPressFits | src/drawer/mode/DrawerMode.java:60-299 | A drag in the mode a shape was created in never meets the wrong shape class. |
| DrawerModes.DrawerMode.constructor | src/drawer/mode/DrawerMode.java:27-37 | The mode works on the given canvas and buffer, with no shape in progress and the drag flag clear. |
| DrawerModes.DrawerMode.HandlePress | src/drawer/mode/DrawerMode.java:206-299 | Every press records the pointer as the anchor, whatever the button. In a shape mode it creates one new shape with that mode's starting geometry and paint, appends it to the canvas, records exactly one fresh `DrawAction` for it as the latest entry, and makes it the shape in progress. With no shape mode selected, nothing else changes. |
| DrawerModes.DrawerMode.HandleDrag | src/drawer/mode/DrawerMode.java:60-203 | Sets the drag flag. Reshapes the shape in progress by the selected mode's rule and keeps its paint, position and highlight. A shape of the wrong class gives a class-cast failure and keeps its geometry. Without a shape in progress, only the flag changes. |
| DrawerModes.DrawerMode.HandleClick | src/drawer/mode/DrawerMode.java:40-57 | A non-primary click does nothing. A primary click after a drag only clears the flag. Otherwise it records exactly one fresh `DrawAction` for a new square whose side is the pen width, centred on the click, filled in the pen colour, and appended to the canvas. |
| DrawerModes.DrawerMode.HandleRelease | src/drawer/mode/DrawerMode.java:302-304 | Lets go of the shape in progress; the drag flag is left as it is. |
| DrawerModes.DrawerMode.HandleEnter | src/drawer/mode/DrawerMode.java:307-309 | Changes nothing (no modifies clause). The shape entered keeps its highlight, and the canvas and the history stay as they are. |
| DrawerModes.DrawerMode.HandleExit | src/drawer/mode/DrawerMode.java:312-314 | Changes nothing (no modifies clause). The shape left keeps its highlight, and the canvas and the history stay as they are. |
| DirectorModes.DirectorMode.constructor | src/drawer/mode/DirectorMode.java:26-29 | The mode works on the given canvas and buffer. |
| DirectorModes.DirectorMode.HandleClick | src/drawer/mode/DirectorMode.java:32-38 | A secondary click on a shape removes it from the canvas and records exactly one fresh `EraseAction` for it. Any other click changes neither the canvas nor the history. |
| DirectorModes.DirectorMode.HandleDrag | src/drawer/mode/DirectorMode.java:41-57 | Acts only on a shape source when the latest done entry is a move. The new layout is the current layout plus the pointer's offset from the move's original mouse point. That layout is applied to the shape and stored as the move's new layout point. The old layout point is untouched, and the history never changes. A move without a mouse point gives a null-pointer failure before anything changes. |
| DirectorModes.DirectorMode.HandlePress | src/drawer/mode/DirectorMode.java:60-74 | A press on a shape, whatever the button, records exactly one fresh move. The move holds the pointer as its original mouse point, the current layout as its old layout point, and no new point. A press elsewhere changes nothing. |
| DirectorModes.DirectorMode.HandleEnter | src/drawer/mode/DirectorMode.java:77-81 | Highlights the shape entered and changes nothing else about it. |
| DirectorModes.DirectorMode.HandleExit | src/drawer/mode/DirectorMode.java:101-104 | Clears the highlight of the shape left and changes nothing else about it. |
| DirectorModes.DirectorMode.HandleRelease | src/drawer/mode/DirectorMode.java:96-98 | Changes nothing (no modifies clause); the canvas and the history stay as they are. |
| DirectorModes.ToLocal | src/drawer/mode/DirectorMode.java:83-93 | A scene point expressed in a shape's local coordinates maps back to the same scene point. |
| DirectorModes.DragFollowsPointer | src/drawer/mode/DirectorMode.java:41-57 | The pointer is read in the local coordinates of a shape that has already moved, so each drag step leaves the layout at the press-time layout plus the pointer's movement in the scene. |
| LegacyDirector.DirectorMode.constructor | src/drawer/DirectorMode.java:23-26 | The mode works on the given canvas and history buffer. |
| LegacyDirector.DirectorMode.HandleClick | src/drawer/DirectorMode.java:29-35 | A secondary click on a shape removes it and records exactly one fresh `EraseAction`. Other clicks change nothing. |
| LegacyDirector.DirectorMode.HandleDrag | src/drawer/DirectorMode.java:38-54 | When the previous entry is a move: moves the shape's layout by the pointer's offset from the move's original mouse point, and records the result as the move's new layout point. Never adds entries. A missing mouse point gives a null-pointer failure. |
| LegacyDirector.DirectorMode.HandlePress | src/drawer/DirectorMode.java:57-71 | A press on a shape records exactly one fresh move, holding the mouse point and the old layout. |
| LegacyDirector.DirectorMode.HandleEnter | src/drawer/DirectorMode.java:74-78 | Highlights the shape entered and changes nothing else about it. |
| LegacyDirector.DirectorMode.HandleExit | src/drawer/DirectorMode.java:98-101 | Clears the highlight of the shape left and changes nothing else about it. |
| LegacyDirector.DirectorMode.HandleRelease | src/drawer/DirectorMode.java:93-95 | Changes nothing (no modifies clause); the canvas and the history stay as they are. |
| DrawerApp.DrawerFX.constructor | src/drawer/DrawerFX.java:77-85 | Initially the history is empty, the current mode is the drawer-mode instance, and the shape mode is STROKE. |
| DrawerApp.DrawerFX.SetApplicationModes | src/drawer/DrawerFX.java:133-136 | Replaces the director and drawer instances with new ones. The current mode is not reassigned, so it keeps the earlier instance. |
| DrawerApp.DrawerFX.Undo | src/drawer/DrawerFX.java:311-314 | Steps the history back, then applies the undo of the action handed out, with the effect `Undone` states. |
| DrawerApp.DrawerFX.Redo | src/drawer/DrawerFX.java:307-310 | Steps the history forward, then applies the redo of the action handed out, with the effect `Redone` states. Redo of the start sentinel fails. |
| DrawerApp.DrawerFX.KeyPressed | src/drawer/DrawerFX.java:141-157 | SPACE redoes exactly once (the filter consumes it) and ESCAPE undoes. CONTROL makes the director instance the current mode. Only the entry the key acts on may change: ESCAPE touches only what the previous entry's undo changes, SPACE only what the next entry's redo changes, and any other key changes no shape, no canvas and no history. |
| DrawerApp.DrawerFX.KeyReleased | src/drawer/DrawerFX.java:158-162 | Releasing CONTROL makes the drawer instance the current mode; other keys leave the mode unchanged. |
| DrawerApp.DrawerFX.ShapeToggleChanged | src/drawer/DrawerFX.java:278-286 | Selecting a shape toggle sets its shape mode; any other toggle, or deselection, gives UNKNOWN. |
| DrawerApp.DrawerFX.MousePressed | src/drawer/MouseEventDelegator.java:22-24 | A press goes to the current mode. In the director mode it records one move when pressed on a shape and never changes the canvas. In the drawing mode it records and shows one drawn shape, unless no shape mode is selected. |
| DrawerApp.DrawerFX.MouseDragged | src/drawer/MouseEventDelegator.java:18-20 | A drag goes to the current mode and never changes the canvas list or the history. A failure is a null pointer in the director mode and a class cast in the drawing mode. |
| DrawerApp.DrawerFX.MouseClicked | src/drawer/MouseEventDelegator.java:14-16 | A click goes to the current mode and records at most one action: an erase in the director mode, a drawing in the drawing mode. |
| DrawerApp.DrawerFX.MouseReleased | src/drawer/MouseEventDelegator.java:30-32 | A release goes to the current mode. In the drawing mode the shape in progress is let go, while the drag flag and the press anchor keep their values. |
| DrawerApp.DrawerFX.MouseEntered | src/drawer/MouseEventDelegator.java:26-28 | Entering a shape highlights it in the director mode only, and changes nothing else about it. |
| DrawerApp.DrawerFX.MouseExited | src/drawer/MouseEventDelegator.java:34-36 | Leaving a shape clears its highlight in the director mode; in the drawing mode the highlight is kept. |
| LegacyApp.DrawerFX.constructor | src/DrawerFX.java:48-165 | The history starts empty with nothing in progress, and the drawing mode is active. |
| LegacyApp.DrawerFX.ClickHandler | src/DrawerFX.java:329-361 | In director mode, a secondary click on a shape erases it and records one fresh `EraseAction`. In drawing mode, a primary click after a drag only clears the flag; otherwise it records and shows one point square of the pen width. Other clicks change neither the canvas nor the history. |
| LegacyApp.DrawerFX.DragHandler | src/DrawerFX.java:366-522 | A non-primary drag changes nothing: its frame holds only the drag flag, which it keeps. A director drag off a shape changes nothing either. In director mode, on a shape, the translate position is set to the press-time translate plus the pointer's scene movement, whatever the history holds. That position is stored as the new point only when the latest entry is a translate move. In drawing mode, the flag is set and the selected kind's shape in progress is reshaped by the shared drag rules; its paint, position and highlight are kept. The history and the canvas list never change. |
| LegacyApp.DrawerFX.DragToMove | src/DrawerFX.java:372-388 | Sets the shape's translate position to the press-time translate plus the pointer's scene offset, and updates only the new point of a latest translate move. |
| LegacyApp.DrawerFX.DragToDraw | src/DrawerFX.java:389-519 | Sets the drag flag and reshapes the selected kind's shape in progress; its paint, position and highlight are kept. |
| LegacyApp.DrawerFX.PressHandler | src/DrawerFX.java:527-683 | A non-primary press is ignored. In director mode, the scene anchor is recorded; on a shape, its translate position is recorded and one fresh translate move is recorded with that as its old point. In drawing mode, each shape kind creates, shows and records exactly one shape and keeps it in progress. Every kind but the stroke takes the pointer as the drag anchor. |
| LegacyApp.DrawerFX.PressToMove | src/DrawerFX.java:533-547 | Records the scene anchor and, on a shape, its translate anchor and one fresh translate move from there. |
| LegacyApp.DrawerFX.PressToDraw | src/DrawerFX.java:548-680 | Creates one shape of the selected kind with its starting geometry and paint, shows it, records one fresh `DrawAction`, and keeps it in that kind's field. The anchor is set for every kind but the stroke. |
| LegacyApp.DrawerFX.Adopt | src/DrawerFX.java:548-680 | Stores the new shape in its own kind's field and no other. |
| LegacyApp.DrawerFX.ReleaseHandler | src/DrawerFX.java:688-703 | Clears the in-progress path, rectangle, circle, line or ellipse of the selected kind, but never the square. |
| LegacyApp.DrawerFX.EnterHandler | src/DrawerFX.java:708-712 | Entering a shape highlights it only in director mode. |
| LegacyApp.DrawerFX.ExitHandler | src/DrawerFX.java:717-720 | Leaving a shape clears its highlight in either mode. |
| LegacyApp.DrawerFX.Undo | src/DrawerFX.java:733-736 | Applies `getPreviousAction().undo()`: steps back, with the effect `Undone` states. |
| LegacyApp.DrawerFX.Redo | src/DrawerFX.java:725-728 | Applies `getNextAction().redo()`: steps forward, with the effect `Redone` states. |
| LegacyApp.DrawerFX.KeyPressed | src/DrawerFX.java:299-307 | ESCAPE undoes. SPACE redoes exactly once: the scene filter (lines 174-180) consumes it before the handler's own SPACE branch. CONTROL turns director mode on. Only the entry the key acts on may change: ESCAPE touches only what the previous entry's undo changes, SPACE only what the next entry's redo changes, and any other key changes no shape, no canvas and no history. |
| LegacyApp.DrawerFX.KeyReleased | src/DrawerFX.java:308-312 | Releasing CONTROL turns director mode off. |

## Left out

- Window, scene and tool-box construction (`start`, the `create*Box` helpers, `setupCanvas`) is user-interface plumbing. The help window opened by F1 is not modelled either.
- `ColorSlidersBox`, `SlidersColorBinding`, `UtilityBox`, `ShapeToggleButton` and `ClearButton` are widgets. Their settings reach the model as the `Pen` value (stroke width, colour, fill setting) and as the selected `ShapeMode`.
- `SaveButton` and the save handler of the older revision write PNG files, which are I/O.
- The exit-confirmation window that `ApplicationStartAction.undo` opens, with its `System.exit`, is reported as the `exitPrompt` result.
- The start and blank sentinels are fresh objects in the source and plain values here. Nothing compares them by identity.
- `MouseEventDelegator` is folded into `DrawerApp.DrawerFX`'s mouse methods, which dispatch to the current mode.
- `registerShapeHandlers` and the per-shape `setOn…` handler wiring are not modelled. Events carry the node they reach as their source. Both revisions install the same handler on every shape and on the canvas, so one gesture on an existing shape reaches the handler twice as it bubbles up: once with the shape as source, once with the canvas. That gesture is two model calls; for example, one drawing-mode press on a shape records two drawings.
- The interfaces `Action`, `ActionBuffer`, `UsageMode` and `DrawerApplication` declare signatures only.
- `DrawerMode.updateFields` re-reads the canvas, buffer, sample line and fill property on each event. The model holds the same canvas and buffer as constants and takes the rest as parameters.
- The DropShadow effect is modelled as the `highlighted` flag.
- Doubles are modelled as exact reals, so IEEE rounding is not modelled.
- The JavaFX scene graph's coordinate transforms appear only in `DirectorModes.ToLocal`.
- The older director mode imports its records from a `drawer.actions` package that is not part of this model. Its move record is taken to be the layout-based `MoveAction`.
- The older revision selects the drawing kind by comparing the selected toggle with each tool button. Here the kind is a `ShapeMode` parameter, with `Unknown` when no tool is selected.
- The mismatched imports across revisions (`drawer.actions`, `drawer.box`, `ToggledShape`) are not reconciled; each file is modelled as written.
- Shapes.Canvas.Add: requires the shape not to be a child already. JavaFX throws `IllegalArgumentException` on a duplicate child, and that exception is not modelled.
- Actions.DrawAction.Redo, Actions.EraseAction.Undo, Actions.UndoAction, Actions.RedoAction: these inherit that precondition as `RedoEnabled`/`UndoEnabled`.
- DrawerApp.DrawerFX.Undo, DrawerApp.DrawerFX.Redo, DrawerApp.DrawerFX.KeyPressed, LegacyApp.DrawerFX.Undo, LegacyApp.DrawerFX.Redo, LegacyApp.DrawerFX.KeyPressed: these inherit the same duplicate-child precondition.
- DrawerApp.DrawerFX.MousePressed, DrawerApp.DrawerFX.MouseClicked, DrawerApp.DrawerFX.MouseDragged: state only which kind of action is recorded and what stays unchanged. The geometry, paint and move points are stated on the mode methods they dispatch to.
