# svg-designer: drag-to-geometry model

A Dafny model of the drawing pane of the svg-designer editor (`src/App.tsx`). You draw a shape by
pressing the pointer, dragging and releasing it. The model covers two pieces of logic:

- **Geometry** (`geometry.dfy`). A `Drawable` is the raw drag span, tagged with the tool id that
  was selected when the drag began. One normaliser per registered tool turns a span into
  canonical geometry:
  - `rectangle`: top-left corner plus size.
  - `ellipse`: centre plus half-extents.
  - `circle`: radius is the larger half-extent, and the circle hangs from the span's top-left
    corner.
  - `line` and `polyline`: the two endpoints, in drag order.

  The table that maps tool ids to normalisers is partial. `Lookup` returns `None` for the
  toolbar ids `pointer`, `polygon` and `path`, and for any other id that is not registered.
  `Render` picks the normaliser by a span's own tag.
- **Interaction** (`interaction.dfy`). The editor state is the selected tool, the committed spans
  (`content`, in paint order) and the span being dragged (`active`). Pointer down, move and up
  are pure transitions on this state, and so is the toolbar's `setTool`. `Step` handles a single
  event and `Run` handles a sequence of events.
- **Scenarios** (`scenarios.dfy`) contains concrete event traces and the geometry each one
  produces.

The drawing stores raw spans, not geometry. Normalisation happens only when the scene is drawn
(`Scene`). The normalisers do no degeneracy check. The only one is the test at
src/App.tsx:107: pointer-up drops a span with no extent in x or no extent in y
(`Committable`). The rule is the same for every tool, so a horizontal line is dropped even
though it has positive length. Pointer-up does not read its own event's coordinates, so the
model's `Up` event carries none.

Coordinates are exact `real`s, so `min`, absolute difference and halving are exact.

## Model

| member | source | states |
|---|---|---|
| Geometry.Lesser | src/App.tsx:19-20 | the chosen coordinate is one of the two and no larger than either |
| Geometry.Extent | src/App.tsx:21-22 | the distance is non-negative and is one of the two signed differences |
| Geometry.NormalizeRect | src/App.tsx:18-22 | the rectangle's left and right edges are exactly the span's two x coordinates, its top and bottom edges exactly the two y coordinates, and width and height are non-negative |
| Geometry.NormalizeCircle | src/App.tsx:28-33 | twice the radius is the larger of the x and y extents, and the circle's left and top edges are the span's smaller x and smaller y |
| Geometry.NormalizeEllipse | src/App.tsx:37-41 | the radii are non-negative and the bounding box has the span's two x and two y coordinates as its edges |
| Geometry.NormalizeLine | src/App.tsx:47-51 | the endpoints are the drag start and the drag end, in that order |
| Geometry.NormalizePolyline | src/App.tsx:63-67 | the polyline has exactly two points: the drag start, then the drag end |
| Geometry.Lookup | src/App.tsx:17-76 | a tool id has a normaliser exactly when it is rectangle, circle, ellipse, line or polyline, and that normaliser is registered under the same id |
| Geometry.Normalize | src/App.tsx:17-76 | each table entry produces geometry of its own kind, determined by the span exactly as that entry's normaliser determines it |
| Geometry.Render | src/App.tsx:150-154 | a stored span has geometry exactly when its own tag is registered, and the geometry is the tag's normaliser applied to the span |
| Geometry.RectIgnoresDirection | src/App.tsx:18-22 | swapping a span's start and end gives the identical rectangle |
| Geometry.EllipseIgnoresDirection | src/App.tsx:37-41 | swapping start and end gives the identical ellipse |
| Geometry.CircleIgnoresDirection | src/App.tsx:28-33 | swapping start and end gives the identical circle |
| Geometry.LineFollowsDirection | src/App.tsx:47-72 | swapping start and end reverses the line and the polyline |
| Geometry.EllipseBoxIsRect | src/App.tsx:18-41 | the ellipse's bounding box equals the rectangle for the same span |
| Geometry.CircleAnchoredAtRectCorner | src/App.tsx:18-33 | the circle's left and top edges are the rectangle's, and its bounding box covers the rectangle |
| Geometry.CircleRadiusIsLargerEllipseRadius | src/App.tsx:29-31 | the circle's radius is the larger of the ellipse's two radii |
| Geometry.CommittableGivesPositiveExtent | src/App.tsx:107 | a committable span has positive extent under every normaliser; the rectangle and ellipse have positive extent only when the span is committable; the circle, line and polyline have positive extent exactly when the span has extent in some axis |
| Geometry.HorizontalLineIsNotCommittable | src/App.tsx:47-67 | a horizontal drag from (0,5) to (10,5) gives a line and a polyline of positive length, yet the commit rule at line 107 rejects it |
| Geometry.UnregisteredToolbarIds | src/App.tsx:120-128 | of the eight toolbar ids, exactly pointer, polygon and path have no normaliser |
| Interaction.Initial | src/App.tsx:13-15 | the editor starts with the rectangle tool, an empty drawing and no drag, a state that satisfies the handlers' invariants |
| Interaction.MouseDown | src/App.tsx:78-85 | whatever the prior drag, the new active span starts and ends at the pointer and carries the selected tool; tool and drawing are unchanged |
| Interaction.MouseMove | src/App.tsx:91-97 | idle: nothing changes; dragging: only the span's end moves to the pointer, while the span's tool and start, the selected tool and the drawing stay the same |
| Interaction.MouseUp | src/App.tsx:103-110 | idle: nothing changes; dragging: the drag always ends, the span is appended exactly when it has extent in both axes, and the existing drawing stays a prefix |
| Interaction.SetTool | src/App.tsx:135 | only the selected tool changes; the drawing and the in-progress drag are untouched |
| Interaction.Step | src/App.tsx:135-147 | pointer-down, move and up go to their handlers with the event's coordinates, and a toolbar selection to setTool, leaving the drag alone; so only a selection changes the tool, only pointer-up changes the drawing and always ends the drag, and pointer-down always starts a drag bound to the selected tool |
| Interaction.Run | src/App.tsx:78-114 | over any event sequence the drawing only grows at its end, and a drawing without degenerate spans keeps that property |
| Interaction.Scene | src/App.tsx:149-156 | the committed spans are drawn in paint order through their own tags, followed by the overlay of the active span |
| Interaction.DownForgetsPriorDrag | src/App.tsx:78-85 | pointer-down does not depend on the drag it replaces |
| Interaction.MoveLastWins | src/App.tsx:91-97 | two moves equal the last one, so repeating a move is the same as moving once |
| Interaction.ClickCommitsNothing | src/App.tsx:78-110 | pressing and releasing without moving commits nothing and ends idle |
| Interaction.StepKeepsNonDegenerate | src/App.tsx:107-108 | every handler and tool selection keeps every committed span's extent non-zero in both axes |
| Interaction.StepAppendsOnlyActive | src/App.tsx:108 | no event changes the drawing except pointer-up, which appends the active span |
| Interaction.DragKeepsBinding | src/App.tsx:80-96 | during a drag, moves and tool changes keep the span's tool and start and leave the drawing unchanged |
| Interaction.DragCommitsBoundTool | src/App.tsx:80-108 | a drag commits at most one span, tagged with the tool that was selected at pointer-down, even if the tool was changed during the drag |
| Interaction.RunAppend | src/App.tsx:78-114 | handling two event sequences one after the other is the same as handling their concatenation |
| Interaction.RunKeepsToolbarTagged | src/App.tsx:80 | when tools are selected only from the toolbar, every tag in the state is a toolbar id |
| Interaction.SceneAtRelease | src/App.tsx:103-110 | at pointer-up the scene keeps the released shape, now committed, exactly when the span is committable, and otherwise shows only the committed shapes |
| Interaction.SurvivingRunCommitsRenderable | src/App.tsx:150-154 | along a run in which the scene renders before every event, every committed span has geometry, so the source never commits a span tagged pointer, polygon or path |
| Interaction.ReachableShapesHavePositiveExtent | src/App.tsx:107-150 | in every state reachable from the initial one, every committed shape that has geometry has positive extent |
| Interaction.ReachableUnrenderableTags | src/App.tsx:150 | in the model, which runs past the source's render error, with toolbar-only selection a committed span has no geometry exactly when its tag is pointer, polygon or path |
| Scenarios.RectangleDrag | src/App.tsx:13-25 | dragging from (0,0) to (10,10) with the default tool commits one 10 by 10 rectangle at the origin and ends idle |
| Scenarios.VerticalDragCommitsNothing | src/App.tsx:107 | a purely vertical drag commits nothing and ends idle, for any state, tool and coordinates, (10,10) to (10,50) included |
| Scenarios.ToolSwitchMidDrag | src/App.tsx:80-108 | switching to ellipse during a rectangle drag still commits a rectangle |
| Scenarios.CommitsInOrder | src/App.tsx:108 | two drags are committed in the order they were made |
| Scenarios.CircleHangsFromCorner | src/App.tsx:28-33 | a circle drag from (0,0) to (10,4) gives radius 5 centred at (5,5) |
| Scenarios.PointerDragHasNoGeometry | src/App.tsx:150-155 | a drag under the pointer tool has no overlay geometry, the point where the source's render throws; the model's continuation commits a span with no geometry, which the source never reaches |

## Left out

- SVG element construction, class names and formatting the polyline's `points` string
  (src/App.tsx:24-26, 35, 43-45, 53-61, 69-74): presentation only.
- React state hooks and closures. They are replaced by an immutable state record and pure
  transition functions.
- The DOM event object (`offsetX`/`offsetY`, `stopPropagation`, `preventDefault`). Coordinates
  are plain parameters.
- The toolbar's rendering and highlighting (src/App.tsx:119-139). Only `setTool(id)` is kept.
- IEEE floating-point rounding. Coordinates are exact reals.
- The render error under pointer, polygon or path. Pointer-down under one of these tools sets
  the active span (src/App.tsx:79). The next render calls the missing table entry at
  src/App.tsx:154, which throws a TypeError. Nothing catches it, so the editor stops and the
  matching pointer-up is never handled. The model does not stop. Its lookup gives `None`, and
  `Render` and `Scene` report a missing geometry. Transitions continue past that point, so the
  model can commit spans tagged pointer, polygon or path. Such drawings exist only in the model.
  `SurvivingRunCommitsRenderable` characterises the runs the source actually completes.
