# HomeDesign drawing surface, rulers and shapes — a Dafny model

HomeDesign is a WPF floor-plan editor. This project models its core:

- **The drawing surface** (`Surface.DrawingSurface`). It is a canvas whose cursor is its mode:
  - `Cross` draws (set by `InitDrawing`);
  - `Arrow` selects;
  - `SizeAll` moves the selection.

  The press, move and release handlers act on a few pieces of state: the mouse capture, the press point, the optional dashed preview rectangle, the shapes on the canvas and the `SelectedShapes` list. The page size accessors read and write the canvas size in inches or centimetres.
- **Hit testing** (`HitTest`). The framework's hit test is an oracle from points to visuals. The visual tree is a parent map with a depth labelling, so every climb reaches the canvas. `GetShapeAtLocation` climbs from the hit visual to the first shape.
- **Corner resizing** (`Resizing`). There is a pure function per thumb on (left, top, width, height), and a `ResizingAdorner` class whose handlers update the adorned shape in place. The floor of each dimension is the thumb's desired size, passed as a parameter; the thumbs are 5 by 5.
- **Units and rulers** (`Units`, `Rulers`):
  - the unit converter scales by 96 px per inch and 37.7952755905512 px per cm;
  - a ruler keeps the pixel size of one unit of its measurement;
  - the render loops of both rulers return one record per unit instead of drawing. Each record holds the unit's line position, its number, seven minor ticks and its label text.
- **Shapes** (`Shapes.Shape`). A shape holds:
  - a selection flag that only acts on a change, and adds or removes one resize decoration;
  - a location whose setter also moves the shape on the canvas;
  - a width and a height.

Coordinates are `real`. A NaN length is the explicit `Unset` value of `Geometry.Dim`.

Several behaviours of the code are modelled as written:

- **A click in drawing mode selects.** A release at the press point re-runs the hit-and-select logic only when the cursor is `Cross`, and then always switches to `Arrow`.
- **Resizing can go below 10 pixels.** A drawn shape is at least 10 by 10 pixels. Resizing only keeps each side at least the thumb size, so a resized shape can be smaller than 10 pixels.
- **Resizing does not update the location.** The corner handlers move the shape's canvas left and top but never its `Location`. The next move of the shape therefore starts from the location it had before the resize.
- **A click in drawing mode can leave the preview behind.** After a drag in drawing mode that comes back to the press point, the release forgets the preview rectangle without taking it off the canvas. `Release` states this: the count of preview rectangles on the canvas does not go down.

## Model

| member | source | states |
|---|---|---|
| Units.CmToPx | Shell/HRuler.cs:208-211 | centimetres scale to pixels by 37.7952755905512; dividing back gives the centimetres; positive exactly when the input is |
| Units.InchToPx | Shell/HRuler.cs:213-216 | inches scale to pixels by 96; dividing back gives the inches; positive exactly when the input is |
| Units.PxToCm | Shell/HRuler.cs:218-221 | the centimetres times the factor give back the pixels |
| Units.PxToInch | Shell/HRuler.cs:223-226 | the inches times 96 give back the pixels |
| Units.ToPx | Shell/DrawingSurface.cs:35-46 | the page-size setters' switch: centimetres use the centimetre conversion, every other unit the inch one; the matching getter conversion takes the result back to the value; the result is non-negative exactly when the value is |
| Units.FromPx | Shell/DrawingSurface.cs:25-34 | the page-size getters' switch, the same way round; the matching setter conversion takes the result back to the pixels |
| Units.UnitPx | Shell/HRuler.cs:200-204 | one unit is 96 px for inches and 37.7952755905512 px for centimetres, positive, and reads back as exactly one unit |
| Units.ToPxRoundTrip | Shell/HRuler.cs:208-226 | value to pixels and back is the identity in either unit |
| Units.FromPxRoundTrip | Shell/HRuler.cs:208-226 | pixels to value and back is the identity in either unit |
| Units.CmFactorIsInchOver254 | Shell/HRuler.cs:202-203 | the centimetre factor is 96/2.54 to within 1e-12 |
| Geometry.ClampAtZero | Shell/DrawingSurface.cs:231-234 | a moved coordinate is never negative, is kept when non-negative and becomes 0 otherwise; there is no upper bound |
| Shapes.Shape.constructor | Shell/BaseShape.cs:21-28 | the shape starts unselected with no decoration; it is placed at the location (location, canvas left and top) with the given width and height; its name is "Shape" |
| Shapes.Shape.SetSelected | Shell/BaseShape.cs:34-57 | the flag becomes the value; setting the current value changes nothing; a shape has a decoration exactly while selected |
| Shapes.Shape.SetLocation | Shell/BaseShape.cs:59-68 | the location is stored and the canvas left/top become its X/Y |
| HitTest.Path | Shell/DrawingSurface.cs:140-146 | the chain of parents from a visual starts at it and ends at the canvas |
| HitTest.OwnerIsFirstShapeOnPath | Shell/DrawingSurface.cs:139-148 | the climb resolves to the first shape on the path to the canvas, and to nothing exactly when that path holds no shape |
| HitTest.OwnerInTree | Shell/DrawingSurface.cs:140-146 | the shape a climb finds is a node of the visual tree |
| HitTest.ShapeAtInTree | Shell/DrawingSurface.cs:135-148 | the shape under a point is a node of the visual tree |
| HitTest.GetShapeAtLocation | Shell/DrawingSurface.cs:133-149 | the climb returns nothing for no hit or a canvas hit, otherwise the owner of the hit visual |
| Resizing.ResizeBottomRight | Shell/DrawingSurface.cs:390-391 | left and top stay; right and bottom edges move by the drag unless a side hits the floor, which then is the floor; sides never go below the floor |
| Resizing.ResizeTopRight | Shell/DrawingSurface.cs:408-415 | left and bottom edge stay; right edge and top move by the drag unless floored; sides never below the floor |
| Resizing.ResizeBottomLeft | Shell/DrawingSurface.cs:461-467 | top and right edge stay; left edge and bottom move by the drag unless floored; sides never below the floor |
| Resizing.ResizeTopLeft | Shell/DrawingSurface.cs:434-444 | right and bottom edges stay; left and top move by the drag unless floored; sides never below the floor |
| Resizing.ResizeRoundTrip | Shell/DrawingSurface.cs:377-468 | for every corner, a drag followed by the opposite drag restores the box when neither hits the floor |
| Resizing.ResizeKeepsOppositeEdges | Shell/DrawingSurface.cs:377-468 | for every corner, the two edges away from the corner never move, floor or not |
| Resizing.ResizingAdorner.constructor | Shell/DrawingSurface.cs:357-374 | the adorner decorates the given shape |
| Resizing.ResizingAdorner.EnforceSize | Shell/DrawingSurface.cs:509-522 | a NaN width or height becomes the desired size, a set one stays; the maximum size becomes the parent's size when there is a parent |
| Resizing.ResizingAdorner.HandleBottomRight | Shell/DrawingSurface.cs:377-392 | the shape's box becomes the bottom-right resize of its size-enforced box |
| Resizing.ResizingAdorner.HandleTopRight | Shell/DrawingSurface.cs:395-416 | the shape's box becomes the top-right resize of its size-enforced box |
| Resizing.ResizingAdorner.HandleTopLeft | Shell/DrawingSurface.cs:419-445 | the shape's box becomes the top-left resize of its size-enforced box |
| Resizing.ResizingAdorner.HandleBottomLeft | Shell/DrawingSurface.cs:448-468 | the shape's box becomes the bottom-left resize of its size-enforced box |
| Rulers.NatToString | Shell/HRuler.cs:110 | a unit number prints as at least one decimal digit, one digit exactly below 10, with no leading zero |
| Rulers.ParseNatToString | Shell/HRuler.cs:110 | the printed digits read back as the number |
| Rulers.TickLength | Shell/HRuler.cs:106 | the seven minor ticks of a unit are 4, 6, 4, 8, 4, 6, 4 long: the fourth is 8, the others 4 at even and 6 at odd positions; every tick is 4 to 8 long |
| Rulers.MinorsShape | Shell/HRuler.cs:98-109 | each unit gets exactly seven minor ticks at d + k·m/8 for k = 1..7, 4, 6, 4, 8, 4, 6, 4 long |
| Rulers.MinorTicks | Shell/HRuler.cs:103-109 | the inner loop emits the minor ticks of the unit |
| Rulers.Stacked | Shell/HRuler.cs:157-163 | one label per character, each a further 8 px down |
| Rulers.VerticalLabelsStacked | Shell/HRuler.cs:151-164 | the vertical ruler's one-string label below 10 is the one-digit case of the stacked form |
| Rulers.StackDigits | Shell/HRuler.cs:157-163 | the digit loop emits the stacked labels |
| Rulers.DrawLabels | Shell/HRuler.cs:151-164 | the label code emits the unit's label: right of the line on the horizontal ruler, one string or stacked digits on the vertical one |
| Rulers.DrawUnit | Shell/HRuler.cs:102-110 | one pass of a render loop body emits the record of the unit it is at: its minor ticks and its label |
| Rulers.UnitsAt | Shell/HRuler.cs:100-126 | one unit record per visited boundary, in order |
| Rulers.ForwardAt | Shell/HRuler.cs:97-112 | the k-th forward unit is at anchor + k·m, numbered k, and inside the ruler |
| Rulers.ForwardEnd | Shell/HRuler.cs:100 | the forward loop stops at the first position at or past the ruler's end |
| Rulers.BackwardAt | Shell/HRuler.cs:114-126 | the k-th backward unit is k units before its start, numbered k on from 1, and no more than one unit before the ruler's start (at or after −m) |
| Rulers.BackwardEnd | Shell/HRuler.cs:115 | the backward loop stops at the first position more than one unit before the ruler's start |
| Rulers.MajorsAt | Shell/HRuler.cs:97-126 | the units a ruler draws: anchor + k·m numbered k inside the ruler, then anchor − b·m numbered b ≥ 1 |
| Rulers.MajorsEnds | Shell/HRuler.cs:100-115 | both loops stop at the first unit outside their range |
| Rulers.RenderForward | Shell/HRuler.cs:100-112 | the forward loop emits the forward units' records |
| Rulers.RenderBackward | Shell/HRuler.cs:114-126 | the backward loop emits the backward units' records |
| Rulers.RenderUnits | Shell/HRuler.cs:93-129 | the two loops together emit the records of every visited unit, forward ones first |
| Rulers.Ruler.constructor | Shell/HRuler.cs:16 | a ruler starts in inches with a 96 px unit at anchor 0 |
| Rulers.Ruler.SetMeasurement | Shell/HRuler.cs:22-37 | a new measurement sets the unit size to one inch or one centimetre in pixels; the same measurement changes nothing; the unit always matches the measurement |
| Rulers.Ruler.SetAnchor | Shell/HRuler.cs:52-56 | the anchor is stored |
| Rulers.Ruler.Render | Shell/HRuler.cs:93-197 | the horizontal ruler runs along its width and the vertical one along its height, each emitting every unit record |
| Surface.Stretch | Shell/DrawingSurface.cs:167-225 | along one axis, the preview spans from the nearer of press and cursor to the farther one, cut at the canvas edge at 0 |
| Surface.DragPreview | Shell/DrawingSurface.cs:167-225 | the preview is the rectangle between press point and cursor; dragging left or up anchors the press point on its right or bottom edge, with left/top clamped at 0; a drag with no width or no height leaves the preview unchanged |
| Surface.DragPreviewInside | Shell/DrawingSurface.cs:182-224 | from a press on the canvas, the preview has non-negative left, top, width and height |
| Surface.IsValidDrawing | Shell/DrawingSurface.cs:332-337 | a preview is a valid drawing exactly when it exists, both its sizes are set (not NaN) and neither is below 10; a valid one then has positive sizes (its partner, `DragCommitsIff`, states when a drag produces one) |
| Surface.DragCommitsIff | Shell/DrawingSurface.cs:332-337 | a drag draws a shape exactly when the clipped rectangle between press and cursor is at least 10 by 10 |
| Surface.Picked | Shell/DrawingSurface.cs:102-126 | the selection block leaves exactly the hit shape selected, or nothing when there is no hit |
| Surface.HoverCursor | Shell/DrawingSurface.cs:240-260 | hovering over a selected shape shows the move cursor; otherwise the cursor becomes the arrow unless it is the drawing cross |
| Surface.DrawingSurface.constructor | Shell/DrawingSurface.cs:77-84 | an empty, uncaptured canvas in inches with no selection and no preview |
| Surface.DrawingSurface.PageWidth | Shell/DrawingSurface.cs:23-34 | the page width read in the current unit converts back to the stored pixel width; NaN stays NaN |
| Surface.DrawingSurface.PageHeight | Shell/DrawingSurface.cs:48-59 | the same for the height |
| Surface.DrawingSurface.SetPageWidth | Shell/DrawingSurface.cs:35-46 | a non-negative value is accepted: the pixel width is the value in the current unit, and reading it back gives the value; a negative one is refused by the framework and the width stays |
| Surface.DrawingSurface.SetPageHeight | Shell/DrawingSurface.cs:60-71 | the same for the height |
| Surface.DrawingSurface.SetMeasurement | Shell/DrawingSurface.cs:15-21 | changing the unit keeps the stored pixel size, so the page reads as the same physical size |
| Surface.DrawingSurface.InitDrawing | Shell/DrawingSurface.cs:339-344 | the cursor becomes the drawing cross |
| Surface.DrawingSurface.ClearSelection | Shell/DrawingSurface.cs:107-111 | every shape's flag is cleared and the list emptied; unselected shapes keep their decoration; no shape moves or changes size |
| Surface.DrawingSurface.SelectAt | Shell/DrawingSurface.cs:102-126 | the selection becomes exactly the shape under the point, or empty when there is none; flags and list stay consistent; no shape moves or changes size |
| Surface.DrawingSurface.Press | Shell/DrawingSurface.cs:90-131 | an uncaptured press stores the point and captures; with the arrow cursor it selects the hit shape and switches to the move cursor, or clears the selection; a captured press changes nothing; the unit, page size, shape locations and sizes are kept |
| Surface.DrawingSurface.StretchPreview | Shell/DrawingSurface.cs:156-225 | the preview is created once and becomes the drag preview of the press point and cursor |
| Surface.DrawingSurface.DragSelection | Shell/DrawingSurface.cs:227-238 | every selected shape is shown at its location plus the drag, each coordinate clamped at 0; locations, sizes and other shapes are untouched |
| Surface.DrawingSurface.Move | Shell/DrawingSurface.cs:151-261 | a captured drag stretches the preview or moves the selection by mode; otherwise the cursor follows the hover rule; the preview changes only in a captured drawing drag, and one is added only when there was none; selection, locations, sizes, unit and page size never change, and unselected shapes stay where they are shown |
| Surface.DrawingSurface.CommitDrawing | Shell/DrawingSurface.cs:302-318 | the preview leaves the canvas; a valid one adds exactly one fresh shape, located and shown at its left/top, with its size and no size cap, as the sole selection with the arrow cursor; an invalid one changes nothing else; the existing shapes keep their locations and sizes |
| Surface.DrawingSurface.CommitMove | Shell/DrawingSurface.cs:319-325 | each selected shape's location becomes its shown position; nothing else moves and no shape changes size |
| Surface.DrawingSurface.Release | Shell/DrawingSurface.cs:263-330 | without capture nothing happens; otherwise a click re-selects in drawing mode and returns to the arrow, a drag commits a drawing (exactly one fresh shape appended, located and shown at the preview's left/top, with its size and no size cap, selected alone, with the arrow cursor) or a move (selected shapes take their shown positions, the others stay), and the preview and capture are always dropped; the unit, page size and shape sizes are kept |

## Left out

- Drawing: lines, text, brushes, pens, `InvalidateVisual`, the rulers' background and edge lines, and the thumb placement in `ArrangeOverride`. The rulers return records instead of drawing.
- The adorner layer is reduced to a count of decorations per shape. The framework's hit test is a parameter of the handlers (an oracle plus a parent map). Neither framework facility is modelled further.
- Text measurement (Shell/Extensions/StringExtensions.Measure.cs) is not part of this model: it relies on font metrics.
- Shell/Frame.xaml.cs is not part of this model beyond its constructor, which hands over to the shape constructor. A drawn shape is modelled as a plain `Shape`. Shell/DesignPage.xaml.cs is layout glue and is not part of this model.
- Floating point is not modelled. All arithmetic is over the reals, so rounding in the centimetre conversions and in the accumulated loop positions (how many centimetre minor ticks appear) is not captured. NaN is modelled only as the explicit `Unset` length.
- Mouse capture is a boolean field. Dependency property registration, the unused `_drawingType` and `_upPoint` fields, and the parameterless shape constructor are left out.
- The early returns of the resize handlers when the adorned element or the thumb is missing are left out: the model always has both.
- `MaxWidth`/`MaxHeight` are stored by `EnforceSize`. Their effect on layout is left out.
- The mouse-event plumbing (the sender, `e.Handled`, where the position comes from) is left out. Positions come in as parameters.
- Surface.DrawingSurface.SetPageWidth: the framework's refusal of a negative width is an exception; the model returns `accepted == false` and keeps the old width instead of raising. Infinite values do not exist over the reals.
- Surface.DrawingSurface.SetPageHeight: the same for a negative height.
- HitTest.GetShapeAtLocation: when the framework's hit test finds nothing, the source reads the hit visual off a null result and fails with a null-reference error; the model returns no shape for that case, as it does for a hit on the canvas.
- Rulers.RenderUnits: the two loops of `OnRender` are split into two methods, one per loop. They run in the same order and emit the same records.
- Surface.DrawingSurface.CommitDrawing: the preview field is cleared inside the drawing commit rather than at the end of the release handler. Nothing reads it in between, and `Release` states the same final state.
