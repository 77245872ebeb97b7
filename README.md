# Paint: the drawing-tool state machine

This project models the interaction core of the Tk paint application
(`PaintApp` in `paint.py`), and proves properties of the model. The core covers:

- the tool and style state: selected tool, colour, brush size, pen style,
  font family and text size;
- the shared anchor `prev_x`/`prev_y`;
- the canvas binding table, which decides which handler gets button-1
  motion, press and release events;
- the handlers that create, delete and clear canvas items.

The Tk canvas is an ordered `seq<Primitive>`, with one constructor per
creation call (`create_line`, `create_oval`, `create_rectangle`,
`create_polygon`, `create_text`). Tk's stacking order is creation order here
because nothing raises or lowers items. So the "last item" returned by
`find_all` is the last element of the sequence.

Files and modules:

- `wrappers.dfy` (`Wrappers`): `Option`.
- `canvas.dfy` (`Canvas`): points, fonts, canvas items, and the coordinate
  list of an item.
- `controller.dfy` (`Controller`): the state machine as pure functions.
  - `State` holds the fields and the binding table.
  - There is one transition per handler.
  - `OnMotion`, `OnPress` and `OnRelease` route events through the binding
    table (paint.py:701-702, 713, 844-848). They carry no contract of their
    own. The `App.PaintApp.On*` methods are proved equal to them (see their rows
    below), and the gesture and stroke lemmas state what they do.
  - `Step` and `Run` deliver user events one at a time. `RunAppend` states
    how `Run` composes.
- `properties.dfy` (`Properties`): lemmas that relate several events.
  - strokes;
  - repeated undo;
  - the shape and text gestures;
  - the invariant of reachable states.
- `paint_app.dfy` (`App`): the class `PaintApp`.
  - Its fields are the ones the source updates in place.
  - It has one method per handler.
  - Each method is proved to change `Model()` exactly as the matching
    `Controller` transition does.

Representation choices:

- Each style keyword a creation call passes explicitly is `Some(..)`. A
  keyword left to Tk's default is `None`.
- `selected_tool` only ever holds the eight literal names "pen", "eraser",
  "rectangle", "frectangle", "circle", "fcircle", "line" and "text". They are
  the datatype `Tool` (`Pen`, `Eraser`, `Shape(t)`).
- The pen style is `PenType`. `OtherPen(name)` stands for any name `draw`
  does not recognise. The style picker delivers a name
  (`PenTypePicked(name)`), and `SelectPenType` reads it with `PenTypeNamed`.
  So a style set by an event is never an `OtherPen` that carries one of the
  five recognised names (`WellNamed`). `PickedStyleDraws` shows the effect:
  picking "line" and then dragging draws a line.
- The six `draw_*` arming methods are one member, `ArmGesture`, with a
  `ShapeTool` parameter. They differ in the tool they bind and in one more
  point: `draw_text` keeps the selected colour (paint.py:905-914), while the
  other five set it to black (for example paint.py:840).
- The six `start_draw_*` handlers differ only in the tool name they store,
  and are one member, `StartGesture`.
- The six `stop_draw_*` handlers are one member, `StopGesture`. The shape
  handlers check only the selected tool and the anchor. `stop_draw_text` also
  requires a non-empty entry, and on its else branch shows the "Entry text is
  empty" notice (paint.py:924, 940-941).
- `smooth` is an option like the others: the pen's lines pass
  `smooth=True` (`Some(true)`), and shape lines leave it to Tk (`None`).

Behaviour of the code worth knowing:

- Selecting a tool keeps the anchor: `select_pen_tool` and
  `select_eraser_tool` do not assign `prev_x`/`prev_y` (paint.py:704-726).
  `EmptyTextAnchorCarriesOver` shows one consequence: after a text gesture
  with an empty entry, the first drag sample with the line pen joins the old
  text press point to the new sample.
- Arming a shape tool leaves `selected_tool` as it was; the start handler
  sets it (paint.py:838-854).
- Every pen style, stamps included, creates nothing on the first sample of a
  stroke, because `draw` first checks the anchor (paint.py:753). A drag of n
  samples leaves n − 1 items (`StrokeFromRest`).
- The arrow stamp's corners are (x − size, y − size), (x − size, y + size)
  and (x, y + size) (paint.py:790-804, `PenMarkShape`).
- `undo` deletes the topmost item on every call, so repeated undos remove
  items one by one (paint.py:1095-1097, `UndoRepeated`).
- When `stop_draw_text` refuses, it leaves the anchor set
  (paint.py:940-941, `TextGestureRefused`).
- `stop_draw_text` shows its notice whenever the text tool is not selected
  or the entry is empty (paint.py:924, 940-941, `Controller.StopGesture`).
- Circles and shape lines pass the release point first, and rectangles pass
  the anchor first (paint.py:860-867, 971-978, 1055-1062,
  `Controller.ShapePrimitive`).

## Model

| member | source | states |
|---|---|---|
| Controller.Init | paint.py:19-194 | start-up state: pen, black, brush size `brush_sizes[1]` (2), pen style "line", text size `text_sizes[4]` (12), font family "Tahoma", empty entry, no anchor, empty canvas, freehand routing (motion to `draw`, release to `release`, no press binding) |
| Controller.SelectPenTool | paint.py:704-714 | selects the pen in black with freehand routing; anchor, sizes, style and canvas untouched |
| Controller.SelectEraserTool | paint.py:716-726 | selects the eraser in white with freehand routing; nothing else changes |
| Controller.ArmGesture | paint.py:838-848 | arming a shape or text tool binds press and release to that tool's start/stop pair and unbinds motion; colour forced to black except for text; the selected tool, anchor and canvas untouched |
| Controller.SelectSize | paint.py:728-730 | changes only the brush size |
| Controller.SelectTextSize | paint.py:732-734 | changes only the text size |
| Controller.SelectFontFamily | paint.py:736-739 | changes only the font family |
| Controller.SelectColor | paint.py:741-744 | changes only the colour |
| Controller.SelectPenType | paint.py:746-748 | stores the picked style name as the pen style `draw` will read (recognised exactly for the five names), and changes nothing else |
| Controller.EditEntry | paint.py:279-280 | typing into the entry changes only the entry text |
| Controller.PenTypeNamed | paint.py:754-805 | a style name is recognised exactly when it is one of "line", "round", "square", "arrow", "diamond"; any other name stays unrecognised and keeps its name |
| Controller.PenMark | paint.py:754-825 | `draw` creates an item exactly for the five recognised pen styles |
| Controller.PenMarkShape | paint.py:755-825 | "line" joins the previous sample to the event with the brush width, smoothed; stamps are filled and outlined in the colour and lie in the square of half-width `size` around the event; round/square boxes are that square; the arrow's corners are (x−s, y−s), (x−s, y+s), (x, y+s) and the diamond's (x−s, y), (x, y−s), (x+s, y), (x, y+s), in that order, each diamond corner on exactly one axis through the event when s ≠ 0 |
| Controller.Draw | paint.py:750-827 | with any tool other than pen/eraser nothing changes; otherwise the old items are kept, at most one item is added, none when there is no anchor, exactly one when anchored with a recognised style, and the event becomes the anchor |
| Controller.Release | paint.py:829-832 | clears the anchor and changes nothing else |
| Controller.ClearCanvas | paint.py:834-836 | removes every item; tool state and anchor untouched |
| Controller.Undo | paint.py:1088-1097 | on a non-empty canvas removes exactly the last item and keeps the rest in order; on an empty canvas changes nothing |
| Controller.StartGesture | paint.py:850-854 | a start handler selects its tool name and anchors at the press point, nothing else |
| Controller.ShapePrimitive | paint.py:856-869 | rectangle/filled rectangle/circle/filled circle/line items: the right kind, corners anchor and release point (release point first for circles and lines), width the brush size, outline the colour, fill the colour only for filled shapes and the line, `smooth` left to Tk's default for lines |
| Controller.TextPrimitive | paint.py:926-936 | the text item sits at the release point, anchored "w", filled in the colour, with the entry's text in (family, text size, "bold") |
| Controller.StopGesture | paint.py:922-941 | a stop handler whose tool is selected with an anchor set (and non-empty entry for text) adds exactly that item and clears the anchor; the text handler raises one notice and keeps the anchor when the text tool is not selected or the entry is empty; any other stop (a shape stop that does not commit, or the text stop with the text tool selected, a non-empty entry and no anchor) changes nothing |
| Properties.RunAppend | paint.py:697-702 | events are delivered one at a time, in order: delivering a then b is delivering b to the state a leaves |
| Properties.StrokeMarks | paint.py:750-827 | reference for a stroke: one mark per pair of consecutive samples, n − 1 for n samples (none for an unrecognised style), line marks being the segments between consecutive samples |
| Properties.MotionContinues | paint.py:750-827 | one motion sample while anchored at q adds the pen mark from q and re-anchors |
| Properties.StrokeContinues | paint.py:750-827 | a drag continuing from anchor q leaves exactly the marks of q followed by its samples and ends anchored at the last sample |
| Properties.StrokeFromRest | paint.py:750-832 | a drag of n samples after a release adds exactly its n − 1 marks, ends anchored at its last sample, and changes nothing else |
| Properties.SeparateStrokes | paint.py:750-832 | two drags separated by a release add the marks of each and no item joining them |
| Properties.UndoRepeated | paint.py:1088-1097 | k undos on a canvas of at least k items remove exactly the k most recent and keep the rest in order |
| Properties.UndoEmpties | paint.py:1088-1097 | as many undos as items leave an empty canvas and all else unchanged; one more undo is a no-op |
| Properties.StepExtends | paint.py:750-1065 | every event other than undo and clear keeps all existing items in order and adds at most one |
| Properties.RunExtends | paint.py:750-1065 | without undo or clear, n events keep every item and add at most n |
| Properties.UndoAfterEmission | paint.py:1088-1097 | an undo right after an event that created an item restores the canvas before that event |
| Properties.GestureRun | paint.py:838-854 | arm, press, release: the button reaches the arming method, the press reaches the start handler it bound and the release the stop handler it bound, in that order |
| Properties.ShapeGesture | paint.py:838-869 | arm a shape tool, press at a, release at b: exactly one item of that shape between a and b, black, brush width; the tool is selected and the anchor cleared |
| Properties.TextGestureCommits | paint.py:905-941 | the text gesture with a non-empty entry adds one bold text item at the release point in the current colour and clears the anchor |
| Properties.TextGestureRefused | paint.py:922-941 | the text gesture with an empty entry adds nothing, raises one notice and keeps the press point as anchor |
| Properties.EmptyTextAnchorCarriesOver | paint.py:704-714 | after a refused text gesture, selecting the line pen and moving once draws a segment from the text press point |
| Properties.PickedStyleDraws | paint.py:746-827 | picking a style by name during a stroke: the next sample draws that style's mark from the anchor, adding an item exactly when the name is one of the five recognised names |
| Properties.StepConsistent | paint.py:691-1065 | each widget event preserves the reachable-state invariant: sizes and style from the pickers' lists, and either freehand routing with pen or eraser selected, or one tool's press/release pair |
| Properties.RunConsistent | paint.py:691-1065 | any run of widget events preserves that invariant |
| Properties.InitConsistent | paint.py:19-194 | the start-up state satisfies the invariant: brush size and text size from the pickers' lists, a recognised style, pen selected with freehand routing |
| Properties.ReachableConsistent | paint.py:19-46 | every state reachable from start-up through the widgets satisfies the invariant |
| Properties.MotionWhenBound | paint.py:750-827 | in a reachable state, a motion event that reaches `draw` adds an item exactly when a stroke is in progress and re-anchors |
| App.PaintApp.constructor | paint.py:19-46 | the object starts in the start-up state |
| App.PaintApp.SetupEvents | paint.py:691-702 | binds motion to `draw` and release to `release`, nothing else |
| App.PaintApp.SelectPenTool | paint.py:704-714 | object form of `Controller.SelectPenTool` |
| App.PaintApp.SelectEraserTool | paint.py:716-726 | object form of `Controller.SelectEraserTool` |
| App.PaintApp.SelectSize | paint.py:728-730 | object form of `Controller.SelectSize` |
| App.PaintApp.SelectTextSize | paint.py:732-734 | object form of `Controller.SelectTextSize` |
| App.PaintApp.SelectFontFamily | paint.py:736-739 | object form of `Controller.SelectFontFamily` |
| App.PaintApp.SelectColor | paint.py:741-744 | object form of `Controller.SelectColor` |
| App.PaintApp.SelectPenType | paint.py:746-748 | object form of `Controller.SelectPenType` |
| App.PaintApp.EditEntry | paint.py:279-280 | object form of `Controller.EditEntry` |
| App.PaintApp.ArmGesture | paint.py:1018-1033 | object form of `Controller.ArmGesture` (all six `draw_*` arming methods) |
| App.PaintApp.Draw | paint.py:750-827 | object form of `Controller.Draw` |
| App.PaintApp.Release | paint.py:829-832 | object form of `Controller.Release` |
| App.PaintApp.ClearCanvas | paint.py:834-836 | object form of `Controller.ClearCanvas` |
| App.PaintApp.Undo | paint.py:1088-1097 | object form of `Controller.Undo` |
| App.PaintApp.StartGesture | paint.py:1035-1043 | object form of `Controller.StartGesture` (all six `start_draw_*` handlers) |
| App.PaintApp.StopGesture | paint.py:1045-1065 | object form of `Controller.StopGesture` (all six `stop_draw_*` handlers) |
| App.PaintApp.OnMotion | paint.py:701 | a motion event reaches `draw` only while motion is bound |
| App.PaintApp.OnPress | paint.py:847 | a press event reaches the bound start handler, if any |
| App.PaintApp.OnRelease | paint.py:702 | a release event reaches `release` or the bound stop handler |

## Left out

- Widget construction and layout are not modelled: menus, icons, tooltips, comboboxes, the about window and the splash screen. They hold no state-machine logic.
- The `current_color_label.configure` calls and the font combobox's `configure` only change what is displayed, so they are not modelled.
- `save_as` is not modelled. It is a file dialog, a screen capture and file I/O, with no checkable logic beyond them.
- `chose_color` is not modelled, because its value comes from the colour dialog. Colour changes come only through `select_color`.
- The font family is an opaque string. The list of families depends on the fonts installed on the platform.
- The Tk event loop is not modelled. Events arrive one at a time on one thread, so each event is one call (`Step`).
- The keyboard shortcuts on the root window are not modelled as bindings. Undo and clear are the events `UndoCommand` and `ClearCommand`.
- The opaque item handles Tk returns are not modelled. An item is identified by its position in the canvas sequence.
- The values Tk uses for options left at their default (for example an oval's fill) are not modelled. Those options are `None`.
- The unused local `r = 3` in `stop_draw_filled_circle` is not modelled.
- The unused list `self.rectangles` is not modelled.
