/**
 * The drawing-tool interaction state machine of the paint application as
 * pure functions: one transition per event handler of `PaintApp`, the canvas
 * binding table that routes pointer events to those handlers, and `Step` /
 * `Run` over sequences of user events.
 */
module Controller {
  import opened Wrappers
  import opened Canvas

  const Black := "#000000"
  const White := "#FFFFFF"

  /** The choices offered by the (read-only) brush-size, text-size and pen-style pickers. */
  const BrushSizes: seq<int> := [1, 2, 3, 4, 5, 6, 8, 10, 15, 20, 30, 40, 50, 60, 70, 80, 90, 100, 150]
  const TextSizes: seq<int> := [8, 9, 10, 11, 12, 14, 16, 18, 20, 22, 24, 26, 28, 30, 32, 34, 36, 38, 40, 42, 50, 60, 70]

  /** The names `draw` compares `selected_pen_type` against, which are also the style picker's values. */
  const PenNames: seq<string> := ["line", "round", "square", "arrow", "diamond"]

  /**
   * The pen style, `selected_pen_type`: the five names the style picker
   * offers, and any other name, which `draw` does not recognise. An
   * `OtherPen` is meant to carry a name outside `PenNames` (`WellNamed`);
   * `PenTypeNamed` only builds such values.
   */
  datatype PenType = LinePen | RoundPen | SquarePen | ArrowPen | DiamondPen | OtherPen(name: string)

  /** The styles the picker offers ("line", "round", "square", "arrow", "diamond"). */
  predicate Recognised(p: PenType)
  {
    !p.OtherPen?
  }

  /** An unrecognised style does not carry one of the recognised names. */
  predicate WellNamed(p: PenType)
  {
    p.OtherPen? ==> p.name !in PenNames
  }

  /** The pen style a `selected_pen_type` string stands for, as `draw`'s comparisons read it. */
  function PenTypeNamed(name: string): (p: PenType)
    ensures WellNamed(p)
    ensures Recognised(p) <==> name in PenNames
    ensures p.OtherPen? ==> p.name == name
  {
    if name == "line" then LinePen
    else if name == "round" then RoundPen
    else if name == "square" then SquarePen
    else if name == "arrow" then ArrowPen
    else if name == "diamond" then DiamondPen
    else OtherPen(name)
  }

  /** The press/release tools, each with its arming, start and stop handler. */
  datatype ShapeTool =
    | RectangleTool | FilledRectangleTool | CircleTool | FilledCircleTool | LineTool | TextTool

  /**
   * `selected_tool`: "pen", "eraser", or the name a start handler stores
   * ("rectangle", "frectangle", "circle", "fcircle", "line", "text").
   */
  datatype Tool = Pen | Eraser | Shape(shape: ShapeTool)

  /** What the button-release binding calls: `release`, or one of the `stop_draw_*` handlers. */
  datatype ReleaseHandler = EndStroke | StopHandler(tool: ShapeTool)

  /**
   * The application's state. `prev` stands for the pair `prev_x`/`prev_y`,
   * which are always assigned together; `notices` counts the info boxes shown;
   * `motionBound`, `press` and `release` are the canvas's bindings for
   * button-1 motion (always to `draw` when present), button-1 press (a
   * `start_draw_*` handler) and button-1 release.
   */
  datatype State = State(
    tool: Tool,
    color: string,
    size: int,
    penType: PenType,
    fontFamily: string,
    textSize: int,
    prev: Option<Point>,
    entryText: string,
    notices: nat,
    motionBound: bool,
    press: Option<ShapeTool>,
    release: ReleaseHandler,
    canvas: seq<Primitive>)

  predicate Freehand(tool: Tool)
  {
    tool == Pen || tool == Eraser
  }

  /** Pen/eraser routing: motion to `draw`, release to `release`, no press binding. */
  predicate StreamMode(s: State)
  {
    s.motionBound && s.press == None && s.release == EndStroke
  }

  /** Shape/text routing: no motion binding, press and release to one tool's start/stop pair. */
  predicate GestureMode(s: State)
  {
    !s.motionBound && s.press.Some? && s.release == StopHandler(s.press.value)
  }

  /** The state after construction: `__init__`, `setup_tools` and `setup_events`. */
  function Init(): (r: State)
    ensures StreamMode(r) && r.canvas == [] && r.prev == None && r.notices == 0
    ensures r.tool == Pen && r.color == Black
    ensures r.size == BrushSizes[1] && r.penType == LinePen && r.textSize == TextSizes[4]
    ensures r.fontFamily == "Tahoma" && r.entryText == ""
  {
    State(Pen, Black, 2, LinePen, "Tahoma", 12, None, "", 0, true, None, EndStroke, [])
  }

  // ---------------------------------------------------------------- selection

  /** `select_pen_tool`: pen, black, freehand routing; the anchor and canvas are kept. */
  function SelectPenTool(s: State): (r: State)
    ensures StreamMode(r) && r.tool == Pen && r.color == Black
    ensures r == s.(tool := r.tool, color := r.color, motionBound := r.motionBound, press := r.press, release := r.release)
  {
    s.(tool := Pen, color := Black, motionBound := true, press := None, release := EndStroke)
  }

  /** `select_eraser_tool`: eraser, white, freehand routing; the anchor and canvas are kept. */
  function SelectEraserTool(s: State): (r: State)
    ensures StreamMode(r) && r.tool == Eraser && r.color == White
    ensures r == s.(tool := r.tool, color := r.color, motionBound := r.motionBound, press := r.press, release := r.release)
  {
    s.(tool := Eraser, color := White, motionBound := true, press := None, release := EndStroke)
  }

  /**
   * The six arming methods `draw_rectangle`, `draw_filled_rectangle`,
   * `draw_circle`, `draw_filled_circle`, `draw_line` and `draw_text`: route
   * press and release to the tool's start/stop pair and unbind motion. All but
   * `draw_text` force the colour to black. The selected tool is NOT changed.
   */
  function ArmGesture(s: State, t: ShapeTool): (r: State)
    ensures GestureMode(r) && r.press == Some(t)
    ensures r.color == if t == TextTool then s.color else Black
    ensures r == s.(color := r.color, motionBound := r.motionBound, press := r.press, release := r.release)
  {
    s.(color := if t == TextTool then s.color else Black,
       motionBound := false, press := Some(t), release := StopHandler(t))
  }

  function SelectSize(s: State, size: int): (r: State)
    ensures r.size == size && r == s.(size := r.size)
  {
    s.(size := size)
  }

  function SelectTextSize(s: State, size: int): (r: State)
    ensures r.textSize == size && r == s.(textSize := r.textSize)
  {
    s.(textSize := size)
  }

  function SelectFontFamily(s: State, family: string): (r: State)
    ensures r.fontFamily == family && r == s.(fontFamily := r.fontFamily)
  {
    s.(fontFamily := family)
  }

  function SelectColor(s: State, color: string): (r: State)
    ensures r.color == color && r == s.(color := r.color)
  {
    s.(color := color)
  }

  /** `select_pen_type`: stores the picked style name, read as `draw` reads it. */
  function SelectPenType(s: State, name: string): (r: State)
    ensures WellNamed(r.penType) && (Recognised(r.penType) <==> name in PenNames)
    ensures r == s.(penType := PenTypeNamed(name))
  {
    s.(penType := PenTypeNamed(name))
  }

  /** The user editing the text entry widget. */
  function EditEntry(s: State, text: string): (r: State)
    ensures r.entryText == text && r == s.(entryText := r.entryText)
  {
    s.(entryText := text)
  }

  // ---------------------------------------------------------------- freehand

  /**
   * The item one `draw` call creates for the pen style, given the previous
   * sample `from` and the current one `at`. "line" joins the two samples; the
   * other styles are stamps around `at` that ignore `from`. An unrecognised
   * style creates nothing.
   */
  function PenMark(penType: PenType, color: string, size: int, from: Point, at: Point): (r: Option<Primitive>)
    ensures r.Some? <==> Recognised(penType)
  {
    var x1, y1, x2, y2 := at.x - size, at.y - size, at.x + size, at.y + size;
    match penType
    case LinePen => Some(Line(from, at, Some(color), Some(size), Some(true)))
    case RoundPen => Some(Oval(Point(x1, y1), Point(x2, y2), Some(color), Some(color), None))
    case SquarePen => Some(Rect(Point(x1, y1), Point(x2, y2), Some(color), Some(color), None))
    case ArrowPen => Some(Polygon([Point(x1, y1), Point(x1, y2), Point(at.x, y2)], Some(color), Some(color)))
    case DiamondPen =>
      Some(Polygon([Point(x1, at.y), Point(at.x, y1), Point(x2, at.y), Point(at.x, y2)], Some(color), Some(color)))
    case OtherPen(_) => None
  }

  /**
   * The shape of each pen mark: "line" joins the previous sample to the
   * current one with the brush width, smoothed; the stamps are filled and
   * outlined in the colour and lie in the square of half-width `size` around
   * the current sample, round and square ones being exactly that square's box.
   * The arrow's corners are the square's top-left and bottom-left corners and
   * the middle of its bottom edge; the diamond's are the middles of the left,
   * top, right and bottom edges, in that order.
   */
  lemma PenMarkShape(penType: PenType, color: string, size: int, from: Point, at: Point, r: Primitive)
    requires Recognised(penType) && r == PenMark(penType, color, size, from, at).value
    ensures r.fill == Some(color)
    ensures penType == LinePen ==>
      r.Line? && r.from == from && r.to == at &&
      r.width == Some(size) && r.smooth == Some(true)
    ensures penType != LinePen ==>
      !r.Line? && !r.Text? && r.outline == Some(color)
    ensures penType != LinePen && size >= 0 ==>
      forall v :: v in Coords(r) ==> WithinSquare(v, at, size)
    ensures penType == RoundPen || penType == SquarePen ==>
      (if penType == RoundPen then r.Oval? else r.Rect?) && r.width == None &&
      r.corner1.x + r.corner2.x == 2 * at.x && r.corner1.y + r.corner2.y == 2 * at.y &&
      r.corner2.x - r.corner1.x == 2 * size && r.corner2.y - r.corner1.y == 2 * size
    ensures penType == ArrowPen ==>
      r.Polygon? &&
      r.vertices == [Point(at.x - size, at.y - size), Point(at.x - size, at.y + size), Point(at.x, at.y + size)]
    ensures penType == DiamondPen ==>
      r.Polygon? &&
      r.vertices == [Point(at.x - size, at.y), Point(at.x, at.y - size), Point(at.x + size, at.y), Point(at.x, at.y + size)]
    ensures penType == DiamondPen && size != 0 ==>
      forall v :: v in r.vertices ==> (v.x == at.x) != (v.y == at.y)
  {
  }

  /** The canvas after creating `m`, if there is an item to create. */
  function Emit(c: seq<Primitive>, m: Option<Primitive>): (r: seq<Primitive>)
    ensures m.None? ==> r == c
    ensures m.Some? ==> |r| == |c| + 1 && r[..|c|] == c && r[|c|] == m.value
  {
    match m
    case None => c
    case Some(p) => c + [p]
  }

  /**
   * `draw`, the motion handler of the pen and eraser: with another tool
   * selected it does nothing; otherwise it creates at most one item (none on
   * the first sample of a stroke) and always records the sample as `prev`.
   */
  function Draw(s: State, at: Point): (r: State)
    ensures !Freehand(s.tool) ==> r == s
    ensures Freehand(s.tool) ==> r == s.(prev := Some(at), canvas := r.canvas)
    ensures |s.canvas| <= |r.canvas| <= |s.canvas| + 1 && r.canvas[..|s.canvas|] == s.canvas
    ensures |r.canvas| == |s.canvas| + 1 <==> Freehand(s.tool) && s.prev.Some? && Recognised(s.penType)
    ensures Freehand(s.tool) && s.prev.Some? ==>
      r.canvas == Emit(s.canvas, PenMark(s.penType, s.color, s.size, s.prev.value, at))
  {
    if !Freehand(s.tool) then s
    else
      var c := if s.prev.None? then s.canvas
               else Emit(s.canvas, PenMark(s.penType, s.color, s.size, s.prev.value, at));
      s.(canvas := c, prev := Some(at))
  }

  /** `release`: the stroke ends; nothing but the anchor changes. */
  function Release(s: State): (r: State)
    ensures r.prev == None && r == s.(prev := r.prev)
  {
    s.(prev := None)
  }

  /** `clear_canvas`: deletes every item; tool state and anchor are kept. */
  function ClearCanvas(s: State): (r: State)
    ensures r.canvas == [] && r == s.(canvas := r.canvas)
  {
    s.(canvas := [])
  }

  /** `undo`: deletes the topmost (most recently created) item, if any. */
  function Undo(s: State): (r: State)
    ensures s.canvas == [] ==> r == s
    ensures s.canvas != [] ==> r.canvas + [s.canvas[|s.canvas| - 1]] == s.canvas
    ensures r == s.(canvas := r.canvas)
  {
    if |s.canvas| == 0 then s else s.(canvas := s.canvas[..|s.canvas| - 1])
  }

  // ---------------------------------------------------------------- gestures

  /** The `start_draw_*` handlers: select the tool and anchor the gesture at the press point. */
  function StartGesture(s: State, t: ShapeTool, at: Point): (r: State)
    ensures r.tool == Shape(t) && r.prev == Some(at)
    ensures r == s.(tool := r.tool, prev := r.prev)
  {
    s.(tool := Shape(t), prev := Some(at))
  }

  /**
   * The item a shape stop handler creates from the anchor and the release
   * point. Rectangles list the anchor first; circles and lines list the
   * release point first.
   */
  function ShapePrimitive(t: ShapeTool, anchor: Point, at: Point, color: string, size: int): (r: Primitive)
    requires t != TextTool
    ensures r.Rect? <==> t == RectangleTool || t == FilledRectangleTool
    ensures r.Oval? <==> t == CircleTool || t == FilledCircleTool
    ensures r.Line? <==> t == LineTool
    ensures Coords(r) == if r.Rect? then [anchor, at] else [at, anchor]
    ensures !r.Polygon? && !r.Text? && r.width == Some(size)
    ensures r.fill == if t in {FilledRectangleTool, FilledCircleTool, LineTool} then Some(color) else None
    ensures r.Line? ==> r.smooth == None
    ensures !r.Line? ==> r.outline == Some(color)
  {
    match t
    case RectangleTool => Rect(anchor, at, None, Some(color), Some(size))
    case FilledRectangleTool => Rect(anchor, at, Some(color), Some(color), Some(size))
    case CircleTool => Oval(at, anchor, None, Some(color), Some(size))
    case FilledCircleTool => Oval(at, anchor, Some(color), Some(color), Some(size))
    case LineTool => Line(at, anchor, Some(color), Some(size), None)
  }

  /** The text item `stop_draw_text` creates at the release point. */
  function TextPrimitive(s: State, at: Point): (r: Primitive)
    ensures r.Text? && Coords(r) == [at] && r.anchor == "w" && r.fill == Some(s.color)
    ensures r.text == s.entryText && r.font == Font(s.fontFamily, s.textSize, "bold")
  {
    Text(at, "w", Some(s.color), s.entryText, Font(s.fontFamily, s.textSize, "bold"))
  }

  /** A stop handler creates an item: its tool is selected, the anchor is set, and for text the entry is not empty. */
  predicate Commits(s: State, t: ShapeTool)
  {
    s.tool == Shape(t) && s.prev.Some? && (t == TextTool ==> s.entryText != "")
  }

  /** `stop_draw_text` shows "Entry text is empty" unless the text tool is selected and the entry is non-empty. */
  predicate Notifies(s: State, t: ShapeTool)
  {
    t == TextTool && !(s.tool == Shape(TextTool) && s.entryText != "")
  }

  /**
   * The `stop_draw_*` handlers. A committing stop creates one item and clears
   * the anchor; the text handler's refusal raises one notice and leaves the
   * anchor as it was; any other stop changes nothing.
   */
  function StopGesture(s: State, t: ShapeTool, at: Point): (r: State)
    ensures Commits(s, t) && t != TextTool ==>
      r == s.(canvas := s.canvas + [ShapePrimitive(t, s.prev.value, at, s.color, s.size)], prev := None)
    ensures Commits(s, t) && t == TextTool ==>
      r == s.(canvas := s.canvas + [TextPrimitive(s, at)], prev := None)
    ensures Notifies(s, t) ==> r == s.(notices := s.notices + 1)
    ensures !Commits(s, t) && !Notifies(s, t) ==> r == s
  {
    if t == TextTool then
      if s.tool == Shape(TextTool) && s.entryText != "" then
        if s.prev.Some? then s.(canvas := s.canvas + [TextPrimitive(s, at)], prev := None) else s
      else
        s.(notices := s.notices + 1)
    else if s.tool == Shape(t) && s.prev.Some? then
      s.(canvas := s.canvas + [ShapePrimitive(t, s.prev.value, at, s.color, s.size)], prev := None)
    else
      s
  }

  // ---------------------------------------------------------------- routing

  /** A button-1 motion event: delivered to `draw` only while that binding exists. */
  function OnMotion(s: State, at: Point): (r: State)
  {
    if s.motionBound then Draw(s, at) else s
  }

  /** A button-1 press event: delivered to the bound start handler, if any. */
  function OnPress(s: State, at: Point): (r: State)
  {
    match s.press
    case None => s
    case Some(t) => StartGesture(s, t, at)
  }

  /** A button-1 release event: delivered to `release` or to the bound stop handler. */
  function OnRelease(s: State, at: Point): (r: State)
  {
    match s.release
    case EndStroke => Release(s)
    case StopHandler(t) => StopGesture(s, t, at)
  }

  /** What the user can do: buttons, pickers, typing, pointer events, undo and clear. */
  datatype Event =
    | PenButton
    | EraserButton
    | SizePicked(size: int)
    | TextSizePicked(textSize: int)
    | FontPicked(family: string)
    | ColourPicked(color: string)
    | PenTypePicked(name: string)
    | EntryEdited(text: string)
    | ShapeButton(shape: ShapeTool)
    | PointerMotion(at: Point)
    | PointerPress(at: Point)
    | PointerRelease(at: Point)
    | UndoCommand
    | ClearCommand

  function Step(s: State, e: Event): (r: State)
  {
    match e
    case PenButton => SelectPenTool(s)
    case EraserButton => SelectEraserTool(s)
    case SizePicked(n) => SelectSize(s, n)
    case TextSizePicked(n) => SelectTextSize(s, n)
    case FontPicked(f) => SelectFontFamily(s, f)
    case ColourPicked(c) => SelectColor(s, c)
    case PenTypePicked(name) => SelectPenType(s, name)
    case EntryEdited(text) => EditEntry(s, text)
    case ShapeButton(t) => ArmGesture(s, t)
    case PointerMotion(p) => OnMotion(s, p)
    case PointerPress(p) => OnPress(s, p)
    case PointerRelease(p) => OnRelease(s, p)
    case UndoCommand => Undo(s)
    case ClearCommand => ClearCanvas(s)
  }

  /** The state after delivering the events one at a time, in order. */
  function Run(s: State, es: seq<Event>): (r: State)
    decreases |es|
  {
    if es == [] then s else Run(Step(s, es[0]), es[1..])
  }
}
