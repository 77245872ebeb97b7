/**
 * `PaintApp` as an object: the fields the application updates in place, the
 * canvas binding table, and one method per handler. Each method is proved
 * to move the object's `Model()` exactly as the matching `Controller`
 * transition moves a `State`, so every property proved about the
 * transitions holds of the object.
 */
module App {
  import opened Wrappers
  import opened Canvas
  import opened Controller

  class PaintApp {
    var selectedTool: Tool
    var selectedColor: string
    var selectedSize: int
    var selectedPenType: PenType
    var fontFamily: string
    var textSize: int
    var prev: Option<Point>
    /** The content of the text entry widget. */
    var entryText: string
    /** How many "Entry text is empty" info boxes have been shown. */
    var notices: nat
    /** Canvas bindings: button-1 motion to `draw`, button-1 press, button-1 release. */
    var motionBound: bool
    var pressHandler: Option<ShapeTool>
    var releaseHandler: ReleaseHandler
    /** The canvas items in stacking (= creation) order. */
    var canvas: seq<Primitive>

    ghost function Model(): State
      reads this
    {
      State(selectedTool, selectedColor, selectedSize, selectedPenType, fontFamily, textSize,
            prev, entryText, notices, motionBound, pressHandler, releaseHandler, canvas)
    }

    /** `__init__` with `setup_tools` and `setup_events`. */
    constructor ()
      ensures Model() == Init()
    {
      selectedTool := Pen;
      selectedColor := Black;
      selectedSize := BrushSizes[1];
      selectedPenType := LinePen;
      fontFamily := "Tahoma";
      textSize := TextSizes[4];
      entryText := "";
      notices := 0;
      pressHandler := None;
      motionBound := true;
      releaseHandler := EndStroke;
      canvas := [];
      prev := None;
    }

    /** `setup_events`: bind motion to `draw` and release to `release`. */
    method SetupEvents()
      modifies this
      ensures Model() == old(Model()).(motionBound := true, release := EndStroke)
    {
      motionBound := true;
      releaseHandler := EndStroke;
    }

    method SelectPenTool()
      modifies this
      ensures Model() == Controller.SelectPenTool(old(Model()))
    {
      selectedTool := Pen;
      selectedColor := Black;
      pressHandler := None;
      SetupEvents();
    }

    method SelectEraserTool()
      modifies this
      ensures Model() == Controller.SelectEraserTool(old(Model()))
    {
      selectedTool := Eraser;
      selectedColor := White;
      pressHandler := None;
      SetupEvents();
    }

    method SelectSize(size: int)
      modifies this
      ensures Model() == Controller.SelectSize(old(Model()), size)
    {
      selectedSize := size;
    }

    method SelectTextSize(size: int)
      modifies this
      ensures Model() == Controller.SelectTextSize(old(Model()), size)
    {
      textSize := size;
    }

    method SelectFontFamily(family: string)
      modifies this
      ensures Model() == Controller.SelectFontFamily(old(Model()), family)
    {
      fontFamily := family;
    }

    method SelectColor(color: string)
      modifies this
      ensures Model() == Controller.SelectColor(old(Model()), color)
    {
      selectedColor := color;
    }

    method SelectPenType(name: string)
      modifies this
      ensures Model() == Controller.SelectPenType(old(Model()), name)
    {
      selectedPenType := PenTypeNamed(name);
    }

    /** The user typing into the text entry. */
    method EditEntry(text: string)
      modifies this
      ensures Model() == Controller.EditEntry(old(Model()), text)
    {
      entryText := text;
    }

    /** `draw_rectangle`, `draw_filled_rectangle`, `draw_circle`, `draw_filled_circle`, `draw_line`, `draw_text`. */
    method ArmGesture(t: ShapeTool)
      modifies this
      ensures Model() == Controller.ArmGesture(old(Model()), t)
    {
      if t != TextTool {
        selectedColor := Black;
      }
      motionBound := false;
      pressHandler := Some(t);
      releaseHandler := StopHandler(t);
    }

    method Draw(x: int, y: int)
      modifies this
      ensures Model() == Controller.Draw(old(Model()), Point(x, y))
    {
      if selectedTool == Pen || selectedTool == Eraser {
        if prev.Some? {
          var mark := PenMark(selectedPenType, selectedColor, selectedSize, prev.value, Point(x, y));
          if mark.Some? {
            canvas := canvas + [mark.value];
          }
        }
        prev := Some(Point(x, y));
      }
    }

    /** `release`; the event's position is not used. */
    method Release(x: int, y: int)
      modifies this
      ensures Model() == Controller.Release(old(Model()))
    {
      prev := None;
    }

    method ClearCanvas()
      modifies this
      ensures Model() == Controller.ClearCanvas(old(Model()))
    {
      canvas := [];
    }

    method Undo()
      modifies this
      ensures Model() == Controller.Undo(old(Model()))
    {
      if |canvas| > 0 {
        canvas := canvas[..|canvas| - 1];
      }
    }

    /** The `start_draw_*` handlers. */
    method StartGesture(t: ShapeTool, x: int, y: int)
      modifies this
      ensures Model() == Controller.StartGesture(old(Model()), t, Point(x, y))
    {
      selectedTool := Shape(t);
      prev := Some(Point(x, y));
    }

    /** The `stop_draw_*` handlers. */
    method StopGesture(t: ShapeTool, x: int, y: int)
      modifies this
      ensures Model() == Controller.StopGesture(old(Model()), t, Point(x, y))
    {
      if t == TextTool {
        if selectedTool == Shape(TextTool) && entryText != "" {
          if prev.Some? {
            canvas := canvas + [Text(Point(x, y), "w", Some(selectedColor), entryText, Font(fontFamily, textSize, "bold"))];
            prev := None;
          }
        } else {
          notices := notices + 1;
        }
      } else if selectedTool == Shape(t) && prev.Some? {
        canvas := canvas + [ShapePrimitive(t, prev.value, Point(x, y), selectedColor, selectedSize)];
        prev := None;
      }
    }

    /** Tk delivering a button-1 motion event to the canvas. */
    method OnMotion(x: int, y: int)
      modifies this
      ensures Model() == Controller.OnMotion(old(Model()), Point(x, y))
    {
      if motionBound {
        Draw(x, y);
      }
    }

    /** Tk delivering a button-1 press event to the canvas. */
    method OnPress(x: int, y: int)
      modifies this
      ensures Model() == Controller.OnPress(old(Model()), Point(x, y))
    {
      match pressHandler
      case None =>
      case Some(t) => StartGesture(t, x, y);
    }

    /** Tk delivering a button-1 release event to the canvas. */
    method OnRelease(x: int, y: int)
      modifies this
      ensures Model() == Controller.OnRelease(old(Model()), Point(x, y))
    {
      match releaseHandler
      case EndStroke => Release(x, y);
      case StopHandler(t) => StopGesture(t, x, y);
    }
  }
}
