/**
 * Properties of the state machine that relate several events: how strokes
 * turn into items, repeated undo, the shape and text gestures, and the
 * routing invariant every reachable state keeps.
 */
module Properties {
  import opened Wrappers
  import opened Canvas
  import opened Controller

  /** Delivering two event sequences one after the other. */
  lemma {:induction false} RunAppend(s: State, a: seq<Event>, b: seq<Event>)
    ensures Run(s, a + b) == Run(Run(s, a), b)
    decreases |a|
  {
    if a == [] {
      assert a + b == b;
    } else {
      assert (a + b)[0] == a[0];
      assert (a + b)[1..] == a[1..] + b;
      RunAppend(Step(s, a[0]), a[1..], b);
    }
  }

  // ---------------------------------------------------------------- strokes

  /** The motion events of a drag through `pts`. */
  function Motions(pts: seq<Point>): (es: seq<Event>)
    ensures |es| == |pts| && forall i :: 0 <= i < |pts| ==> es[i] == PointerMotion(pts[i])
  {
    seq(|pts|, i requires 0 <= i < |pts| => PointerMotion(pts[i]))
  }

  /**
   * The items a stroke through the samples `pts` should leave: one per pair of
   * consecutive samples, each made by the pen style from that pair.
   */
  function StrokeMarks(penType: PenType, color: string, size: int, pts: seq<Point>): (r: seq<Primitive>)
    ensures |r| == if Recognised(penType) && |pts| > 0 then |pts| - 1 else 0
    ensures penType == LinePen ==>
      forall i :: 0 <= i < |r| ==> r[i] == Line(pts[i], pts[i + 1], Some(color), Some(size), Some(true))
  {
    if !Recognised(penType) || |pts| < 2 then []
    else seq(|pts| - 1, i requires 0 <= i < |pts| - 1 => PenMark(penType, color, size, pts[i], pts[i + 1]).value)
  }

  lemma StrokeMarkAt(penType: PenType, color: string, size: int, pts: seq<Point>, i: int)
    requires Recognised(penType) && 0 <= i < |pts| - 1
    ensures StrokeMarks(penType, color, size, pts)[i] == PenMark(penType, color, size, pts[i], pts[i + 1]).value
  {
  }

  lemma StrokeMarksCons(penType: PenType, color: string, size: int, q: Point, pts: seq<Point>)
    requires pts != []
    ensures StrokeMarks(penType, color, size, [q] + pts) ==
            Emit([], PenMark(penType, color, size, q, pts[0])) + StrokeMarks(penType, color, size, pts)
  {
    var qpts := [q] + pts;
    var l := StrokeMarks(penType, color, size, qpts);
    var rest := StrokeMarks(penType, color, size, pts);
    var r := Emit([], PenMark(penType, color, size, q, pts[0])) + rest;
    if Recognised(penType) {
      assert |l| == |r|;
      forall i | 0 <= i < |l| ensures l[i] == r[i] {
        StrokeMarkAt(penType, color, size, qpts, i);
        assert qpts[i + 1] == pts[i];
        if i == 0 {
          assert qpts[0] == q;
        } else {
          assert qpts[i] == pts[i - 1];
          StrokeMarkAt(penType, color, size, pts, i - 1);
          assert r[i] == rest[i - 1];
        }
      }
      assert l == r;
    }
  }

  /** Delivering a non-empty event sequence is delivering its first event, then the rest. */
  lemma RunCons(s: State, es: seq<Event>)
    requires es != []
    ensures Run(s, es) == Run(Step(s, es[0]), es[1..])
  {
  }

  lemma RunOne(s: State, e: Event)
    ensures Run(s, [e]) == Step(s, e)
  {
    RunCons(s, [e]);
  }

  lemma RunThree(s: State, e1: Event, e2: Event, e3: Event)
    ensures Run(s, [e1, e2, e3]) == Step(Step(Step(s, e1), e2), e3)
  {
    RunCons(s, [e1, e2, e3]);
    assert [e1, e2, e3][1..] == [e2, e3];
    RunCons(Step(s, e1), [e2, e3]);
    assert [e2, e3][1..] == [e3];
    RunOne(Step(Step(s, e1), e2), e3);
  }

  /** One motion sample of a drag in progress from `q`. */
  lemma MotionContinues(s: State, q: Point, p: Point)
    requires s.motionBound && Freehand(s.tool) && s.prev == Some(q)
    ensures Step(s, PointerMotion(p)) ==
      s.(prev := Some(p), canvas := s.canvas + Emit([], PenMark(s.penType, s.color, s.size, q, p)))
  {
    var m := PenMark(s.penType, s.color, s.size, q, p);
    assert Emit(s.canvas, m) == s.canvas + Emit([], m);
  }

  lemma RunMotionsCons(s: State, pts: seq<Point>)
    requires pts != []
    ensures Run(s, Motions(pts)) == Run(Step(s, PointerMotion(pts[0])), Motions(pts[1..]))
  {
    assert Motions(pts)[0] == PointerMotion(pts[0]);
    assert Motions(pts)[1..] == Motions(pts[1..]);
    RunCons(s, Motions(pts));
  }

  /** Two successive appends to the canvas that also set the anchor are one append. */
  lemma AppendTwice(s: State, s1: State, r: State, p: Option<Point>, e1: seq<Primitive>, e2: seq<Primitive>)
    requires s1 == s.(prev := s1.prev, canvas := s.canvas + e1)
    requires r == s1.(prev := p, canvas := s1.canvas + e2)
    ensures r == s.(prev := p, canvas := s.canvas + (e1 + e2))
  {
    assert s1.canvas + e2 == s.canvas + (e1 + e2);
  }

  /** A drag continuing from the anchor `q`: one pen mark per sample, the last sample becomes the anchor. */
  lemma {:induction false} StrokeContinues(s: State, q: Point, pts: seq<Point>)
    requires s.motionBound && Freehand(s.tool) && s.prev == Some(q)
    ensures Run(s, Motions(pts)) ==
      s.(prev := if pts == [] then s.prev else Some(pts[|pts| - 1]),
         canvas := s.canvas + StrokeMarks(s.penType, s.color, s.size, [q] + pts))
    decreases |pts|
  {
    if pts == [] {
      assert s.canvas + StrokeMarks(s.penType, s.color, s.size, [q]) == s.canvas;
    } else {
      var emitted := Emit([], PenMark(s.penType, s.color, s.size, q, pts[0]));
      var rest := StrokeMarks(s.penType, s.color, s.size, pts);
      var s1 := s.(prev := Some(pts[0]), canvas := s.canvas + emitted);
      MotionContinues(s, q, pts[0]);
      RunMotionsCons(s, pts);
      StrokeContinues(s1, pts[0], pts[1..]);
      assert [pts[0]] + pts[1..] == pts;
      var r := Run(s1, Motions(pts[1..]));
      assert r == s1.(prev := Some(pts[|pts| - 1]), canvas := s1.canvas + rest);
      StrokeMarksCons(s.penType, s.color, s.size, q, pts);
      AppendTwice(s, s1, r, Some(pts[|pts| - 1]), emitted, rest);
    }
  }

  /**
   * A drag of n samples that starts after a release leaves exactly the n - 1
   * marks of its consecutive sample pairs (none when the pen style is not
   * recognised), ends anchored at its last sample and changes nothing else.
   */
  lemma StrokeFromRest(s: State, pts: seq<Point>)
    requires s.motionBound && Freehand(s.tool) && s.prev == None && pts != []
    ensures Run(s, Motions(pts)) ==
      s.(prev := Some(pts[|pts| - 1]), canvas := s.canvas + StrokeMarks(s.penType, s.color, s.size, pts))
  {
    var s1 := Step(s, PointerMotion(pts[0]));
    assert s1 == s.(prev := Some(pts[0]));
    assert Motions(pts)[1..] == Motions(pts[1..]);
    StrokeContinues(s1, pts[0], pts[1..]);
    assert [pts[0]] + pts[1..] == pts;
  }

  /** Two drags separated by a release leave the marks of each and no item joining them. */
  lemma SeparateStrokes(s: State, first: seq<Point>, x: Point, second: seq<Point>)
    requires StreamMode(s) && Freehand(s.tool) && s.prev == None && first != [] && second != []
    ensures Run(s, Motions(first) + [PointerRelease(x)] + Motions(second)) ==
      s.(prev := Some(second[|second| - 1]),
         canvas := s.canvas + StrokeMarks(s.penType, s.color, s.size, first)
                            + StrokeMarks(s.penType, s.color, s.size, second))
  {
    RunAppend(s, Motions(first) + [PointerRelease(x)], Motions(second));
    RunAppend(s, Motions(first), [PointerRelease(x)]);
    StrokeFromRest(s, first);
    var s1 := Run(s, Motions(first));
    var s2 := Run(s1, [PointerRelease(x)]);
    assert s2 == Release(s1);
    StrokeFromRest(s2, second);
  }

  // ---------------------------------------------------------------- undo

  /** `k` undo commands. */
  function Undos(k: nat): (es: seq<Event>)
    ensures |es| == k && forall i :: 0 <= i < k ==> es[i] == UndoCommand
  {
    seq(k, _ => UndoCommand)
  }

  /** k undos delete exactly the k most recent items and keep the rest in order. */
  lemma {:induction false} UndoRepeated(s: State, k: nat)
    requires k <= |s.canvas|
    ensures Run(s, Undos(k)) == s.(canvas := s.canvas[..|s.canvas| - k])
    decreases k
  {
    if k == 0 {
      assert s.canvas[..|s.canvas|] == s.canvas;
    } else {
      assert Undos(k)[1..] == Undos(k - 1);
      var s1 := Undo(s);
      assert s1 == s.(canvas := s.canvas[..|s.canvas| - 1]);
      UndoRepeated(s1, k - 1);
      assert s1.canvas[..|s1.canvas| - (k - 1)] == s.canvas[..|s.canvas| - k];
    }
  }

  /** As many undos as there are items empty the canvas, and one more changes nothing. */
  lemma UndoEmpties(s: State)
    ensures Run(s, Undos(|s.canvas|)) == s.(canvas := [])
    ensures Step(Run(s, Undos(|s.canvas|)), UndoCommand) == Run(s, Undos(|s.canvas|))
  {
    UndoRepeated(s, |s.canvas|);
  }

  /** Every event other than undo and clear keeps the existing items and adds at most one. */
  lemma StepExtends(s: State, e: Event)
    requires !e.UndoCommand? && !e.ClearCommand?
    ensures var c := Step(s, e).canvas; |s.canvas| <= |c| <= |s.canvas| + 1 && c[..|s.canvas|] == s.canvas
  {
    var c := Step(s, e).canvas;
    assert c == s.canvas || (|c| == |s.canvas| + 1 && c[..|s.canvas|] == s.canvas);
  }

  /** Without undo or clear, a run of n events keeps every item and adds at most n. */
  lemma {:induction false} RunExtends(s: State, es: seq<Event>)
    requires forall i :: 0 <= i < |es| ==> !es[i].UndoCommand? && !es[i].ClearCommand?
    ensures var c := Run(s, es).canvas; |s.canvas| <= |c| <= |s.canvas| + |es| && c[..|s.canvas|] == s.canvas
    decreases |es|
  {
    if es != [] {
      StepExtends(s, es[0]);
      var s1 := Step(s, es[0]);
      RunExtends(s1, es[1..]);
      var c := Run(s1, es[1..]).canvas;
      assert c[..|s.canvas|] == c[..|s1.canvas|][..|s.canvas|];
    }
  }

  /** An undo right after an event that created an item deletes that item and only it. */
  lemma UndoAfterEmission(s: State, e: Event)
    requires |Step(s, e).canvas| == |s.canvas| + 1
    ensures Step(Step(s, e), UndoCommand).canvas == s.canvas
  {
    if !e.UndoCommand? && !e.ClearCommand? {
      StepExtends(s, e);
    }
  }

  // ---------------------------------------------------------------- gestures

  /** Arm, press, release: the three handlers the binding table routes the gesture to. */
  lemma GestureRun(s: State, t: ShapeTool, a: Point, b: Point)
    ensures Run(s, [ShapeButton(t), PointerPress(a), PointerRelease(b)]) ==
      StopGesture(StartGesture(ArmGesture(s, t), t, a), t, b)
  {
    RunThree(s, ShapeButton(t), PointerPress(a), PointerRelease(b));
    var s1 := ArmGesture(s, t);
    assert Step(s, ShapeButton(t)) == s1;
    var s2 := StartGesture(s1, t, a);
    assert Step(s1, PointerPress(a)) == s2;
    assert Step(s2, PointerRelease(b)) == StopGesture(s2, t, b);
  }

  /**
   * Arming a shape tool, pressing at `a` and releasing at `b` creates exactly
   * one item of that shape between `a` and `b`, in black with the brush
   * width, and leaves no anchor.
   */
  lemma ShapeGesture(s: State, t: ShapeTool, a: Point, b: Point)
    requires t != TextTool
    ensures Run(s, [ShapeButton(t), PointerPress(a), PointerRelease(b)]) ==
      s.(tool := Shape(t), color := Black, prev := None,
         motionBound := false, press := Some(t), release := StopHandler(t),
         canvas := s.canvas + [ShapePrimitive(t, a, b, Black, s.size)])
  {
    GestureRun(s, t, a, b);
  }

  /**
   * The text gesture with a non-empty entry creates one bold text item with
   * the entry's text at the release point, in the current colour, and leaves
   * no anchor.
   */
  lemma TextGestureCommits(s: State, a: Point, b: Point)
    requires s.entryText != ""
    ensures Run(s, [ShapeButton(TextTool), PointerPress(a), PointerRelease(b)]) ==
      s.(tool := Shape(TextTool), prev := None,
         motionBound := false, press := Some(TextTool), release := StopHandler(TextTool),
         canvas := s.canvas + [TextPrimitive(s, b)])
  {
    GestureRun(s, TextTool, a, b);
    var s2 := StartGesture(ArmGesture(s, TextTool), TextTool, a);
    assert TextPrimitive(s2, b) == TextPrimitive(s, b);
  }

  /**
   * The text gesture with an empty entry creates nothing, raises one notice
   * and keeps the press point as the anchor.
   */
  lemma TextGestureRefused(s: State, a: Point, b: Point)
    requires s.entryText == ""
    ensures Run(s, [ShapeButton(TextTool), PointerPress(a), PointerRelease(b)]) ==
      s.(tool := Shape(TextTool), prev := Some(a), notices := s.notices + 1,
         motionBound := false, press := Some(TextTool), release := StopHandler(TextTool))
  {
    GestureRun(s, TextTool, a, b);
  }

  /**
   * Since neither the refused text gesture nor tool selection clears the
   * anchor, the first drag sample after switching back to the line pen joins
   * the old text press point to the new sample.
   */
  lemma EmptyTextAnchorCarriesOver(s: State, a: Point, b: Point, q: Point)
    requires s.entryText == "" && s.penType == LinePen
    ensures Run(s, [ShapeButton(TextTool), PointerPress(a), PointerRelease(b), PenButton, PointerMotion(q)]).canvas ==
            s.canvas + [Line(a, q, Some(Black), Some(s.size), Some(true))]
  {
    var gesture := [ShapeButton(TextTool), PointerPress(a), PointerRelease(b)];
    assert [ShapeButton(TextTool), PointerPress(a), PointerRelease(b), PenButton, PointerMotion(q)] ==
           gesture + [PenButton, PointerMotion(q)];
    RunAppend(s, gesture, [PenButton, PointerMotion(q)]);
    TextGestureRefused(s, a, b);
    var s3 := Run(s, gesture);
    RunCons(s3, [PenButton, PointerMotion(q)]);
    assert [PenButton, PointerMotion(q)][1..] == [PointerMotion(q)];
    var s4 := Step(s3, PenButton);
    RunOne(s4, PointerMotion(q));
    MotionContinues(s4, a, q);
  }

  /**
   * Picking a style by name in the middle of a stroke: the next sample draws
   * that style's mark from the anchor exactly when the name is one `draw`
   * recognises.
   */
  lemma PickedStyleDraws(s: State, name: string, q: Point, p: Point)
    requires s.motionBound && Freehand(s.tool) && s.prev == Some(q)
    ensures var r := Run(s, [PenTypePicked(name), PointerMotion(p)]);
      r.prev == Some(p) &&
      r.canvas == s.canvas + Emit([], PenMark(PenTypeNamed(name), s.color, s.size, q, p)) &&
      (|r.canvas| == |s.canvas| + 1 <==> name in PenNames)
  {
    RunCons(s, [PenTypePicked(name), PointerMotion(p)]);
    assert [PenTypePicked(name), PointerMotion(p)][1..] == [PointerMotion(p)];
    var s1 := Step(s, PenTypePicked(name));
    RunOne(s1, PointerMotion(p));
    MotionContinues(s1, q, p);
  }

  // ---------------------------------------------------------------- reachable states

  /** Events the widgets can deliver: the pickers are read-only and offer only their lists. */
  predicate FromWidgets(e: Event)
  {
    match e
    case SizePicked(n) => n in BrushSizes
    case TextSizePicked(n) => n in TextSizes
    case PenTypePicked(name) => name in PenNames
    case _ => true
  }

  /**
   * The invariant of reachable states: the selected sizes and style come from
   * their pickers' lists, and the binding table is either freehand routing with the pen or
   * eraser selected, or one tool's press/release pair.
   */
  predicate Consistent(s: State)
  {
    s.size in BrushSizes && s.textSize in TextSizes && Recognised(s.penType) &&
    ((StreamMode(s) && Freehand(s.tool)) || GestureMode(s))
  }

  lemma StepConsistent(s: State, e: Event)
    requires Consistent(s) && FromWidgets(e)
    ensures Consistent(Step(s, e))
  {
  }

  lemma {:induction false} RunConsistent(s: State, es: seq<Event>)
    requires Consistent(s) && forall i :: 0 <= i < |es| ==> FromWidgets(es[i])
    ensures Consistent(Run(s, es))
    decreases |es|
  {
    if es != [] {
      StepConsistent(s, es[0]);
      RunConsistent(Step(s, es[0]), es[1..]);
    }
  }

  /** The start-up state is consistent. */
  lemma InitConsistent()
    ensures Consistent(Init())
  {
    var s0 := Init();
    assert s0.size == BrushSizes[1] && s0.textSize == TextSizes[4];
  }

  /** Every state the widgets can lead to from start-up is consistent. */
  lemma ReachableConsistent(es: seq<Event>)
    requires forall i :: 0 <= i < |es| ==> FromWidgets(es[i])
    ensures Consistent(Run(Init(), es))
  {
    InitConsistent();
    RunConsistent(Init(), es);
  }

  /**
   * In a reachable state a delivered motion event always draws: it creates an
   * item exactly when a stroke is in progress, and becomes the anchor.
   */
  lemma MotionWhenBound(s: State, p: Point)
    requires Consistent(s) && s.motionBound
    ensures var r := Step(s, PointerMotion(p));
      r.prev == Some(p) && |r.canvas| == |s.canvas| + (if s.prev.Some? then 1 else 0)
  {
  }
}
