/** What the handlers of the ROI collector promise, stated over the value model. */
module ComponentProperties {
  import opened Wrappers
  import opened Canvas
  import opened ComponentModel

  // ---------------------------------------------------------------------------
  // The drag state machine
  // ---------------------------------------------------------------------------

  /** mouseDown sets the start point and enters dragging; width, height and everything else stay as they were. */
  lemma MouseDownKeepsSize(s: Model, x: int, y: int)
    ensures var t := MouseDown(s, x, y);
      && t.drag
      && t.rect == Rect(Some(x), Some(y), s.rect.w, s.rect.h)
      && t.(drag := s.drag, rect := s.rect) == s
  {
  }

  /**
   * While dragging with an image, mouseMove sets the signed width and height
   * from the stored start point, keeps the start point, and appends exactly
   * the clear, the redraw and the outline with the new size, in that order.
   */
  lemma MoveWhileDragging(s: Model, x: int, y: int)
    requires Inv(s) && s.drag && s.imageObj.Some?
    ensures var t := MouseMove(s, x, y);
      && t.rect.startX == s.rect.startX && t.rect.startY == s.rect.startY
      && t.rect.w == Some(x - s.rect.startX.value)
      && t.rect.h == Some(y - s.rect.startY.value)
      && (t.rect.w.value < 0 <==> x < s.rect.startX.value)
      && (t.rect.h.value < 0 <==> y < s.rect.startY.value)
      && t.canvas == s.canvas + [PrimaryClear, DrawImage(s.imageObj.value, 0, 0),
                                 StrokeRect(s.rect.startX, s.rect.startY, t.rect.w, t.rect.h, SelectionColor)]
      && t.(rect := s.rect, canvas := s.canvas) == s
      && MouseMoveOutcome(s) == Done
  {
  }

  /** Outside a drag, mouseMove changes nothing and draws nothing. */
  lemma MoveWhileIdle(s: Model, x: int, y: int)
    requires !s.drag
    ensures MouseMove(s, x, y) == s && MouseMoveOutcome(s) == Done
  {
  }

  /** Dragging before any image element exists: the clear is issued, then drawImage raises and the selection is not touched. */
  lemma MoveWithoutImage(s: Model, x: int, y: int)
    requires s.drag && s.imageObj.None?
    ensures MouseMove(s, x, y) == s.(canvas := s.canvas + [PrimaryClear])
    ensures MouseMoveOutcome(s) == Threw(NullImageObject)
  {
  }

  /**
   * mouseMove recomputes the size from the start point: after any earlier
   * move, the selection is the one the last point alone gives. With the same
   * point twice this is idempotence.
   */
  lemma MoveRecomputesFromStart(s: Model, x1: int, y1: int, x2: int, y2: int)
    ensures MouseMove(MouseMove(s, x1, y1), x2, y2).rect == MouseMove(s, x2, y2).rect
  {
  }

  /** mouseUp leaves dragging and keeps the selection and everything else. */
  lemma MouseUpKeepsRect(s: Model)
    ensures !MouseUp(s).drag && MouseUp(s).(drag := s.drag) == s
  {
  }

  /** With a snapshot present, neither a drag move nor a crop can raise. */
  lemma SnapshotMeansNoFault(s: Model)
    requires Inv(s) && s.webcamImage.Some?
    ensures MouseMoveOutcome(s) == Done && CutImageOutcome(s) == Done && DrawOutcome(s) == Done
  {
  }

  // ---------------------------------------------------------------------------
  // The object invariant
  // ---------------------------------------------------------------------------

  lemma InitialInv()
    ensures Inv(Initial)
  {
  }

  lemma StepPreservesInv(s: Model, ev: Event)
    requires Inv(s)
    ensures Inv(Step(s, ev))
  {
  }

  /** Any sequence of events keeps the invariant. */
  lemma {:induction false} RunPreservesInv(s: Model, evs: seq<Event>)
    requires Inv(s)
    ensures Inv(Run(s, evs))
    decreases |evs|
  {
    if evs != [] {
      StepPreservesInv(s, evs[0]);
      RunPreservesInv(Step(s, evs[0]), evs[1..]);
    }
  }

  /** Every state reachable from construction satisfies the invariant; in particular dragging implies a start point. */
  lemma ReachableInv(evs: seq<Event>)
    ensures Inv(Run(Initial, evs))
    ensures Run(Initial, evs).drag ==> Run(Initial, evs).rect.startX.Some? && Run(Initial, evs).rect.startY.Some?
  {
    InitialInv();
    RunPreservesInv(Initial, evs);
  }

  /** The fields of the selection are not "all null or all numbers": a press without a move leaves a start point and no size. */
  lemma PartialRectReachable()
    ensures Run(Initial, [PointerDown(1, 2)]).rect == Rect(Some(1), Some(2), None, None)
  {
    assert Run(Initial, [PointerDown(1, 2)]) == Run(MouseDown(Initial, 1, 2), []);
  }

  // ---------------------------------------------------------------------------
  // Whole gestures
  // ---------------------------------------------------------------------------

  /** Handling a + b is handling a and then b. */
  lemma {:induction false} RunAppend(s: Model, a: seq<Event>, b: seq<Event>)
    ensures Run(s, a + b) == Run(Run(s, a), b)
    decreases |a|
  {
    if a == [] {
      assert a + b == b;
    } else {
      assert (a + b)[0] == a[0];
      assert (a + b)[1..] == a[1..] + b;
      RunAppend(Step(s, a[0]), a[1..], b);
    }
  }

  lemma RunOne(s: Model, ev: Event)
    ensures Run(s, [ev]) == Step(s, ev)
  {
    assert Run(s, [ev]) == Run(Step(s, ev), []);
  }

  /** The selection that dragging from (x0, y0) to (x1, y1) defines. */
  function DraggedRect(x0: int, y0: int, x1: int, y1: int): Rect {
    Rect(Some(x0), Some(y0), Some(x1 - x0), Some(y1 - y0))
  }

  /**
   * During a drag with an image, a run of pointer moves ending at (x, y)
   * leaves the drag on and the selection at the last point, whatever the
   * moves before it.
   */
  lemma {:induction false} MovesLastWins(s: Model, moves: seq<Event>, x: int, y: int)
    requires s.drag && s.imageObj.Some? && s.rect.startX.Some? && s.rect.startY.Some?
    requires forall e <- moves :: e.PointerMove?
    ensures var t := Run(s, moves + [PointerMove(x, y)]);
      && t.drag && t.imageObj == s.imageObj
      && t.rect == DraggedRect(s.rect.startX.value, s.rect.startY.value, x, y)
    decreases |moves|
  {
    if moves == [] {
      assert moves + [PointerMove(x, y)] == [PointerMove(x, y)];
      RunOne(s, PointerMove(x, y));
    } else {
      var m := moves[0];
      assert m in moves;
      var t := MouseMove(s, m.x, m.y);
      assert (moves + [PointerMove(x, y)])[1..] == moves[1..] + [PointerMove(x, y)];
      assert forall e <- moves[1..] :: e in moves;
      MovesLastWins(t, moves[1..], x, y);
    }
  }

  /**
   * A complete drag (press, one or more moves, release) with an image present
   * leaves the selection that the press point and the last move define,
   * including negative sizes, and nothing of the previous selection.
   */
  lemma CompleteDrag(s: Model, x0: int, y0: int, moves: seq<Event>, x1: int, y1: int)
    requires s.imageObj.Some?
    requires forall e <- moves :: e.PointerMove?
    ensures var t := Run(s, [PointerDown(x0, y0)] + moves + [PointerMove(x1, y1), PointerUp]);
      !t.drag && t.rect == DraggedRect(x0, y0, x1, y1)
  {
    var d := MouseDown(s, x0, y0);
    RunOne(s, PointerDown(x0, y0));
    MovesLastWins(d, moves, x1, y1);
    var m := Run(d, moves + [PointerMove(x1, y1)]);
    RunOne(m, PointerUp);
    assert [PointerDown(x0, y0)] + moves + [PointerMove(x1, y1), PointerUp]
        == [PointerDown(x0, y0)] + (moves + [PointerMove(x1, y1)]) + [PointerUp];
    RunAppend(s, [PointerDown(x0, y0)] + (moves + [PointerMove(x1, y1)]), [PointerUp]);
    RunAppend(s, [PointerDown(x0, y0)], moves + [PointerMove(x1, y1)]);
  }

  /** The simplest complete drag: press, one move, release. */
  lemma SimpleDrag(s: Model, x0: int, y0: int, x1: int, y1: int)
    requires s.imageObj.Some?
    ensures var t := Run(s, [PointerDown(x0, y0), PointerMove(x1, y1), PointerUp]);
      !t.drag && t.rect == DraggedRect(x0, y0, x1, y1)
  {
    assert [PointerDown(x0, y0), PointerMove(x1, y1), PointerUp] == [PointerDown(x0, y0)] + [] + [PointerMove(x1, y1), PointerUp];
    CompleteDrag(s, x0, y0, [], x1, y1);
  }

  /** A press and release with no move in between keeps the previous width and height next to the new start point. */
  lemma DragWithoutMoveKeepsSize(s: Model, x0: int, y0: int)
    ensures var t := Run(s, [PointerDown(x0, y0), PointerUp]);
      !t.drag && t.rect == Rect(Some(x0), Some(y0), s.rect.w, s.rect.h)
  {
    assert Run(s, [PointerDown(x0, y0), PointerUp]) == Run(MouseDown(s, x0, y0), [PointerUp]);
    RunOne(MouseDown(s, x0, y0), PointerUp);
  }

  // ---------------------------------------------------------------------------
  // Logs and the other handlers
  // ---------------------------------------------------------------------------

  /** What a step can do to the logs: only append to them. */
  predicate Extends(s: Model, t: Model) {
    && s.errors <= t.errors
    && s.canvas <= t.canvas
    && s.canvas2 <= t.canvas2
    && s.triggers <= t.triggers
  }

  lemma StepExtends(s: Model, ev: Event)
    ensures Extends(s, Step(s, ev))
  {
  }

  /** Errors, drawing logs and snapshot requests only grow: no event removes or rewrites an entry. */
  lemma {:induction false} RunExtends(s: Model, evs: seq<Event>)
    ensures Extends(s, Run(s, evs))
    decreases |evs|
  {
    if evs != [] {
      StepExtends(s, evs[0]);
      RunExtends(Step(s, evs[0]), evs[1..]);
    }
  }

  /** Only pointer presses and moves touch the selection. */
  lemma {:induction false} RectOnlyFromPointer(s: Model, evs: seq<Event>)
    requires forall e <- evs :: !e.PointerDown? && !e.PointerMove?
    ensures Run(s, evs).rect == s.rect
    decreases |evs|
  {
    if evs != [] {
      assert evs[0] in evs;
      assert forall e <- evs[1..] :: e in evs;
      RectOnlyFromPointer(Step(s, evs[0]), evs[1..]);
    }
  }

  /** handleInitError appends the error and keeps the earlier ones in place. */
  lemma InitErrorAppends(s: Model, e: InitError)
    ensures var t := HandleInitError(s, e);
      && |t.errors| == |s.errors| + 1
      && t.errors[|s.errors|] == e
      && t.errors[..|s.errors|] == s.errors
      && t.(errors := s.errors) == s
  {
  }

  /** toggleWebcam flips visibility and twice restores it. */
  lemma ToggleTwice(s: Model)
    ensures ToggleWebcam(s).showWebcam != s.showWebcam
    ensures ToggleWebcam(ToggleWebcam(s)) == s
  {
  }

  /** deleteSnapshot forgets only the snapshot, after which exporting fails. */
  lemma DeleteThenExportFails(s: Model)
    ensures DeleteSnapshot(s).(webcamImage := s.webcamImage) == s
    ensures ProcessImage(DeleteSnapshot(s)) == Err(NullSnapshot)
  {
  }

  /** handleImage keeps the snapshot, builds the image element from its data URL and draws it at the origin. */
  lemma HandleImageDraws(s: Model, img: WebcamImage)
    ensures var t := HandleImage(s, img);
      && t.webcamImage == Some(img)
      && t.imageObj == Some(Bitmap(img.imageAsDataUrl))
      && t.canvas == s.canvas + [DrawImage(Bitmap(img.imageAsDataUrl), 0, 0)]
      && t.(webcamImage := s.webcamImage, imageObj := s.imageObj, canvas := s.canvas) == s
      && DrawOutcome(s.(webcamImage := Some(img))) == Done
  {
  }

  /** With an image element, cutImage clears the crop canvas and blits the selection 1:1 at the origin; nothing else changes. */
  lemma CutImageBlits(s: Model)
    requires s.imageObj.Some?
    ensures var r := s.rect;
      CutImage(s) == s.(canvas2 := s.canvas2 + [CropClear, DrawImageRegion(s.imageObj.value, r.startX, r.startY, r.w, r.h, 0, 0, r.w, r.h)])
  {
  }

  /** Without an image element, cutImage only clears the crop canvas before raising. */
  lemma CutImageWithoutImage(s: Model)
    requires s.imageObj.None?
    ensures CutImage(s) == s.(canvas2 := s.canvas2 + [CropClear])
    ensures CutImageOutcome(s) == Threw(NullImageObject)
  {
  }

  /** captureSnapshot sends exactly one request and clears the primary canvas. */
  lemma CaptureRequestsOne(s: Model)
    ensures var t := CaptureSnapshot(s);
      t.triggers == s.triggers + 1 && t.canvas == s.canvas + [PrimaryClear]
      && t.(triggers := s.triggers, canvas := s.canvas) == s
  {
  }

  /** The camera switch is offered exactly when more than one device is listed. */
  lemma MultipleWebcamsRule(s: Model, devices: Option<nat>)
    ensures var t := DevicesListed(s, devices);
      && (t.multipleWebcamsAvailable <==> devices.Some? && devices.value > 1)
      && t.(multipleWebcamsAvailable := s.multipleWebcamsAvailable) == s
  {
  }

  /** The record keeps the snapshot's data URL and the selection field by field. */
  lemma ExportAfterDrag(s: Model, img: WebcamImage, x0: int, y0: int, x1: int, y1: int)
    ensures var t := Run(s, [ImageReceived(img), PointerDown(x0, y0), PointerMove(x1, y1), PointerUp]);
      ProcessImage(t) == Ok(ExportRecord(img.imageAsDataUrl, Some(x0), Some(y0), Some(x1 - x0), Some(y1 - y0)))
  {
    var u := HandleImage(s, img);
    RunOne(s, ImageReceived(img));
    SimpleDrag(u, x0, y0, x1, y1);
    RunAppend(s, [ImageReceived(img)], [PointerDown(x0, y0), PointerMove(x1, y1), PointerUp]);
    assert [ImageReceived(img)] + [PointerDown(x0, y0), PointerMove(x1, y1), PointerUp]
        == [ImageReceived(img), PointerDown(x0, y0), PointerMove(x1, y1), PointerUp];
    RunPreservesWebcamImage(u, [PointerDown(x0, y0), PointerMove(x1, y1), PointerUp]);
  }

  /** Pointer events never change the snapshot. */
  lemma {:induction false} RunPreservesWebcamImage(s: Model, evs: seq<Event>)
    requires forall e <- evs :: e.PointerDown? || e.PointerMove? || e.PointerUp?
    ensures Run(s, evs).webcamImage == s.webcamImage
    decreases |evs|
  {
    if evs != [] {
      assert evs[0] in evs;
      assert forall e <- evs[1..] :: e in evs;
      RunPreservesWebcamImage(Step(s, evs[0]), evs[1..]);
    }
  }
}
