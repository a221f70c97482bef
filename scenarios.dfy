/** Worked runs of the bottom sheet: each method drives a freshly mounted sheet through a
    sequence of events and states, in its postcondition, where the sheet ends up. They hold
    for every cosine `turnCos` the host may supply. */
module Scenarios {
  import opened SnapResolver
  import opened Sheet

  /** A release at offset 30 is equally far from 50 and from 10; the scan keeps the first. */
  lemma TieKeepsFirstNearest()
    ensures NearestIndex(SnapPoints, 30.0) == 1
    ensures Resolve(SnapPoints, 30.0, -0.2) == 1
  {
    assert NearestAmong(SnapPoints, 30.0, 1) == 0;
    assert NearestAmong(SnapPoints, 30.0, 2) == 1;
  }

  /** A release at 45 is nearest to 50 (index 1); a fast upward release goes one further. */
  lemma FastReleaseStepsFurther()
    ensures NearestIndex(SnapPoints, 45.0) == 1
    ensures Resolve(SnapPoints, 45.0, -0.8) == 2
    ensures Resolve(SnapPoints, 45.0, 0.8) == 0
  {
    assert NearestAmong(SnapPoints, 45.0, 1) == 0;
    assert NearestAmong(SnapPoints, 45.0, 2) == 1;
  }

  /** Mounted closed, then opened: after one full-length frame the sheet rests half open. */
  method OpenSettlesHalfOpen(turnCos: real -> real) returns (y: real, index: nat, closed: bool)
    ensures y == 50.0 && index == 1 && !closed
  {
    var sheet := new BottomSheet();
    sheet.SyncOpen(true, 0.0);
    closed := sheet.Tick(300.0, turnCos);
    y, index := sheet.currentY, sheet.currentSnapPoint;
  }

  /** Closing fires onClose exactly once: not mid-way, once at the end, never afterwards. */
  method CloseFiresOnce(turnCos: real -> real) returns (mid: bool, end: bool, after: bool, y: real)
    ensures !mid && end && !after && y == 100.0
  {
    var sheet := new BottomSheet();
    sheet.SyncOpen(false, 0.0);
    mid := sheet.Tick(150.0, turnCos);
    end := sheet.Tick(300.0, turnCos);
    after := sheet.Tick(450.0, turnCos);
    y := sheet.currentY;
  }

  /** From closed at 100, a control asks for index 1: the sheet lands exactly on 50. */
  method GoToHalfFromClosed(turnCos: real -> real) returns (y: real, index: nat, closed: bool)
    ensures y == 50.0 && index == 1 && !closed
  {
    var sheet := new BottomSheet();
    sheet.SyncOpen(false, 0.0);
    closed := sheet.Tick(300.0, turnCos);
    sheet.GoToSnapPoint(1, 1000.0);
    closed := sheet.Tick(1250.0, turnCos);
    closed := sheet.Tick(1300.0, turnCos);
    y, index := sheet.currentY, sheet.currentSnapPoint;
  }

  /** A drag that starts mid-animation cancels it: the old animation's next frame changes
      nothing, and an out-of-range control request is ignored too. */
  method DragCancelsAnimation(turnCos: real -> real) returns (before: real, after: real, closed: bool)
    ensures before == after && !closed
  {
    var sheet := new BottomSheet();
    sheet.SyncOpen(false, 0.0);
    closed := sheet.Tick(100.0, turnCos);
    sheet.DragStart(400.0);
    before := sheet.currentY;
    closed := sheet.Tick(300.0, turnCos);
    sheet.GoToSnapPoint(3, 310.0);
    closed := sheet.Tick(700.0, turnCos);
    after := sheet.currentY;
  }

  /** Dragged from 50 to 30 and released slowly: the tie between 50 and 10 goes to 50. */
  method SlowReleaseFromThirty(turnCos: real -> real) returns (dragged: real, y: real, index: nat)
    ensures dragged == 30.0 && y == 50.0 && index == 1
  {
    var sheet := new BottomSheet();
    sheet.SyncOpen(true, 0.0);
    var closed := sheet.Tick(300.0, turnCos);
    sheet.DragStart(200.0);
    sheet.DragMove(180.0, 100.0);
    dragged := sheet.currentY;
    TieKeepsFirstNearest();
    sheet.DragEnd(180.0, 1000.0);
    closed := sheet.Tick(1300.0, turnCos);
    y, index := sheet.currentY, sheet.currentSnapPoint;
  }

  /** Dragged from 50 to 45 and released with velocity -0.8: the sheet opens fully. */
  method FastReleaseOpensFully(turnCos: real -> real) returns (dragged: real, y: real, index: nat)
    ensures dragged == 45.0 && y == 10.0 && index == 2
  {
    var sheet := new BottomSheet();
    sheet.SyncOpen(true, 0.0);
    var closed := sheet.Tick(300.0, turnCos);
    sheet.DragStart(200.0);
    sheet.DragMove(195.0, 100.0);
    dragged := sheet.currentY;
    FastReleaseStepsFurther();
    sheet.DragEnd(120.0, 1000.0);
    closed := sheet.Tick(1300.0, turnCos);
    y, index := sheet.currentY, sheet.currentSnapPoint;
  }

  /** Dragging far past either end stops at the fully open and at the closed point; moves
      after the release are ignored. */
  method DragIsClamped(turnCos: real -> real) returns (up: real, down: real, idle: real)
    ensures up == 10.0 && down == 100.0 && idle == 100.0
  {
    var sheet := new BottomSheet();
    sheet.SyncOpen(true, 0.0);
    var closed := sheet.Tick(300.0, turnCos);
    sheet.DragStart(500.0);
    sheet.DragMove(-5000.0, 800.0);
    up := sheet.currentY;
    sheet.DragMove(9000.0, 800.0);
    down := sheet.currentY;
    sheet.DragEnd(9000.0, 400.0);
    sheet.DragMove(500.0, 800.0);
    idle := sheet.currentY;
  }

  /** Keyboard from half open: ArrowUp opens fully, a second ArrowUp is ignored at the last
      index, Escape closes and fires onClose. */
  method KeyboardSteps(turnCos: real -> real) returns (fullIndex: nat, ignored: bool, closed: bool, y: real)
    ensures fullIndex == 2 && ignored && closed && y == 100.0
  {
    var sheet := new BottomSheet();
    sheet.SyncOpen(true, 0.0);
    var c := sheet.Tick(300.0, turnCos);
    sheet.HandleKeyDown(ArrowUp, 400.0);
    c := sheet.Tick(700.0, turnCos);
    fullIndex := sheet.currentSnapPoint;
    sheet.HandleKeyDown(ArrowUp, 800.0);
    ignored := !sheet.pending;
    sheet.HandleKeyDown(Escape, 900.0);
    closed := sheet.Tick(1200.0, turnCos);
    y := sheet.currentY;
  }

  /** Nothing stops a key press during a drag: Escape schedules an animation while the
      drag is still live, so dragging and animating can coexist. */
  method KeyDuringDrag() returns (dragging: bool, animating: bool)
    ensures dragging && animating
  {
    var sheet := new BottomSheet();
    sheet.DragStart(300.0);
    sheet.HandleKeyDown(Escape, 50.0);
    dragging, animating := sheet.isDragging, sheet.pending;
  }
}
