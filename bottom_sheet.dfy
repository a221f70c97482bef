/** The bottom sheet's motion state (BottomSheet.js): the drag tracker, which turns pointer
    samples into a live offset and a release velocity, and the motion controller, which owns
    the offset and the settled snap index and runs the settle animation one frame at a time.

    Host capabilities are parameters: the clock reading `now`, the viewport height, and the
    cosine `turnCos` used by the easing curve. The pending animation frame is the flag
    `pending`; the frame callback is the method Tick. Offsets are percentages of the viewport
    height measured from the top (100 = hidden). */
module Sheet {
  import opened Easing
  import opened SnapResolver

  datatype Option<T> = None | Some(value: T)

  /** The snap points, by index: 0 closed, 1 half open, 2 fully open. */
  const SnapPoints: seq<real> := [100.0, 50.0, 10.0]

  /** A release's velocity is its pointer travel divided by this. */
  const VelocityScale: real := 100.0

  function RealMin(a: real, b: real): real { if a <= b then a else b }
  function RealMax(a: real, b: real): real { if a >= b then a else b }

  /** The offset a drag shows with the pointer at `y`: the offset at drag start plus the
      pointer's travel as a percentage of the viewport, clamped between the fully open point
      (index 2) and the closed point (index 0). */
  function DragOffset(initialTransform: real, startY: real, y: real, viewportHeight: real): (r: real)
    requires viewportHeight > 0.0
    ensures SnapPoints[2] <= r <= SnapPoints[0]
    ensures var raw := initialTransform + (y - startY) / viewportHeight * 100.0;
      (SnapPoints[2] <= raw <= SnapPoints[0] ==> r == raw)
      && (raw < SnapPoints[2] ==> r == SnapPoints[2])
      && (raw > SnapPoints[0] ==> r == SnapPoints[0])
  {
    RealMax(SnapPoints[2], RealMin(SnapPoints[0], initialTransform + (y - startY) / viewportHeight * 100.0))
  }

  /** Keys the sheet reacts to; every other key is OtherKey. */
  datatype Key = Escape | ArrowUp | ArrowDown | OtherKey

  /** The snap index a key press animates to, if any, from the settled index `current`. */
  function KeyTarget(key: Key, current: nat): (t: Option<nat>)
    requires current < |SnapPoints|
    ensures t.Some? ==> t.value < |SnapPoints|
    ensures key == Escape ==> t == Some(0)
    ensures key == ArrowUp ==> (t.Some? <==> current < |SnapPoints| - 1) && (t.Some? ==> t.value == current + 1)
    ensures key == ArrowDown ==> (t.Some? <==> current > 0) && (t.Some? ==> t.value == current - 1)
    ensures key == OtherKey ==> t == None
  {
    match key
    case Escape => Some(0)
    case ArrowUp => if current < |SnapPoints| - 1 then Some(current + 1) else None
    case ArrowDown => if current > 0 then Some(current - 1) else None
    case OtherKey => None
  }

  class BottomSheet {
    /** Live offset shown on screen. */
    var currentY: real
    var isDragging: bool
    /** Drag anchor: pointer position and offset when the drag started. */
    var startY: real
    var initialTransform: real
    /** Index of the last settled snap point. */
    var currentSnapPoint: nat
    /** Whether an animation frame is scheduled and not cancelled. */
    var pending: bool
    /** The live animation: start offset, target index and start time. */
    var animFrom: real
    var animTarget: nat
    var animStartTime: real

    ghost predicate Valid()
      reads this
    {
      currentSnapPoint < |SnapPoints| && animTarget < |SnapPoints|
    }

    /** A freshly mounted sheet: closed index, offset 0, idle, nothing scheduled. */
    constructor ()
      ensures Valid()
      ensures currentY == 0.0 && !isDragging && startY == 0.0 && initialTransform == 0.0
      ensures currentSnapPoint == 0 && !pending
    {
      currentY := 0.0;
      isDragging := false;
      startY := 0.0;
      initialTransform := 0.0;
      currentSnapPoint := 0;
      pending := false;
      animFrom := 0.0;
      animTarget := 0;
      animStartTime := 0.0;
    }

    /** Starts a settle animation toward `target` from the current offset, replacing any
        animation still pending; the settled index is untouched until the animation ends. */
    method AnimateToSnapPoint(target: nat, now: real)
      requires Valid()
      requires target < |SnapPoints|
      modifies this`pending, this`animFrom, this`animTarget, this`animStartTime
      ensures Valid()
      ensures pending && animFrom == currentY && animTarget == target && animStartTime == now
    {
      pending := false;  // the old frame, if any, is cancelled
      animFrom := currentY;
      animTarget := target;
      animStartTime := now;
      pending := true;   // and the first frame of this one is requested
    }

    /** One animation frame at time `now`. Without a pending frame nothing happens. Otherwise
        the offset moves along the eased path; before the end another frame is scheduled,
        at the end the target becomes the settled index and `closed` reports onClose. An
        animation that starts inside the snap range stays inside it on every frame whose
        eased progress is in [0, 1]; the spring's overshoot is what can take it outside. */
    method Tick(now: real, turnCos: real -> real) returns (closed: bool)
      requires Valid()
      modifies this`currentY, this`pending, this`currentSnapPoint
      ensures Valid()
      ensures !old(pending) ==>
        !closed && !pending && currentY == old(currentY) && currentSnapPoint == old(currentSnapPoint)
      ensures old(pending) ==>
        currentY == Interpolate(animFrom, SnapPoints[animTarget], Ease(Progress(now - animStartTime), turnCos))
      ensures old(pending) && now - animStartTime < Duration ==>
        pending && !closed && currentSnapPoint == old(currentSnapPoint)
      ensures old(pending) && now - animStartTime >= Duration ==>
        !pending && currentSnapPoint == animTarget && currentY == SnapPoints[animTarget]
        && (closed <==> animTarget == 0)
      ensures closed ==> old(pending) && animTarget == 0 && currentSnapPoint == 0 && currentY == SnapPoints[0]
      ensures (old(pending) && 0.0 <= Ease(Progress(now - animStartTime), turnCos) <= 1.0
                 && SnapPoints[2] <= animFrom <= SnapPoints[0]) ==>
        SnapPoints[2] <= currentY <= SnapPoints[0]
    {
      if !pending {
        closed := false;
        return;
      }
      var progress := Progress(now - animStartTime);
      var springProgress := Ease(progress, turnCos);
      if 0.0 <= springProgress <= 1.0 && SnapPoints[2] <= animFrom <= SnapPoints[0] {
        InterpolateWithinRange(animFrom, SnapPoints[animTarget], springProgress, SnapPoints[2], SnapPoints[0]);
      }
      currentY := Interpolate(animFrom, SnapPoints[animTarget], springProgress);
      if progress < 1.0 {
        pending := true;
        closed := false;
      } else {
        pending := false;
        currentSnapPoint := animTarget;
        closed := animTarget == 0;
      }
    }

    /** Pointer down at `y`: dragging starts, anchored at `y` and the current offset, and any
        pending animation frame is cancelled. */
    method DragStart(y: real)
      requires Valid()
      modifies this`isDragging, this`startY, this`initialTransform, this`pending
      ensures Valid()
      ensures isDragging && startY == y && initialTransform == currentY && !pending
    {
      isDragging := true;
      startY := y;
      initialTransform := currentY;
      pending := false;
    }

    /** Pointer move to `y`: while dragging the offset follows the pointer within the snap
        range; while idle nothing changes. */
    method DragMove(y: real, viewportHeight: real)
      requires Valid()
      requires viewportHeight > 0.0
      modifies this`currentY
      ensures Valid()
      ensures old(isDragging) ==> currentY == DragOffset(initialTransform, startY, y, viewportHeight)
      ensures old(isDragging) ==> SnapPoints[2] <= currentY <= SnapPoints[0]
      ensures !old(isDragging) ==> currentY == old(currentY)
    {
      if !isDragging {
        return;
      }
      currentY := DragOffset(initialTransform, startY, y, viewportHeight);
    }

    /** Pointer up at `y`: while dragging, the drag ends and the sheet animates to the snap
        point resolved from the current offset and the release velocity; while idle nothing
        changes. */
    method DragEnd(y: real, now: real)
      requires Valid()
      modifies this`isDragging, this`pending, this`animFrom, this`animTarget, this`animStartTime
      ensures Valid()
      ensures !old(isDragging) ==> unchanged(this)
      ensures old(isDragging) ==>
        !isDragging && pending && animFrom == currentY && animStartTime == now
        && animTarget == Resolve(SnapPoints, currentY, (y - startY) / VelocityScale)
    {
      if !isDragging {
        return;
      }
      isDragging := false;
      var deltaY := y - startY;
      var velocity := deltaY / VelocityScale;
      var target := FindNearestSnapPoint(SnapPoints, currentY, velocity);
      AnimateToSnapPoint(target, now);
    }

    /** A control's request for snap point `index`: animates there when it is a valid index,
        and otherwise changes nothing. */
    method GoToSnapPoint(index: int, now: real)
      requires Valid()
      modifies this`pending, this`animFrom, this`animTarget, this`animStartTime
      ensures Valid()
      ensures 0 <= index < |SnapPoints| ==>
        pending && animTarget == index && animFrom == currentY && animStartTime == now
      ensures !(0 <= index < |SnapPoints|) ==> unchanged(this)
    {
      if 0 <= index < |SnapPoints| {
        AnimateToSnapPoint(index, now);
      }
    }

    /** A key press: Escape closes, ArrowUp and ArrowDown step one snap point from the
        settled index when there is one; anything else changes nothing. */
    method HandleKeyDown(key: Key, now: real)
      requires Valid()
      modifies this`pending, this`animFrom, this`animTarget, this`animStartTime
      ensures Valid()
      ensures KeyTarget(key, currentSnapPoint).None? ==> unchanged(this)
      ensures KeyTarget(key, currentSnapPoint).Some? ==>
        pending && animTarget == KeyTarget(key, currentSnapPoint).value
        && animFrom == currentY && animStartTime == now
    {
      match KeyTarget(key, currentSnapPoint)
      case Some(t) => AnimateToSnapPoint(t, now);
      case None =>
    }

    /** The reaction to the `isOpen` property: the settled index is set to half open (or
        closed) at once, and an animation toward that same point starts. */
    method SyncOpen(isOpen: bool, now: real)
      requires Valid()
      modifies this`currentSnapPoint, this`pending, this`animFrom, this`animTarget, this`animStartTime
      ensures Valid()
      ensures currentSnapPoint == (if isOpen then 1 else 0)
      ensures pending && animTarget == currentSnapPoint && animFrom == currentY && animStartTime == now
    {
      if isOpen {
        currentSnapPoint := 1;
        AnimateToSnapPoint(1, now);
      } else {
        currentSnapPoint := 0;
        AnimateToSnapPoint(0, now);
      }
    }

    /** Teardown: any pending frame is cancelled, so no callback runs on the removed sheet. */
    method Unmount()
      requires Valid()
      modifies this`pending
      ensures Valid()
      ensures !pending
    {
      pending := false;
    }
  }
}
