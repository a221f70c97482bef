# Bottom sheet snap-point motion engine, in Dafny

A model of the motion engine inside the `BottomSheet` React component. A bottom sheet is a panel that slides up from the bottom of the viewport and rests at one of three snap points. Offsets are percentages of the viewport height, measured from the top: 100 is closed, 50 is half open and 10 is fully open. The engine has four parts:

- `easing.dfy` (module `Easing`): the spring easing curve `1 - (1-p)^3 * cos(2*pi*p)`, the progress of a 300 ms animation, and the interpolation between the start offset and the target offset.
- `snap_resolver.dfy` (module `SnapResolver`): `findNearestSnapPoint`. It scans the snap points from left to right for the nearest one and then applies the one-step velocity bias. The method with its loop is proved against the function `Resolve`, and lemmas characterise that function.
- `bottom_sheet.dfy` (module `Sheet`): the component's state as the class `BottomSheet`.
  - The fields are `currentY`, `isDragging`, `startY`, `initialTransform` and `currentSnapPoint`.
  - The pending animation frame is a flag.
  - The live animation is three fields: start offset, target index and start time.
  - Touch and mouse handlers are the same code in the component, so they become one pointer API: `DragStart`, `DragMove` and `DragEnd`.
  - The frame callback is the method `Tick(now, turnCos)`. Its out-parameter `closed` says whether `onClose` fired.
  - `AnimateToSnapPoint`, `GoToSnapPoint`, `HandleKeyDown`, the `isOpen` effect (`SyncOpen`) and the unmount cleanup (`Unmount`) are methods.
  - The backdrop and close buttons call `AnimateToSnapPoint(0)`. The three control buttons call `GoToSnapPoint(0|1|2)`.
- `scenarios.dfy` (module `Scenarios`): worked runs on a freshly mounted sheet, stated as postconditions.

Host capabilities are parameters:
- the clock reading `now` (for `performance.now()` and the frame time stamp);
- the viewport height (`window.innerHeight`, assumed positive);
- `turnCos`, the host's value of `cos(2*pi*p)`.

Every animation fact proved here holds for any `turnCos`. The exception is a fact that names the value of `turnCos` it relies on, for example `cos 0 = 1`.

Behaviour of the code that the model keeps, and that a reader might not expect:
- The offset is not kept inside the snap range. A mounted sheet starts at offset 0 although its snap index is 0 (closed, 100). The spring also overshoots: `Easing.EaseOvershootsAtHalf` shows a half-open to fully-open animation passing 5. Only drag moves clamp, as `DragOffset` and `DragMove` state, and an animation that starts in range stays in range on every frame whose eased progress is in [0, 1] (`Tick`); an overshooting frame can leave it (`Easing.EaseOvershootsAtHalf`).
- Dragging and animating can overlap. A key press or control during a drag starts an animation while `isDragging` stays true (`Scenarios.KeyDuringDrag`).
- A slow release at 30 settles at 50, not at 10. The two distances tie at 20, and the scan's strict `<` keeps index 1 (`Scenarios.TieKeepsFirstNearest`, `Scenarios.SlowReleaseFromThirty`).

The model follows the code in all of the above. It departs from the code in one respect: the `isOpen` effect runs only when it is called (see `SyncOpen` under "## Left out").

## Model

| member | source | states |
|---|---|---|
| Easing.Progress | bottom-sheet-app/src/components/BottomSheet.js:37-38 | progress is at most 1. It equals 1 exactly when 300 time units have elapsed, and it is non-negative when elapsed time is |
| Easing.Ease | bottom-sheet-app/src/components/BottomSheet.js:41 | the spring curve is exactly 1 at progress 1 for any cosine, and 0 at progress 0 when cos 0 = 1 |
| Easing.Interpolate | bottom-sheet-app/src/components/BottomSheet.js:43 | the displayed offset is the start offset at display progress 0 and the target at 1 |
| Easing.InterpolateWithinRange | bottom-sheet-app/src/components/BottomSheet.js:43 | at display progress in [0, 1], a frame between two offsets of a range lies in that range. `Tick` uses it to keep an in-range animation in [10, 100] |
| Easing.FinalFrameLandsOnTarget | bottom-sheet-app/src/components/BottomSheet.js:37-43 | a frame 300 or more time units after the start shows exactly the target offset, whatever the cosine |
| Easing.FirstFrameShowsStart | bottom-sheet-app/src/components/BottomSheet.js:37-43 | a frame at the start time shows the start offset |
| Easing.EaseOvershootsAtHalf | bottom-sheet-app/src/components/BottomSheet.js:41-43 | half way through, the curve is 1.125. An animation from 50 to 10 then shows 5, outside the snap range |
| SnapResolver.NearestAmong | bottom-sheet-app/src/components/BottomSheet.js:66-75 | the index the scan holds after examining the first i points is one of those i points |
| SnapResolver.BiasByVelocity | bottom-sheet-app/src/components/BottomSheet.js:78-84 | the velocity-biased index is still a valid index |
| SnapResolver.Resolve | bottom-sheet-app/src/components/BottomSheet.js:65-87 | the resolved snap index is always in [0, number of snap points) |
| SnapResolver.FindNearestSnapPoint | bottom-sheet-app/src/components/BottomSheet.js:65-87 | the scan loop followed by the bias returns a valid index, equal to Resolve of its inputs |
| SnapResolver.NearestAmongIsLowestNearest | bottom-sheet-app/src/components/BottomSheet.js:66-75 | the scan finds a point at minimal distance from the position, and every point before it is strictly farther (strict `<`, first minimum wins) |
| SnapResolver.NearestIndexCharacterised | bottom-sheet-app/src/components/BottomSheet.js:66-75 | an index is the scan's result if and only if it is the lowest index at minimal distance |
| SnapResolver.SlowReleaseTakesNearest | bottom-sheet-app/src/components/BottomSheet.js:65-86 | when the velocity is at most 0.5 in magnitude, the result is the lowest nearest snap point |
| SnapResolver.VelocityBias | bottom-sheet-app/src/components/BottomSheet.js:78-84 | velocity above 0.5 gives max(0, nearest-1). Velocity below -0.5 gives min(last, nearest+1). Otherwise the result is the nearest index |
| SnapResolver.BiasDirection | bottom-sheet-app/src/components/BottomSheet.js:78-84 | a significant positive velocity never gives an index above the nearest one, and a significant negative one never gives an index below it |
| SnapResolver.ExactMatchWins | bottom-sheet-app/src/components/BottomSheet.js:65-75 | with distinct snap points and no significant velocity, a release exactly on snap point i settles at i |
| Sheet.DragOffset | bottom-sheet-app/src/components/BottomSheet.js:103-106 | the dragged offset is the anchor offset plus the pointer travel as a percent of the viewport, clamped to [snapPoints[2], snapPoints[0]] = [10, 100] |
| Sheet.KeyTarget | bottom-sheet-app/src/components/BottomSheet.js:206-214 | Escape targets 0. ArrowUp targets current+1 exactly when below the last index. ArrowDown targets current-1 exactly when above 0. Other keys target nothing. Every target is a valid index |
| Sheet.BottomSheet.constructor | bottom-sheet-app/src/components/BottomSheet.js:5-11 | a mounted sheet is idle at offset 0 with snap index 0, an anchor of 0 and no frame pending |
| Sheet.BottomSheet.AnimateToSnapPoint | bottom-sheet-app/src/components/BottomSheet.js:28-62 | the old pending frame is replaced by one new animation. It starts from the current offset, toward the target, at `now`. Offset, drag state and snap index are unchanged |
| Sheet.BottomSheet.Tick | bottom-sheet-app/src/components/BottomSheet.js:36-56 | with no pending frame nothing changes. Otherwise the offset follows the eased path. Before 300 units another frame is pending. At the end no frame is pending, the offset equals the target snap value exactly, the snap index becomes the target, and onClose fires if and only if the target is 0. An animation starting in [10, 100] stays there on every frame whose eased progress is in [0, 1] |
| Sheet.BottomSheet.DragStart | bottom-sheet-app/src/components/BottomSheet.js:90-98 | dragging starts, anchored at the pointer position and current offset, and any pending frame is cancelled (the mouse copy at lines 128-136 is identical) |
| Sheet.BottomSheet.DragMove | bottom-sheet-app/src/components/BottomSheet.js:100-112 | while dragging the offset becomes DragOffset of the anchor, so it lies in [10, 100]. While idle nothing changes (mouse copy at lines 138-150) |
| Sheet.BottomSheet.DragEnd | bottom-sheet-app/src/components/BottomSheet.js:114-125 | while dragging, the drag ends and an animation starts toward Resolve(offset, (y - startY)/100). While idle nothing changes (mouse copy at lines 152-163) |
| Sheet.BottomSheet.GoToSnapPoint | bottom-sheet-app/src/components/BottomSheet.js:199-203 | a valid index starts an animation toward it. An out-of-range index changes nothing |
| Sheet.BottomSheet.HandleKeyDown | bottom-sheet-app/src/components/BottomSheet.js:206-214 | animates toward KeyTarget of the key and the settled index. Changes nothing when there is none |
| Sheet.BottomSheet.SyncOpen | bottom-sheet-app/src/components/BottomSheet.js:166-174 | the settled index is set at once to 1 (open) or 0 (closed), and an animation toward it starts |
| Sheet.BottomSheet.Unmount | bottom-sheet-app/src/components/BottomSheet.js:190-196 | teardown cancels any pending frame |
| Scenarios.TieKeepsFirstNearest | bottom-sheet-app/src/components/BottomSheet.js:65-75 | offset 30 is equally far from 50 and 10. The scan keeps index 1, and a slow release resolves to 1 |
| Scenarios.FastReleaseStepsFurther | bottom-sheet-app/src/components/BottomSheet.js:65-86 | 45 is nearest to index 1. Velocity -0.8 resolves to 2 and velocity 0.8 resolves to 0 |
| Scenarios.OpenSettlesHalfOpen | bottom-sheet-app/src/components/BottomSheet.js:166-174 | opening a mounted sheet and running a frame at 300 leaves it at offset 50 and index 1, without onClose |
| Scenarios.CloseFiresOnce | bottom-sheet-app/src/components/BottomSheet.js:48-55 | a closing animation fires onClose at its final frame only. It does not fire at a middle frame or at any later tick, and the offset ends at 100 |
| Scenarios.GoToHalfFromClosed | bottom-sheet-app/src/components/BottomSheet.js:199-203 | from closed at 100, a request for index 1 lands exactly on 50 with index 1 |
| Scenarios.DragCancelsAnimation | bottom-sheet-app/src/components/BottomSheet.js:90-98 | after a drag starts mid-animation, later ticks and an out-of-range request leave the offset unchanged |
| Scenarios.SlowReleaseFromThirty | bottom-sheet-app/src/components/BottomSheet.js:100-125 | dragged from 50 to 30 and released at velocity -0.2, the sheet settles at 50, index 1 |
| Scenarios.FastReleaseOpensFully | bottom-sheet-app/src/components/BottomSheet.js:114-125 | dragged from 50 to 45 and released at velocity -0.8, the sheet settles at 10, index 2 |
| Scenarios.DragIsClamped | bottom-sheet-app/src/components/BottomSheet.js:100-112 | dragging far up stops at 10 and far down at 100. A move after release is ignored |
| Scenarios.KeyboardSteps | bottom-sheet-app/src/components/BottomSheet.js:206-214 | ArrowUp from half open goes to index 2, and a second ArrowUp is ignored. Escape then closes to 100 and fires onClose |
| Scenarios.KeyDuringDrag | bottom-sheet-app/src/components/BottomSheet.js:206-214 | a key press during a drag leaves the sheet both dragging and animating |

## Left out

- Rendering: JSX, CSS class names, ARIA attributes and button markup (lines 216-273) are presentation. Only the buttons' calls are kept, and they are the methods above.
- Direct writes of `style.transform` (lines 46, 110, 148) are host output. The model's `currentY` is the value they show.
- The null guard on `bottomSheetRef.current` (line 29) is left out. The element exists whenever the handlers can run.
- The document-level mouse listeners (lines 177-187) are event wiring. The mouse handlers they register are the same pointer methods as the touch handlers.
- `requestAnimationFrame`, `cancelAnimationFrame`, `performance.now` and `window.innerHeight` are not modelled. They become the `pending` flag, a caller-supplied `now` and a positive viewport-height parameter.
- `Math.cos` and IEEE floating point are not modelled. Offsets are `real`, and the cosine is a caller-supplied function.
- The unused `springConfig` (lines 21-25) has no effect.
- React's stale closures are not modelled. The model always starts an animation from the current offset, which is what the handlers intend.
- Sheet.BottomSheet.SyncOpen: runs only when a caller calls it. In the component the `isOpen` effect re-runs after every render, and the model does not capture this.
  - Cause: `snapPoints` (line 14) is a new array on every render and is a dependency of `animateToSnapPoint` (line 62), so `animateToSnapPoint` is a new function after every render. The `isOpen` effect (lines 166-174) depends on it.
  - Renders that re-run the effect: every animation frame (line 45), drag start (lines 91-93, 129-131), every drag move (lines 108, 146), drag end (lines 117, 155), the commit of the settled index (line 51), and any re-render of the parent.
  - Each re-run resets `currentSnapPoint` to 1 (open) or 0 (closed) and restarts the animation toward that index, cancelling the pending frame.
  - Consequences in the component as written: ArrowUp to index 2, a release to any index, `goToSnapPoint`, and a drag (from its start onward) are all turned back toward index 1 or 0 at the next render. An open sheet cannot close itself: Escape (line 208), the backdrop (line 221) and the close button (line 247) are turned back toward index 1 after their first frame, so `onClose` never fires from them. No animation frame at 300 ends an animation either, because the re-render after its first frame restarts it.
  - Scenarios that rely on `SyncOpen` running only when called, and so describe the handlers' own logic rather than the re-render loop: `Scenarios.OpenSettlesHalfOpen`, `Scenarios.CloseFiresOnce`, `Scenarios.GoToHalfFromClosed`, `Scenarios.DragCancelsAnimation`, `Scenarios.SlowReleaseFromThirty`, `Scenarios.FastReleaseOpensFully`, `Scenarios.DragIsClamped`, `Scenarios.KeyboardSteps`.
- Sheet.BottomSheet.AnimateToSnapPoint: requires a valid index. Every caller in the component passes one. Any other index would read an undefined snap value.
- The demo application and the rendering tests are not part of this model.
