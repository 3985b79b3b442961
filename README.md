# BottomSheet gesture controller, in Dafny

This project models the controller inside the `BottomSheet` React component
of bottom-sheet-react (`src/index.tsx`). A bottom sheet is a panel anchored to
the bottom of the viewport. The user drags it with touch gestures between
rest positions:

- fixed-height mode: open or closed;
- expandable mode: half open, fullscreen or closed.

The controller keeps the component's state cells. These are the viewport
`height`, `isScrolled`, `isFullscreen`, the touch origin `initTouchY`, the
live offset `bottom`, the committed offset `bottomBase` and the
`animationName`. Its handlers are the mount effect, `onTouchStart`,
`onMove`, `onTouchEnd`, `closeBottomSheet`, `setNewBottom` and `onScroll`.

Three modules, one per file:

- `SheetModel` (`sheet_model.dfy`) specifies each handler as a function
  over a `Sheet` snapshot of the state. Every `setTimeout` callback becomes
  a `Commit` appended to a FIFO queue `pending`. `FireNext` runs the oldest
  one. With the props held constant, every timer of one sheet uses the same
  delay, so they fire in the order they were scheduled. A commit records the target offset its closure
  captured. A counter `closeCalls` records each call of the `onClose` prop.
  `Event`, `Step` and `Run` describe any interleaving of touches, scrolls,
  dismisses and timer firings.
- `SheetProperties` (`sheet_properties.dfy`) proves properties of that
  specification:
  - the state invariant `Inv` holds after any run of events: `bottom <= 0`,
    and the committed offset and every pending target are rest offsets of
    the sheet's mode;
  - the snap thresholds and the precedence of their branches;
  - the scroll lock;
  - when `onClose` runs;
  - two worked scenarios at height 800.
- `SheetController` (`sheet_controller.dfy`) is the component as a class.
  The state cells are fields, and each handler is a method that updates
  them in place with the same branches as the source. Every handler method
  is proved to compute the matching `SheetModel` function and to keep
  `Valid()`, with two exceptions. `SetNewBottom` only promises the new
  `bottom`: like the source's setter it takes any value, and `OnMove` calls
  it only with an offset that keeps the invariant. `CloseBottomSheet` keeps
  `Valid()` when it held before, because `FireNext` calls it halfway
  through an update.

Offsets and heights are exact reals, so `(height / 3 / 10) * 3` is exactly
`height / 10`.

Behaviour of the code a reader might not expect. The model follows the
code in each case:

- `closeBottomSheet` has no in-flight guard. Two dismisses schedule two
  commits and call `onClose` twice (`DismissTwiceClosesTwice`).
- Timer callbacks are never cancelled or checked for staleness. A reset
  scheduled after a dismiss reopens the sheet after `onClose` has run, as
  long as the owner keeps the component mounted (`StaleCommitReopens`).
- `initTouchY` starts at 0 and is never cleared. A move with no touch start
  uses that old origin.
- `onScroll` sets `isFullscreen` in either mode and at any committed offset.
  So "fullscreen" does not imply a committed offset of 0
  (`ScrollFullscreenAtHalf`).
- `height` is copied once by the mount effect. Later viewport resizes do
  not change it.
- A fixed-height close calls `closeBottomSheet` from inside its timer. So
  `onClose` runs only after a second delay (`FixedCloseCallsOnCloseOnce`).
- The third expandable trigger, `TRIGGER_EXPANDABLE_RESET_TO_FULL`, never
  changes the outcome for a non-negative height. Whenever it holds, the
  reset-to-middle trigger holds too (`ToFullFromHalf`). The fullscreen
  trigger implies the reset-to-middle trigger as well (`ToFull`), so the
  order of the branches decides that case.

## Model

| member | source | states |
|---|---|---|
| SheetModel.DelayValue | src/index.tsx:135-137 | the delay is the supplied one when it is non-zero, 250 when it is absent or zero, and never zero |
| SheetModel.ConfigOf | src/index.tsx:102-137 | the props are read as given, and the delay used is never zero and is 250 when none is supplied |
| SheetModel.ClassName | src/index.tsx:199-203 | the container's animation class is empty exactly when no animation is running |
| SheetModel.Initial | src/index.tsx:116-133 | the first render starts at offset -9000 below a committed offset of 0 and already satisfies the invariant for any props |
| SheetModel.Mount | src/index.tsx:142-164 | mounting copies the height; a fixed sheet gets `bottom = bottomBase = 0` and `open-modal`, an expandable one `bottom = bottomBase = -height/2` and `open`; nothing else changes |
| SheetModel.TouchStart | src/index.tsx:171-180 | touch start records the touch Y unless the content is scrolled, and changes nothing else |
| SheetModel.Move | src/index.tsx:275-308 | a move sets only `bottom`, to the committed offset plus the finger's rise, unless a clamp rule drops it; a kept move never leaves `bottom > 0`, never above `bottomBase` when fullscreen, and a fixed sheet never rises |
| SheetModel.SetNewBottom | src/index.tsx:267-269 | only the live offset changes, to the given value |
| SheetModel.FixedResetThreshold | src/index.tsx:193 | the fixed-height reset threshold is exactly `-height/10` |
| SheetModel.ToFull | src/index.tsx:217-218 | wherever the fullscreen trigger holds at a non-negative height, the reset-to-middle trigger holds too |
| SheetModel.ToMiddle | src/index.tsx:219-220 | the reset-to-middle trigger holds exactly above seven tenths of the height below the top |
| SheetModel.ToFullFromHalf | src/index.tsx:221-222 | at a non-negative height the reset-to-full trigger implies the reset-to-middle trigger, so it never decides the outcome |
| SheetModel.SnapOf | src/index.tsx:185-247 | a release does nothing exactly when the content is scrolled, there was no drag, or a fixed sheet is above 0; fixed outcomes only in fixed mode, expandable ones only in expandable mode |
| SheetModel.TouchEnd | src/index.tsx:185-248 | a release leaves both offsets as they are and appends exactly the commit of the chosen branch with its animation; only the close path clears fullscreen at once |
| SheetModel.CloseSheet | src/index.tsx:250-265 | dismissing sets the `close` animation and appends one commit to `-height`, changing nothing else |
| SheetModel.Scroll | src/index.tsx:314-321 | scrolled exactly when the scroll top is positive; a positive scroll forces fullscreen, a zero one leaves it; nothing else changes |
| SheetModel.Apply | src/index.tsx:200-264 | a firing commit sets `bottom = bottomBase` to its target, sets the animation and fullscreen flag of its branch, calls `onClose` once only for a dismiss with the prop given, and a fixed close schedules a dismiss |
| SheetModel.FireNext | src/index.tsx:200-264 | the oldest timer fires: offsets settle at one value, `onClose` runs once only for a dismiss with the prop given, and the remaining timers keep their order, with a dismiss appended only after a fixed-height close |
| SheetModel.Step | src/index.tsx:171-321 | no event other than a timer firing changes the committed offset; a timer with nothing pending does nothing |
| SheetProperties.ApplyPreservesInv | src/index.tsx:200-264 | every commit that fits the sheet keeps the invariant |
| SheetProperties.FireNextPreservesInv | src/index.tsx:200-264 | firing the oldest pending timer keeps the invariant |
| SheetProperties.MountPreservesInv | src/index.tsx:142-164 | the one-time mount keeps the invariant at any non-negative height |
| SheetProperties.StepPreservesInv | src/index.tsx:171-321 | every handler and timer keeps the invariant |
| SheetProperties.RunPreservesInv | src/index.tsx:171-321 | any sequence of events keeps `bottom <= 0`, a rest `bottomBase` and well-formed pending commits |
| SheetProperties.RunWithoutTimers | src/index.tsx:171-321 | without a timer firing, any run of events leaves the committed offset and the `onClose` count unchanged and only appends to the pending commits |
| SheetProperties.ReachableInv | src/index.tsx:116-164 | from the first render, through mount and any events, the invariant holds |
| SheetProperties.MovesOnlyMoveBottom | src/index.tsx:286-307 | any run of moves changes only `bottom`, keeps it at or below 0, and never raises a fixed sheet |
| SheetProperties.ScrollLock | src/index.tsx:171-278 | while the content is scrolled, any sequence of touch starts, moves and releases leaves the state unchanged |
| SheetProperties.FixedThresholdBetweenOffsets | src/index.tsx:193 | for a positive height the threshold lies strictly between `-height` and 0 |
| SheetProperties.FixedSnap | src/index.tsx:192-214 | a fixed-height release after a drag resets exactly when `bottom > -height/10` and closes exactly when `bottom <= -height/10` |
| SheetProperties.ExpandableSnap | src/index.tsx:216-247 | an expandable release goes fullscreen iff above `-height/2` and not at rest at 0, even where the reset-to-middle trigger also holds; otherwise it resets to half iff above `-0.7·height`, and closes iff not |
| SheetProperties.FixedCloseCallsOnCloseOnce | src/index.tsx:206-212 | a fixed-height close moves to `-height` at the first commit without calling `onClose`, and calls it once, when given, at the second |
| SheetProperties.DismissTwiceClosesTwice | src/index.tsx:250-265 | two dismisses then two timers call `onClose` twice when it is given |
| SheetProperties.StaleCommitReopens | src/index.tsx:236-264 | a reset scheduled after a dismiss still fires: the sheet ends half open after `onClose` ran |
| SheetProperties.ScrollFullscreenAtHalf | src/index.tsx:314-318 | scrolling a half-open expandable sheet makes it fullscreen while its committed offset stays `-height/2` |
| SheetProperties.ExpandableScenario | src/index.tsx:216-232 | height 800, expandable: from -400, a drag to -50 releases into `open-full`, and the commit puts the sheet fullscreen at 0 |
| SheetProperties.FixedScenario | src/index.tsx:192-213 | height 800, fixed: a drag to -400 passes the threshold -80 and closes at -800, calling `onClose` once |
| SheetController.BottomSheet.constructor | src/index.tsx:116-137 | the props with the delay default applied, and every state cell at its initial value |
| SheetController.BottomSheet.Mount | src/index.tsx:142-164 | the new state is `SheetModel.Mount` of the old, and the invariant holds |
| SheetController.BottomSheet.OnTouchStart | src/index.tsx:171-180 | the new state is `TouchStart` of the old, and the invariant holds |
| SheetController.BottomSheet.OnTouchEnd | src/index.tsx:185-248 | the new state is `TouchEnd` of the old, and the invariant holds |
| SheetController.BottomSheet.CloseBottomSheet | src/index.tsx:250-265 | the new state is `CloseSheet` of the old; the invariant is kept |
| SheetController.BottomSheet.SetNewBottom | src/index.tsx:267-269 | only `bottom` changes, to the value given |
| SheetController.BottomSheet.OnMove | src/index.tsx:275-308 | the new state is `Move` of the old, and the invariant holds |
| SheetController.BottomSheet.OnScroll | src/index.tsx:314-321 | the new state is `Scroll` of the old, and the invariant holds |
| SheetController.BottomSheet.FireNext | src/index.tsx:200-264 | the new state is `SheetModel.FireNext` of the old, and the invariant holds |

## Left out

- `BottomSheetView` (src/index.tsx:42-97) is not modelled: rendering, the style object, CSS class strings, `preventDefault`/`stopPropagation` and injecting `closeBottomSheet` into the children are presentation.
- src/utils.tsx (`hookHeight`, `getHeight`) is not part of this model. It reads the DOM and listens to window resizes. The mount effect takes the viewport height as a parameter.
- Real time is not modelled. Timer callbacks fire in FIFO order when `FireNext` is called. The delay only justifies that order.
- The props (`isExpandable`, whether `onClose` is given, `animationDelay`) are taken as constant over the component's life. The source reads them again on every render, and each timer captures that render's delay, so a changed delay could reorder timers and a changed `isExpandable` would switch the mode.
- Unmounting is not modelled. An owner that unmounts the sheet in `onClose` drops any later state updates, which the model still applies.
- React rendering and batching are not modelled. Each handler sees the state left by the previous one, and a commit's effects apply together.
- The `onClose` prop is modelled only as whether it is given. A call is a step of the `closeCalls` counter.
- The CSS keyframes are not modelled. Animations are opaque values whose class names are listed in `ClassName`.
- JavaScript double rounding is not modelled: offsets are exact reals. A `NaN` animation delay is not modelled. Touch and scroll coordinates are taken as already extracted from the event.
- The mount effect runs once, as React runs an effect with no dependencies once. A `mounted` flag records that it ran, and the viewport height it copies is taken to be non-negative.
