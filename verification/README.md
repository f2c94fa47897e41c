# Labeled range slider — a Dafny model

This project models the geometry and gesture logic of a two-handle range slider
whose handles come to rest on discrete steps. It covers two variants:

- the library composable `LabeledRangeSlider`;
- the app's draft `CustomSlider`.

Handle positions are exact reals. Only the x-coordinate of a handle matters: every
update copies the `Offset` with a new x, and the y is carried along unchanged.

Modules:

- `Geometry`: canvas points (`Offset`), the pointer events (`TouchInteraction`),
  distance, and facts about evenly spaced coordinate sequences.
- `Nearest`: the nearest-step scan `getClosestNumber`. The library and the app carry
  identical private copies of it, so it is modelled once. The scan is specified by
  `IsClosest`: minimal distance, with ties going to the lowest index.
  `ClosestIndex` is a recursive reference definition meeting that specification.
- `SliderLayout`: the library's pure functions. These are the entry `require`
  checks (as a `Result`), the step axis, the two handle clamps, the per-step
  display state and the step label.
- `LabeledRangeSlider`: the library's remembered gesture state. It is a class whose
  fields are the two handle positions, the `moveLeft`/`moveRight` flags and the
  interaction state. `handleTouch` and `moveToClosestStep` are methods on it.
  A ghost log records every `onRangeIdxChanged` call.
- `MainActivity`: the app draft. It has the hit test, the coordinate loop of
  `drawTicks`, and a class whose `Frame` method is one run of the canvas draw
  block acting on the current event. Down arms handles, Move drags the armed
  ones, and `NoInteraction` is the release.

The library's release is the `Up` event, which `handleTouch` matches. The library's
own event type declares no `Up`, and its pointer pump ends a gesture with
`NoInteraction`, which `handleTouch` ignores. The model keeps the code's meaning:
the release is a separate event (`Up`). Feeding the release that way is left to
the caller.

The library's first `require` says "at least of size 2", but the condition it checks
is `steps.size > 2`. The model follows the condition.

## Model

| member | source | states |
|---|---|---|
| Nearest.GetClosestNumber | labeled-range-slider/src/main/java/de/gnarly/compose/ui/slider/LabeledRangeSlider.kt:326-340 | The scan returns a valid index and the element at it; no element is strictly closer to the input; every earlier element is strictly farther (ties go low); the index equals the reference `ClosestIndex` |
| Nearest.ClosestIndex | app/src/main/java/de/lex/compose/MainActivity.kt:179-193 | The recursive reference definition of the index both copies of the scan return; the app's copy is the same loop as `GetClosestNumber`, which its release calls. The index satisfies `IsClosest`: in range, at minimal distance, lowest among equals |
| Nearest.ClosestFrom | labeled-range-slider/src/main/java/de/gnarly/compose/ui/slider/LabeledRangeSlider.kt:330-338 | Over the suffix from `from`, the result is in the suffix, at minimal distance, and strictly closer than every earlier suffix element |
| Nearest.ClosestUnique | labeled-range-slider/src/main/java/de/gnarly/compose/ui/slider/LabeledRangeSlider.kt:333 | Because the scan replaces only on a strictly smaller distance, at most one index meets the specification |
| Nearest.ClosestOnStep | labeled-range-slider/src/main/java/de/gnarly/compose/ui/slider/LabeledRangeSlider.kt:326-340 | On an increasing axis, a point lying on step `a` snaps to index `a` |
| Nearest.ClosestTieGoesLow | labeled-range-slider/src/main/java/de/gnarly/compose/ui/slider/LabeledRangeSlider.kt:333 | The midpoint of two neighbouring steps snaps to the lower one |
| Nearest.ClosestMonotone | labeled-range-slider/src/main/java/de/gnarly/compose/ui/slider/LabeledRangeSlider.kt:326-340 | On an increasing axis, `x <= y` implies `idx(x) <= idx(y)` |
| Nearest.ClosestWithinHalfSpacing | labeled-range-slider/src/main/java/de/gnarly/compose/ui/slider/LabeledRangeSlider.kt:326-340 | On an evenly spaced axis, a point within the axis is at most half a spacing from the step it snaps to |
| Nearest.SnapResting | labeled-range-slider/src/main/java/de/gnarly/compose/ui/slider/LabeledRangeSlider.kt:294-295 | Snapping a handle that already rests on a step leaves it where it is |
| Nearest.SnapOrdered | labeled-range-slider/src/main/java/de/gnarly/compose/ui/slider/LabeledRangeSlider.kt:294-295 | Snapping two ordered handles keeps both their indices and their coordinates ordered |
| Nearest.UniformWithin | labeled-range-slider/src/main/java/de/gnarly/compose/ui/slider/LabeledRangeSlider.kt:254-256 | Every step of an evenly spaced axis with positive spacing lies between the first and the last step |
| Geometry.UniformIncreasing | labeled-range-slider/src/main/java/de/gnarly/compose/ui/slider/LabeledRangeSlider.kt:254-256 | An evenly spaced sequence with positive spacing is strictly increasing |
| Geometry.UniformGap | labeled-range-slider/src/main/java/de/gnarly/compose/ui/slider/LabeledRangeSlider.kt:254-256 | Two distinct steps of an evenly spaced axis are at least one spacing apart |
| SliderLayout.IndexOf | labeled-range-slider/src/main/java/de/gnarly/compose/ui/slider/LabeledRangeSlider.kt:67-71 | `indexOf` returns -1 exactly when the value is absent; otherwise it returns the first position holding the value |
| SliderLayout.CheckConfiguration | labeled-range-slider/src/main/java/de/gnarly/compose/ui/slider/LabeledRangeSlider.kt:37-39 | The checks succeed iff there are more than two steps and both bounds are steps. Each error holds exactly when its check is the first to fail. On success the start indices are the bounds' first positions |
| SliderLayout.GenerateSequence | labeled-range-slider/src/main/java/de/gnarly/compose/ui/slider/LabeledRangeSlider.kt:254-256 | `generateSequence(start) { it + spacing }.take(count)` has `count` elements, and element `i` is `start + i*spacing` |
| SliderLayout.StepCoordinatesAndSpacing | labeled-range-slider/src/main/java/de/gnarly/compose/ui/slider/LabeledRangeSlider.kt:245-259 | There are exactly `numberOfSteps` coordinates, the first at `barXStart + r`, evenly spaced. The spacing times `(n-1)` is `barWidth - 2r`, and the last coordinate is `barXStart + barWidth - r` |
| SliderLayout.StepCoordinatesIncreasing | labeled-range-slider/src/main/java/de/gnarly/compose/ui/slider/LabeledRangeSlider.kt:245-259 | When `barWidth > 2r` the spacing is positive and the coordinates are strictly increasing |
| SliderLayout.NewLeftCirclePosition | labeled-range-slider/src/main/java/de/gnarly/compose/ui/slider/LabeledRangeSlider.kt:141-151 | y is unchanged. The result is the old handle, pinned to the first step, or inside `[first, right - spacing]`. It preserves `first <= left <= right - spacing`, and never crosses the right handle |
| SliderLayout.NewRightCirclePosition | labeled-range-slider/src/main/java/de/gnarly/compose/ui/slider/LabeledRangeSlider.kt:153-163 | The mirror of the left clamp. It preserves `left + spacing <= right <= last`, and never crosses the left handle |
| SliderLayout.StepDisplayState | labeled-range-slider/src/main/java/de/gnarly/compose/ui/slider/LabeledRangeSlider.kt:207-218 | A step is selected iff a handle is strictly within half a marker radius of it. Otherwise it is out of range iff its centre is left of the left handle or right of the right handle, and in range iff it lies between them. The app's tick paint (MainActivity.kt:303-314) is the same rule |
| SliderLayout.RestingDisplayStates | labeled-range-slider/src/main/java/de/gnarly/compose/ui/slider/LabeledRangeSlider.kt:207-218 | With both handles resting on steps `lo` and `hi` and markers no wider than two spacings, the state depends on indices alone: steps `lo` and `hi` are selected, steps strictly between them are in range, and the rest are out of range |
| SliderLayout.StepLabel | labeled-range-slider/src/main/java/de/gnarly/compose/ui/slider/LabeledRangeSlider.kt:228-234 | A text of at most three characters is drawn as it is; a longer one is cut to its first two characters (the app's label, MainActivity.kt:324-330, is the same rule) |
| SliderLayout.StepLabelIdempotent | labeled-range-slider/src/main/java/de/gnarly/compose/ui/slider/LabeledRangeSlider.kt:228-234 | Labelling a label changes nothing: every label is short enough to be drawn whole |
| LabeledRangeSlider.MoveToClosestStep | labeled-range-slider/src/main/java/de/gnarly/compose/ui/slider/LabeledRangeSlider.kt:314-318 | The handle moves to the nearest step coordinate (the reference index); y is unchanged; no step is closer |
| LabeledRangeSlider.DraggedLeftBelowSnappedRight | labeled-range-slider/src/main/java/de/gnarly/compose/ui/slider/LabeledRangeSlider.kt:277-283 | Dragging the left handle while the flagged right one snaps never puts the left handle past the snapped right one |
| LabeledRangeSlider.SnappedLeftBelowDraggedRight | labeled-range-slider/src/main/java/de/gnarly/compose/ui/slider/LabeledRangeSlider.kt:284-291 | Dragging the right handle while the flagged left one snaps never puts the snapped left handle past the right one |
| LabeledRangeSlider.RangeSlider.constructor | labeled-range-slider/src/main/java/de/gnarly/compose/ui/slider/LabeledRangeSlider.kt:37-73 | Given passing entry checks, the axis is the step axis for the bar, and both handles sit on the steps of the selected bounds at the bar's centre line, unflagged. The invariant holds |
| LabeledRangeSlider.RangeSlider.MoveHandles | labeled-range-slider/src/main/java/de/gnarly/compose/ui/slider/LabeledRangeSlider.kt:275-292 | The strictly closer handle is clamped and flagged, and ties move the right handle. The other handle, if flagged, snaps to its nearest step and is unflagged. Exactly one handle ends flagged, nothing is reported, ordered handles stay ordered, and the invariant holds |
| LabeledRangeSlider.RangeSlider.Release | labeled-range-slider/src/main/java/de/gnarly/compose/ui/slider/LabeledRangeSlider.kt:293-307 | With a handle flagged, it snaps and exactly one report `(lo, hi)` of both nearest indices is logged. With none flagged nothing changes. Both flags are cleared, the state returns to `NoInteraction`, both handles rest on steps, and reported indices are valid step indices. Ordered handles give `lo <= hi` |
| LabeledRangeSlider.RangeSlider.HandleTouch | labeled-range-slider/src/main/java/de/gnarly/compose/ui/slider/LabeledRangeSlider.kt:274-311 | For Move: the strictly closer handle is clamped and flagged (ties move the right one), the other snaps and is unflagged if it was flagged, and nothing is reported. For release: the flagged handle snaps and exactly one report of both nearest indices is logged, ordered when the handles were; with no flag nothing changes. Down and `NoInteraction` change nothing but the stored event. Ordered handles stay ordered |
| LabeledRangeSlider.OneGesture | labeled-range-slider/src/main/java/de/gnarly/compose/ui/slider/LabeledRangeSlider.kt:274-311 | A down, a move and a release, each delivered to `handleTouch`, report exactly once, with the indices of the steps both handles end on, in order when the handles started in order |
| MainActivity.IsCircleTouched | app/src/main/java/de/lex/compose/MainActivity.kt:195-196 | True iff the pointer is strictly less than radius plus tolerance from the handle centre |
| MainActivity.DrawTicks | app/src/main/java/de/lex/compose/MainActivity.kt:295-341 | One tick per value, tick `i` at `r + i*spacing`, spacing times `(n-1)` equal to `width - 2r`, and the last tick at `width - r`. The result is exactly the library's step axis for a bar from 0 to `width` |
| MainActivity.DraggedLeftX | app/src/main/java/de/lex/compose/MainActivity.kt:133-141 | An armed left handle stays, pins to `r`, or lands in `[r/2, right - spacing]`; a handle that started at or beyond `r/2` stays there |
| MainActivity.DraggedRightX | app/src/main/java/de/lex/compose/MainActivity.kt:142-150 | An armed right handle stays, pins to the last tick, or lands in `[left + spacing, last tick]`; it never passes the last tick |
| MainActivity.DraggedHandlesStayOrdered | app/src/main/java/de/lex/compose/MainActivity.kt:132-151 | Dragging both armed handles in one frame keeps them ordered, provided the right handle is at least `r` in |
| MainActivity.CustomSlider.constructor | app/src/main/java/de/lex/compose/MainActivity.kt:69-75 | It needs more than two steps. The left handle starts at `r` (the first tick), the right handle is unset (0), and both are unarmed |
| MainActivity.CustomSlider.PlaceRightHandle | app/src/main/java/de/lex/compose/MainActivity.kt:86-88 | An unset right handle is placed on the last tick, `width - r`; a placed one is left alone |
| MainActivity.CustomSlider.Down | app/src/main/java/de/lex/compose/MainActivity.kt:122-131 | Each flag becomes its old value or the hit test on that handle: both can be armed, and none is cleared |
| MainActivity.CustomSlider.Drag | app/src/main/java/de/lex/compose/MainActivity.kt:132-151 | Each armed handle moves by its drag rule, judged against the frame-start positions; unarmed handles stay. The invariant holds |
| MainActivity.CustomSlider.Release | app/src/main/java/de/lex/compose/MainActivity.kt:152-167 | Each armed handle snaps to its nearest tick. One report `(lo, hi)` of both nearest indices is logged per armed handle, so two when both are armed and none when neither is. Both flags are cleared and both handles rest on ticks |
| MainActivity.CustomSlider.Frame | app/src/main/java/de/lex/compose/MainActivity.kt:84-169 | One draw: place the right handle if unset, compute the ticks, then act on the event. For each of Down, Move, `NoInteraction` and Up it gives the new positions, flags and reports. At most two reports per frame, and the invariant holds |

## Left out

- Drawing (bars, circles, shadows, paints, label placement) and the Compose lifecycle (`remember`, `derive`, `onSizeChanged`). A resize is modelled as running the `RangeSlider` constructor again.
- The pointer pump (`touchInteraction`). Only its event alphabet is kept, as `TouchInteraction`. The order in which events arrive is the caller's.
- LabeledRangeSlider.RangeSlider.HandleTouch: one call models one run of `handleTouch` for one delivered event. The composable calls `handleTouch` from its body, so a recomposition caused by its own state updates runs it again with the same stored Move; a caller models that by repeating `HandleTouch` with the same event, and a second run can move a handle the first run left in place.
- Float rounding: coordinates are exact reals, so the accumulated error of `generateSequence` and of the app's running `tickOffset` is not modelled.
- Dp/px conversion and both `SliderConfiguration` files. Radii, tolerance and width are given parameters; the app's Dp and px are one unit.
- `onCreate`, `Log.i` and the previews.
- `onRangeChanged` receives step values. The model logs the step indices that the values are read from, and the reports are proved to be valid indices.
- LabeledRangeSlider.RangeSlider.constructor: the layout before the first size is known (width 0, so the bar is narrower than two marker radii) is not modelled; the constructor requires a bar wider than two marker radii.
- MainActivity.CustomSlider.constructor: requires a canvas wider than two handle radii, and the width is fixed for the slider's life. A narrower canvas, and a resize after which the remembered handle positions (not keyed on size) no longer rest on ticks, are not modelled.
- LabeledRangeSlider.RangeSlider.MoveHandles: ordering is promised only when the handles were ordered before. The entry checks allow a lower bound whose step lies right of the upper bound's.
- MainActivity.CustomSlider.Frame: the handle order `left <= right` is part of the invariant only when the tick spacing is at least half a handle radius. The left pin threshold is `r/2` while the pin position is `r`, so on denser ticks a dragged left handle can pass the right one.
