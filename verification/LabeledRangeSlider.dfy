/**
 * The gesture state of the library's LabeledRangeSlider: the remembered
 * handle positions and `moveLeft`/`moveRight` flags, updated by `handleTouch`
 * on every pointer event, with `onRangeIdxChanged` calls recorded in order.
 */
module LabeledRangeSlider {
  import opened Geometry
  import opened Nearest
  import opened SliderLayout

  /** `moveToClosestStep`: the handle moved onto the step coordinate nearest to it. */
  method MoveToClosestStep(circle: Offset, stepXCoordinates: seq<real>) returns (r: Offset)
    requires |stepXCoordinates| > 0
    ensures r.y == circle.y
    ensures r.x == stepXCoordinates[ClosestIndex(stepXCoordinates, circle.x)]
    ensures forall c :: c in stepXCoordinates ==> Dist(r.x, circle.x) <= Dist(c, circle.x)
  {
    var closestValue, _ := GetClosestNumber(stepXCoordinates, circle.x);
    r := circle.(x := closestValue);
  }

  /**
   * Dragging the left handle (resting on a step, at or left of the right
   * handle) while the right handle snaps to its nearest step never puts the
   * left handle past the snapped right one.
   */
  lemma DraggedLeftBelowSnappedRight(coords: seq<real>, spacing: real, left: Offset, right: Offset, touchX: real)
    requires Uniform(coords, spacing) && spacing > 0.0 && |coords| > 0
    requires left.x in coords && left.x <= right.x
    requires coords[0] <= right.x <= coords[|coords| - 1]
    ensures NewLeftCirclePosition(touchX, left, right, spacing, coords[0]).x <= coords[ClosestIndex(coords, right.x)]
  {
    var k := ClosestIndex(coords, right.x);
    if touchX < coords[0] {
      UniformWithin(coords, spacing, k);
    } else if touchX > right.x - spacing {
      SnapResting(coords, spacing, left.x);
      SnapOrdered(coords, spacing, left.x, right.x);
    } else {
      ClosestWithinHalfSpacing(coords, spacing, right.x);
    }
  }

  /** The mirror image of DraggedLeftBelowSnappedRight. */
  lemma SnappedLeftBelowDraggedRight(coords: seq<real>, spacing: real, left: Offset, right: Offset, touchX: real)
    requires Uniform(coords, spacing) && spacing > 0.0 && |coords| > 0
    requires right.x in coords && left.x <= right.x
    requires coords[0] <= left.x <= coords[|coords| - 1]
    ensures coords[ClosestIndex(coords, left.x)] <= NewRightCirclePosition(touchX, left, right, spacing, coords[|coords| - 1]).x
  {
    var k := ClosestIndex(coords, left.x);
    if touchX > coords[|coords| - 1] {
      UniformWithin(coords, spacing, k);
    } else if touchX < left.x + spacing {
      SnapResting(coords, spacing, right.x);
      SnapOrdered(coords, spacing, left.x, right.x);
    } else {
      ClosestWithinHalfSpacing(coords, spacing, left.x);
    }
  }

  class RangeSlider<T(==)> {
    /** The step values, and the x-coordinates and spacing of their markers. */
    const steps: seq<T>
    const coords: seq<real>
    const spacing: real

    /** `leftCirclePosition`, `rightCirclePosition`, `moveLeft`, `moveRight`. */
    var left: Offset
    var right: Offset
    var moveLeft: bool
    var moveRight: bool

    /** `touchInteractionState`: the last event delivered. */
    var touch: TouchInteraction

    /** Every `onRangeIdxChanged(lowerIdx, upperIdx)` call so far, in order. */
    ghost var reported: seq<(nat, nat)>

    /**
     * The gesture invariant: both handles within the step axis, at most one
     * handle being dragged, a handle not being dragged rests on a step, and
     * every reported index names a step.
     */
    ghost predicate Valid()
      reads this
    {
      && |coords| == |steps| > 2
      && spacing > 0.0
      && Uniform(coords, spacing)
      && coords[0] <= left.x <= coords[|coords| - 1]
      && coords[0] <= right.x <= coords[|coords| - 1]
      && !(moveLeft && moveRight)
      && (!moveLeft ==> left.x in coords)
      && (!moveRight ==> right.x in coords)
      && forall k :: 0 <= k < |reported| ==> reported[k].0 < |steps| && reported[k].1 < |steps|
    }

    /**
     * Layout of a slider of the given width: the step axis, and both handles
     * on the steps of the selected bounds, at the bar's vertical centre.
     * A resize runs this again with the committed bounds.
     */
    constructor (steps: seq<T>, lower: T, upper: T,
                 barXStart: real, barWidth: real, stepMarkerRadius: real, barYCenter: real)
      requires CheckConfiguration(steps, lower, upper).Ok?
      requires barWidth > 2.0 * stepMarkerRadius
      ensures Valid()
      ensures this.steps == steps
      ensures (coords, spacing) == StepCoordinatesAndSpacing(|steps|, barXStart, barWidth, stepMarkerRadius)
      ensures left == Offset(coords[CheckConfiguration(steps, lower, upper).value.0], barYCenter)
      ensures right == Offset(coords[CheckConfiguration(steps, lower, upper).value.1], barYCenter)
      ensures !moveLeft && !moveRight && touch == NoInteraction && reported == []
    {
      var axis := StepCoordinatesAndSpacing(|steps|, barXStart, barWidth, stepMarkerRadius);
      StepCoordinatesIncreasing(|steps|, barXStart, barWidth, stepMarkerRadius);
      var bounds := CheckConfiguration(steps, lower, upper).value;
      this.steps := steps;
      coords := axis.0;
      spacing := axis.1;
      left := Offset(axis.0[bounds.0], barYCenter);
      right := Offset(axis.0[bounds.1], barYCenter);
      moveLeft := false;
      moveRight := false;
      touch := NoInteraction;
      reported := [];
    }

    /**
     * A Move event at `touchX`. The handle strictly closer to the pointer is
     * clamped towards it and flagged (equal distances go to the right
     * handle); the other handle, if it was flagged, snaps to its nearest
     * step and is unflagged.
     */
    method MoveHandles(touchX: real)
      requires Valid()
      modifies this
      ensures Valid()
      ensures touch == old(touch) && reported == old(reported)
      ensures Dist(touchX, old(left.x)) < Dist(touchX, old(right.x)) ==>
        && left == NewLeftCirclePosition(touchX, old(left), old(right), spacing, coords[0])
        && right == (if old(moveRight) then old(right).(x := coords[ClosestIndex(coords, old(right.x))])
                     else old(right))
        && moveLeft && !moveRight
      ensures Dist(touchX, old(right.x)) <= Dist(touchX, old(left.x)) ==>
        && right == NewRightCirclePosition(touchX, old(left), old(right), spacing, coords[|coords| - 1])
        && left == (if old(moveLeft) then old(left).(x := coords[ClosestIndex(coords, old(left.x))])
                    else old(left))
        && moveRight && !moveLeft
      ensures old(left.x <= right.x) ==> left.x <= right.x
    {
      var oldLeft, oldRight := left, right;
      UniformWithin(coords, spacing, |coords| - 1);
      if Dist(touchX, left.x) < Dist(touchX, right.x) {
        left := NewLeftCirclePosition(touchX, oldLeft, oldRight, spacing, coords[0]);
        moveLeft := true;
        if moveRight {
          right := MoveToClosestStep(oldRight, coords);
          moveRight := false;
          UniformWithin(coords, spacing, ClosestIndex(coords, oldRight.x));
          if oldLeft.x <= oldRight.x {
            DraggedLeftBelowSnappedRight(coords, spacing, oldLeft, oldRight, touchX);
          }
        }
      } else {
        right := NewRightCirclePosition(touchX, oldLeft, oldRight, spacing, coords[|coords| - 1]);
        moveRight := true;
        if moveLeft {
          left := MoveToClosestStep(oldLeft, coords);
          moveLeft := false;
          UniformWithin(coords, spacing, ClosestIndex(coords, oldLeft.x));
          if oldLeft.x <= oldRight.x {
            SnappedLeftBelowDraggedRight(coords, spacing, oldLeft, oldRight, touchX);
          }
        }
      }
    }

    /**
     * The release event. The flagged handle (left first) snaps to its nearest
     * step and is unflagged, and `onRangeIdxChanged` is called once with the
     * nearest step indices of both handles; with no handle flagged nothing is
     * reported. The interaction state returns to NoInteraction.
     */
    method Release()
      requires Valid()
      modifies this
      ensures Valid()
      ensures touch == NoInteraction && !moveLeft && !moveRight
      ensures left.x in coords && right.x in coords
      ensures var lo, hi := ClosestIndex(coords, old(left.x)), ClosestIndex(coords, old(right.x));
        if old(moveLeft) || old(moveRight) then
          && reported == old(reported) + [(lo, hi)]
          && left == old(left).(x := coords[lo])
          && right == old(right).(x := coords[hi])
        else
          reported == old(reported) && left == old(left) && right == old(right)
      ensures old(left.x <= right.x) ==> left.x <= right.x
      ensures old(left.x <= right.x) && old(moveLeft || moveRight) ==>
                reported[|reported| - 1].0 <= reported[|reported| - 1].1
    {
      ghost var oldLeft, oldRight := left, right;
      var closestLeftValue, closestLeftIndex := GetClosestNumber(coords, left.x);
      var closestRightValue, closestRightIndex := GetClosestNumber(coords, right.x);
      UniformWithin(coords, spacing, closestLeftIndex);
      UniformWithin(coords, spacing, closestRightIndex);
      if oldLeft.x <= oldRight.x {
        SnapOrdered(coords, spacing, oldLeft.x, oldRight.x);
      }
      if moveLeft {
        SnapResting(coords, spacing, right.x);
        left := left.(x := closestLeftValue);
        moveLeft := false;
        reported := reported + [(closestLeftIndex, closestRightIndex)];
      } else if moveRight {
        SnapResting(coords, spacing, left.x);
        right := right.(x := closestRightValue);
        moveRight := false;
        reported := reported + [(closestLeftIndex, closestRightIndex)];
      }
      touch := NoInteraction;
    }

    /**
     * `handleTouch` for one delivered event: Move drags a handle, the release
     * event snaps and reports, anything else leaves the handles alone.
     */
    method HandleTouch(event: TouchInteraction)
      requires Valid()
      modifies this
      ensures Valid()
      ensures |reported| <= old(|reported|) + 1
      ensures old(left.x <= right.x) ==> left.x <= right.x
      ensures event.Move? ==> touch == event && reported == old(reported) && (moveLeft != moveRight)
      ensures event.Move? && Dist(event.position.x, old(left.x)) < Dist(event.position.x, old(right.x)) ==>
        && left == NewLeftCirclePosition(event.position.x, old(left), old(right), spacing, coords[0])
        && right == (if old(moveRight) then old(right).(x := coords[ClosestIndex(coords, old(right.x))])
                     else old(right))
        && moveLeft && !moveRight
      ensures event.Move? && Dist(event.position.x, old(right.x)) <= Dist(event.position.x, old(left.x)) ==>
        && right == NewRightCirclePosition(event.position.x, old(left), old(right), spacing, coords[|coords| - 1])
        && left == (if old(moveLeft) then old(left).(x := coords[ClosestIndex(coords, old(left.x))])
                    else old(left))
        && moveRight && !moveLeft
      ensures event.Up? ==>
        && touch == NoInteraction && !moveLeft && !moveRight
        && left.x in coords && right.x in coords
        && (|reported| == old(|reported|) + 1 <==> old(moveLeft || moveRight))
      ensures event.Up? ==>
        var lo, hi := ClosestIndex(coords, old(left.x)), ClosestIndex(coords, old(right.x));
        if old(moveLeft) || old(moveRight) then
          && reported == old(reported) + [(lo, hi)]
          && left == old(left).(x := coords[lo])
          && right == old(right).(x := coords[hi])
        else
          reported == old(reported) && left == old(left) && right == old(right)
      ensures event.Up? && old(left.x <= right.x) && old(moveLeft || moveRight) ==>
        reported[|reported| - 1].0 <= reported[|reported| - 1].1
      ensures (event.Down? || event.NoInteraction?) ==>
        && touch == event && reported == old(reported)
        && left == old(left) && right == old(right)
        && moveLeft == old(moveLeft) && moveRight == old(moveRight)
    {
      touch := event;
      match event {
        case Move(position) => MoveHandles(position.x);
        case Up(_) => Release();
        case _ =>
      }
    }
  }

  /**
   * One complete gesture, touch down, one move and release, leaves both
   * handles resting on steps and reports exactly once, with the indices of
   * the steps the handles rest on.
   */
  method OneGesture<T(==)>(slider: RangeSlider<T>, down: Offset, moveTo: Offset, up: Offset)
    requires slider.Valid()
    modifies slider
    ensures slider.Valid()
    ensures |slider.reported| == old(|slider.reported|) + 1
    ensures var (lo, hi) := slider.reported[|slider.reported| - 1];
      slider.left.x == slider.coords[lo] && slider.right.x == slider.coords[hi]
    ensures old(slider.left.x <= slider.right.x) ==>
      slider.reported[|slider.reported| - 1].0 <= slider.reported[|slider.reported| - 1].1
  {
    slider.HandleTouch(Down(down));
    slider.HandleTouch(Move(moveTo));
    slider.HandleTouch(Up(up));
  }
}
