/**
 * The app's own draft slider, CustomSlider: a different gesture policy in
 * which touch-down arms every handle whose hit zone contains the pointer,
 * and release reports once per armed handle. Its state is updated from the
 * canvas draw block, once per frame, according to the current event.
 */
module MainActivity {
  import opened Geometry
  import opened Nearest
  import opened SliderLayout

  /** `isCircleTouched`: the pointer is strictly within radius plus tolerance of the handle centre. */
  function IsCircleTouched(touchX: real, circleX: real, circleRadius: real, touchTolerance: real): (touched: bool)
    ensures touched <==> Dist(touchX, circleX) < circleRadius + touchTolerance
  {
    touchX > circleX - circleRadius - touchTolerance && touchX < circleX + circleRadius + touchTolerance
  }

  /**
   * The coordinate loop of `drawTicks`: one tick per value, the first one
   * handle radius in from the left edge, each next one `tickSpacing` further,
   * so that the last one is one handle radius in from the right edge.
   */
  method DrawTicks<T>(tickValues: seq<T>, width: real, touchCircleRadius: real)
    returns (ticks: seq<real>, tickSpacing: real)
    requires |tickValues| >= 2
    ensures |ticks| == |tickValues|
    ensures tickSpacing * ((|tickValues| - 1) as real) == width - 2.0 * touchCircleRadius
    ensures forall i :: 0 <= i < |ticks| ==> ticks[i] == touchCircleRadius + (i as real) * tickSpacing
    ensures ticks[|ticks| - 1] == width - touchCircleRadius
    ensures (ticks, tickSpacing) == StepCoordinatesAndSpacing(|tickValues|, 0.0, width, touchCircleRadius)
  {
    var tickOffset := touchCircleRadius;
    tickSpacing := (width - 2.0 * touchCircleRadius) / ((|tickValues| - 1) as real);
    ticks := [];
    for i := 0 to |tickValues|
      invariant |ticks| == i
      invariant tickOffset == touchCircleRadius + (i as real) * tickSpacing
      invariant forall j :: 0 <= j < i ==> ticks[j] == touchCircleRadius + (j as real) * tickSpacing
    {
      ticks := ticks + [tickOffset];
      assert ((i + 1) as real) * tickSpacing == (i as real) * tickSpacing + tickSpacing;
      tickOffset := tickOffset + tickSpacing;
    }
    var axis := StepCoordinatesAndSpacing(|tickValues|, 0.0, width, touchCircleRadius);
    assert axis.1 == tickSpacing;
    forall i | 0 <= i < |ticks|
      ensures axis.0[i] == ticks[i]
    {
      assert axis.0[i] == axis.0[0] + (i as real) * axis.1;
    }
    assert axis.0 == ticks;
  }

  /**
   * Where an armed left handle goes on a move: to the first tick when the
   * pointer is left of half a handle radius, nowhere when the pointer is
   * within one tick of the right handle, and to the pointer otherwise.
   */
  function DraggedLeftX(pointerX: real, leftX: real, rightX: real, tickSpacing: real, touchCircleRadius: real)
    : (x: real)
    ensures x == leftX || x == touchCircleRadius || touchCircleRadius / 2.0 <= x <= rightX - tickSpacing
    ensures touchCircleRadius / 2.0 <= leftX && 0.0 < touchCircleRadius ==> touchCircleRadius / 2.0 <= x
  {
    if pointerX < touchCircleRadius / 2.0 then touchCircleRadius
    else if pointerX > rightX - tickSpacing then leftX
    else pointerX
  }

  /**
   * Where an armed right handle goes on a move: to the last tick when the
   * pointer is right of it, nowhere when the pointer is within one tick of
   * the left handle, and to the pointer otherwise.
   */
  function DraggedRightX(pointerX: real, leftX: real, rightX: real, tickSpacing: real, lastTickX: real)
    : (x: real)
    ensures x == rightX || x == lastTickX || leftX + tickSpacing <= x <= lastTickX
    ensures rightX <= lastTickX ==> x <= lastTickX
  {
    if pointerX > lastTickX then lastTickX
    else if pointerX < leftX + tickSpacing then rightX
    else pointerX
  }

  /**
   * Dragging both armed handles in one frame keeps them ordered, provided
   * the left handle is at least half a handle radius in and the right handle
   * at least one handle radius in: the left pin position then never passes it.
   */
  lemma DraggedHandlesStayOrdered(pointerX: real, leftX: real, rightX: real, tickSpacing: real,
                                  touchCircleRadius: real, lastTickX: real)
    requires 0.0 <= tickSpacing
    requires touchCircleRadius / 2.0 <= leftX <= rightX
    requires touchCircleRadius <= rightX <= lastTickX
    ensures DraggedLeftX(pointerX, leftX, rightX, tickSpacing, touchCircleRadius)
         <= DraggedRightX(pointerX, leftX, rightX, tickSpacing, lastTickX)
  {
  }

  class CustomSlider<T> {
    /** The step values and the slider's fixed geometry. */
    const steps: seq<T>
    const width: real
    const touchCircleRadius: real
    const touchTolerance: real

    /** `leftXPosition`, `rightXPosition` (0 until the first frame), `moveLeft`, `moveRight`. */
    var leftX: real
    var rightX: real
    var moveLeft: bool
    var moveRight: bool

    /** Every `onRangeChanged` call so far, as the pair of step indices passed. */
    ghost var reported: seq<(nat, nat)>

    /** The tick coordinates `drawTicks` computes on every frame. */
    ghost function Ticks(): seq<real>
      requires |steps| >= 2
    {
      StepCoordinatesAndSpacing(|steps|, 0.0, width, touchCircleRadius).0
    }

    ghost function TickSpacing(): real
      requires |steps| >= 2
    {
      StepCoordinatesAndSpacing(|steps|, 0.0, width, touchCircleRadius).1
    }

    /** Ticks at least half a handle radius apart: the handles then keep their order. */
    ghost predicate Roomy()
      requires |steps| >= 2
    {
      TickSpacing() >= touchCircleRadius / 2.0
    }

    /**
     * The frame invariant: the geometry is sane, the left handle lies between
     * half a handle radius and the last tick, and, once the first frame has
     * placed it, so does the right handle; an unarmed handle rests on a tick;
     * on roomy ticks the handles are ordered; every report names two steps.
     */
    ghost predicate Valid()
      reads this
    {
      && |steps| > 2
      && 0.0 < touchCircleRadius && 2.0 * touchCircleRadius < width
      && touchCircleRadius / 2.0 <= leftX <= width - touchCircleRadius
      && (!moveLeft ==> leftX in Ticks())
      && (rightX != 0.0 ==>
            && touchCircleRadius / 2.0 <= rightX <= width - touchCircleRadius
            && (!moveRight ==> rightX in Ticks())
            && (Roomy() ==> leftX <= rightX && touchCircleRadius <= rightX))
      && (rightX == 0.0 ==> !moveRight)
      && forall k :: 0 <= k < |reported| ==> reported[k].0 < |steps| && reported[k].1 < |steps|
    }

    /** The remembered state before the first frame: left handle on the first tick, right handle unset. */
    constructor (steps: seq<T>, width: real, touchCircleRadius: real, touchTolerance: real)
      requires |steps| > 2
      requires 0.0 < touchCircleRadius && 2.0 * touchCircleRadius < width
      ensures Valid()
      ensures this.steps == steps && this.width == width
      ensures this.touchCircleRadius == touchCircleRadius && this.touchTolerance == touchTolerance
      ensures leftX == touchCircleRadius && rightX == 0.0
      ensures !moveLeft && !moveRight && reported == []
    {
      this.steps := steps;
      this.width := width;
      this.touchCircleRadius := touchCircleRadius;
      this.touchTolerance := touchTolerance;
      leftX := touchCircleRadius;
      rightX := 0.0;
      moveLeft := false;
      moveRight := false;
      reported := [];
      new;
      assert Ticks()[0] == touchCircleRadius;
    }

    /** The first frame puts the right handle on the last tick. */
    method PlaceRightHandle()
      requires Valid()
      modifies this`rightX
      ensures Valid() && rightX != 0.0
      ensures rightX == if old(rightX) == 0.0 then width - touchCircleRadius else old(rightX)
    {
      if rightX == 0.0 {
        rightX := width - touchCircleRadius;
        StepCoordinatesIncreasing(|steps|, 0.0, width, touchCircleRadius);
        assert Ticks()[|steps| - 1] == rightX;
      }
    }

    /** Touch-down arms each handle whose hit zone holds the pointer; it never disarms one. */
    method Down(touchX: real)
      requires Valid() && rightX != 0.0
      modifies this`moveLeft, this`moveRight
      ensures Valid()
      ensures moveLeft == (old(moveLeft) || IsCircleTouched(touchX, leftX, touchCircleRadius, touchTolerance))
      ensures moveRight == (old(moveRight) || IsCircleTouched(touchX, rightX, touchCircleRadius, touchTolerance))
    {
      if IsCircleTouched(touchX, leftX, touchCircleRadius, touchTolerance) {
        moveLeft := true;
      }
      if IsCircleTouched(touchX, rightX, touchCircleRadius, touchTolerance) {
        moveRight := true;
      }
    }

    /**
     * A move drags every armed handle; both handles are judged against the
     * positions at the start of the frame.
     */
    method Drag(pointerX: real, tickSpacing: real)
      requires Valid() && rightX != 0.0
      requires tickSpacing == TickSpacing()
      modifies this`leftX, this`rightX
      ensures Valid() && rightX != 0.0
      ensures leftX == if moveLeft then DraggedLeftX(pointerX, old(leftX), old(rightX), tickSpacing, touchCircleRadius)
                       else old(leftX)
      ensures rightX == if moveRight then DraggedRightX(pointerX, old(leftX), old(rightX), tickSpacing, width - touchCircleRadius)
                        else old(rightX)
    {
      StepCoordinatesIncreasing(|steps|, 0.0, width, touchCircleRadius);
      var leftPosition, rightPosition := leftX, rightX;
      if moveLeft {
        leftX := DraggedLeftX(pointerX, leftPosition, rightPosition, tickSpacing, touchCircleRadius);
      }
      if moveRight {
        rightX := DraggedRightX(pointerX, leftPosition, rightPosition, tickSpacing, width - touchCircleRadius);
      }
    }

    /**
     * Release (no interaction): every armed handle snaps to its nearest tick
     * and `onRangeChanged` is called once per armed handle, each time with
     * the nearest tick indices of both handles as they were; then both
     * handles are disarmed.
     */
    method Release(ticks: seq<real>)
      requires Valid() && rightX != 0.0
      requires ticks == Ticks()
      modifies this`leftX, this`rightX, this`moveLeft, this`moveRight, this`reported
      ensures Valid() && rightX != 0.0
      ensures !moveLeft && !moveRight
      ensures leftX in ticks && rightX in ticks
      ensures var lo, hi := ClosestIndex(ticks, old(leftX)), ClosestIndex(ticks, old(rightX));
        && leftX == (if old(moveLeft) then ticks[lo] else old(leftX))
        && rightX == (if old(moveRight) then ticks[hi] else old(rightX))
        && reported == old(reported) + (if old(moveLeft) then [(lo, hi)] else [])
                                     + (if old(moveRight) then [(lo, hi)] else [])
    {
      ghost var oldLeft, oldRight := leftX, rightX;
      var closestLeftValue, closestLeftIndex := GetClosestNumber(ticks, leftX);
      var closestRightValue, closestRightIndex := GetClosestNumber(ticks, rightX);
      StepCoordinatesIncreasing(|steps|, 0.0, width, touchCircleRadius);
      UniformWithin(ticks, TickSpacing(), closestLeftIndex);
      UniformWithin(ticks, TickSpacing(), closestRightIndex);
      if Roomy() {
        SnapOrdered(ticks, TickSpacing(), oldLeft, oldRight);
        if !moveLeft { SnapResting(ticks, TickSpacing(), oldLeft); }
        if !moveRight { SnapResting(ticks, TickSpacing(), oldRight); }
      }
      if moveLeft {
        leftX := closestLeftValue;
        reported := reported + [(closestLeftIndex, closestRightIndex)];
      }
      if moveRight {
        rightX := closestRightValue;
        reported := reported + [(closestLeftIndex, closestRightIndex)];
      }
      moveLeft := false;
      moveRight := false;
    }

    /**
     * One frame of the canvas draw block: place the right handle if unset,
     * compute the ticks, then act on the current event.
     */
    method Frame(state: TouchInteraction)
      requires Valid()
      modifies this
      ensures Valid() && rightX != 0.0
      ensures |reported| <= old(|reported|) + 2
      ensures var startRight := if old(rightX) == 0.0 then width - touchCircleRadius else old(rightX);
        match state
        case Down(p) =>
          && leftX == old(leftX) && rightX == startRight && reported == old(reported)
          && moveLeft == (old(moveLeft) || IsCircleTouched(p.x, old(leftX), touchCircleRadius, touchTolerance))
          && moveRight == (old(moveRight) || IsCircleTouched(p.x, startRight, touchCircleRadius, touchTolerance))
        case Move(p) =>
          && moveLeft == old(moveLeft) && moveRight == old(moveRight) && reported == old(reported)
          && leftX == (if moveLeft then DraggedLeftX(p.x, old(leftX), startRight, TickSpacing(), touchCircleRadius)
                       else old(leftX))
          && rightX == (if moveRight then DraggedRightX(p.x, old(leftX), startRight, TickSpacing(), width - touchCircleRadius)
                        else startRight)
        case NoInteraction =>
          var lo, hi := ClosestIndex(Ticks(), old(leftX)), ClosestIndex(Ticks(), startRight);
          && !moveLeft && !moveRight
          && leftX == (if old(moveLeft) then Ticks()[lo] else old(leftX))
          && rightX == (if old(moveRight) then Ticks()[hi] else startRight)
          && reported == old(reported) + (if old(moveLeft) then [(lo, hi)] else [])
                                       + (if old(moveRight) then [(lo, hi)] else [])
        case Up(_) =>
          && leftX == old(leftX) && rightX == startRight && reported == old(reported)
          && moveLeft == old(moveLeft) && moveRight == old(moveRight)
      ensures state.NoInteraction? ==> leftX in Ticks() && rightX in Ticks()
    {
      PlaceRightHandle();
      var ticks, tickSpacing := DrawTicks(steps, width, touchCircleRadius);
      match state {
        case Down(position) => Down(position.x);
        case Move(position) => Drag(position.x, tickSpacing);
        case NoInteraction => Release(ticks);
        case Up(_) =>
      }
    }
  }
}
