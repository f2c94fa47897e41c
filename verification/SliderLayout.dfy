/**
 * The pure part of the library's LabeledRangeSlider: the entry checks, the
 * step axis, the two handle clamps, the per-step display state and the step
 * label.
 */
module SliderLayout {
  import opened Geometry

  datatype Result<T, E> = Ok(value: T) | Err(error: E)

  /** The three `require` checks made on entry, in the order they are made. */
  datatype ConfigError = TooFewSteps | LowerBoundNotAStep | UpperBoundNotAStep

  /** `List.indexOf`: the first position of `v`, or -1 when it is absent. */
  function IndexOf<T(==)>(s: seq<T>, v: T): (i: int)
    ensures -1 <= i < |s|
    ensures i == -1 <==> v !in s
    ensures 0 <= i ==> s[i] == v && forall j :: 0 <= j < i ==> s[j] != v
  {
    if |s| == 0 then -1
    else if s[0] == v then 0
    else
      var k := IndexOf(s[1..], v);
      assert forall j :: 0 < j < |s| ==> s[j] == s[1..][j - 1];
      if k == -1 then -1 else k + 1
  }

  /**
   * The entry checks: more than two steps, and both selected bounds among
   * them. On success, the step indices the two handles start at.
   */
  function CheckConfiguration<T(==)>(steps: seq<T>, lower: T, upper: T): (r: Result<(nat, nat), ConfigError>)
    ensures r.Ok? <==> |steps| > 2 && lower in steps && upper in steps
    ensures r == Err(TooFewSteps) <==> |steps| <= 2
    ensures r == Err(LowerBoundNotAStep) <==> |steps| > 2 && lower !in steps
    ensures r == Err(UpperBoundNotAStep) <==> |steps| > 2 && lower in steps && upper !in steps
    ensures r.Ok? ==> (r.value.0 < |steps| && steps[r.value.0] == lower
                       && forall j :: 0 <= j < r.value.0 ==> steps[j] != lower)
    ensures r.Ok? ==> (r.value.1 < |steps| && steps[r.value.1] == upper
                       && forall j :: 0 <= j < r.value.1 ==> steps[j] != upper)
  {
    if |steps| <= 2 then Err(TooFewSteps)
    else if lower !in steps then Err(LowerBoundNotAStep)
    else if upper !in steps then Err(UpperBoundNotAStep)
    else Ok((IndexOf(steps, lower), IndexOf(steps, upper)))
  }

  /** `generateSequence(start) { it + spacing }.take(count)`. */
  function GenerateSequence(start: real, spacing: real, count: nat): (r: seq<real>)
    ensures |r| == count
    ensures forall i :: 0 <= i < count ==> r[i] == start + (i as real) * spacing
    decreases count
  {
    if count == 0 then []
    else
      var rest := GenerateSequence(start + spacing, spacing, count - 1);
      assert forall j :: 0 <= j < count - 1 ==> rest[j] == start + ((j + 1) as real) * spacing by {
        forall j | 0 <= j < count - 1
          ensures rest[j] == start + ((j + 1) as real) * spacing
        {
          assert ((j + 1) as real) * spacing == (j as real) * spacing + spacing;
        }
      }
      [start] + rest
  }

  /**
   * The step axis: `numberOfSteps` marker centres spread evenly over the bar,
   * the first one marker radius in from the bar's start, and their spacing.
   */
  function StepCoordinatesAndSpacing(numberOfSteps: nat, barXStart: real, barWidth: real, stepMarkerRadius: real)
    : (r: (seq<real>, real))
    requires numberOfSteps >= 2
    ensures |r.0| == numberOfSteps
    ensures r.0[0] == barXStart + stepMarkerRadius
    ensures Uniform(r.0, r.1)
    ensures r.1 * ((numberOfSteps - 1) as real) == barWidth - 2.0 * stepMarkerRadius
    ensures r.0[numberOfSteps - 1] == barXStart + barWidth - stepMarkerRadius
  {
    var stepOffset := barXStart + stepMarkerRadius;
    var stepSpacing := (barWidth - 2.0 * stepMarkerRadius) / ((numberOfSteps - 1) as real);
    var coordinates := GenerateSequence(stepOffset, stepSpacing, numberOfSteps);
    assert coordinates[numberOfSteps - 1] == stepOffset + ((numberOfSteps - 1) as real) * stepSpacing;
    (coordinates, stepSpacing)
  }

  /** A bar wider than two marker radii gives strictly increasing step coordinates. */
  lemma StepCoordinatesIncreasing(numberOfSteps: nat, barXStart: real, barWidth: real, stepMarkerRadius: real)
    requires numberOfSteps >= 2
    requires barWidth > 2.0 * stepMarkerRadius
    ensures StepCoordinatesAndSpacing(numberOfSteps, barXStart, barWidth, stepMarkerRadius).1 > 0.0
    ensures Increasing(StepCoordinatesAndSpacing(numberOfSteps, barXStart, barWidth, stepMarkerRadius).0)
  {
    var r := StepCoordinatesAndSpacing(numberOfSteps, barXStart, barWidth, stepMarkerRadius);
    var n := (numberOfSteps - 1) as real;
    assert n > 0.0;
    assert r.1 == (barWidth - 2.0 * stepMarkerRadius) / n;
    UniformIncreasing(r.0, r.1);
  }

  /**
   * Where a dragged left handle may go: pinned to the first step when the
   * pointer is left of it, kept in place when the pointer comes within one
   * step of the right handle, and otherwise following the pointer.
   */
  function NewLeftCirclePosition(touchX: real, left: Offset, right: Offset, stepSpacing: real, firstStepX: real)
    : (r: Offset)
    ensures r.y == left.y
    ensures r == left || r.x == firstStepX || firstStepX <= r.x <= right.x - stepSpacing
    ensures firstStepX <= left.x <= right.x - stepSpacing ==> firstStepX <= r.x <= right.x - stepSpacing
    ensures firstStepX <= left.x <= right.x && 0.0 <= stepSpacing ==> firstStepX <= r.x <= right.x
  {
    if touchX < firstStepX then left.(x := firstStepX)
    else if touchX > right.x - stepSpacing then left
    else left.(x := touchX)
  }

  /** The mirror image of NewLeftCirclePosition for the right handle. */
  function NewRightCirclePosition(touchX: real, left: Offset, right: Offset, stepSpacing: real, lastStepX: real)
    : (r: Offset)
    ensures r.y == right.y
    ensures r == right || r.x == lastStepX || left.x + stepSpacing <= r.x <= lastStepX
    ensures left.x + stepSpacing <= right.x <= lastStepX ==> left.x + stepSpacing <= r.x <= lastStepX
    ensures left.x <= right.x <= lastStepX && 0.0 <= stepSpacing ==> left.x <= r.x <= lastStepX
  {
    if touchX > lastStepX then right.(x := lastStepX)
    else if touchX < left.x + stepSpacing then right
    else right.(x := touchX)
  }

  /** How a step marker's label is painted. */
  datatype StepDisplay = Selected | InRange | OutOfRange

  /**
   * The paint chosen for the step whose marker is centred at `centerX`:
   * selected when a handle sits on the marker (within half a marker radius),
   * otherwise in range or out of range relative to the two handles.
   */
  function StepDisplayState(centerX: real, left: Offset, right: Offset, stepMarkerRadius: real): (d: StepDisplay)
    ensures d == Selected <==>
              Dist(left.x, centerX) < stepMarkerRadius / 2.0 || Dist(right.x, centerX) < stepMarkerRadius / 2.0
    ensures d == OutOfRange <==>
              && stepMarkerRadius / 2.0 <= Dist(left.x, centerX) && stepMarkerRadius / 2.0 <= Dist(right.x, centerX)
              && (centerX < left.x || right.x < centerX)
    ensures d == InRange <==>
              && stepMarkerRadius / 2.0 <= Dist(left.x, centerX) && stepMarkerRadius / 2.0 <= Dist(right.x, centerX)
              && left.x <= centerX <= right.x
  {
    var selectedByLeft :=
      left.x > centerX - stepMarkerRadius / 2.0 && left.x < centerX + stepMarkerRadius / 2.0;
    var selectedByRight :=
      right.x > centerX - stepMarkerRadius / 2.0 && right.x < centerX + stepMarkerRadius / 2.0;
    if selectedByLeft || selectedByRight then Selected
    else if centerX < left.x || centerX > right.x then OutOfRange
    else InRange
  }

  /**
   * With both handles resting on steps `lo` and `hi`, and markers no wider
   * than two spacings, the display state depends on indices alone: the two
   * handle steps are selected, the steps strictly between them in range, and
   * the rest out of range.
   */
  lemma RestingDisplayStates(coords: seq<real>, spacing: real, stepMarkerRadius: real,
                             lo: nat, hi: nat, i: nat, leftY: real, rightY: real)
    requires Uniform(coords, spacing) && spacing > 0.0
    requires 0.0 < stepMarkerRadius <= 2.0 * spacing
    requires lo < |coords| && hi < |coords| && i < |coords|
    ensures StepDisplayState(coords[i], Offset(coords[lo], leftY), Offset(coords[hi], rightY), stepMarkerRadius)
         == if i == lo || i == hi then Selected
            else if i < lo || hi < i then OutOfRange
            else InRange
  {
    UniformIncreasing(coords, spacing);
    if i < lo { UniformGap(coords, spacing, i, lo); }
    if lo < i { UniformGap(coords, spacing, lo, i); }
    if i < hi { UniformGap(coords, spacing, i, hi); }
    if hi < i { UniformGap(coords, spacing, hi, i); }
  }

  /** The label drawn under a step: texts longer than three characters are cut to their first two. */
  function StepLabel(text: string): (shown: string)
    ensures |shown| <= 3
    ensures shown <= text
    ensures shown == text <==> |text| <= 3
    ensures |text| > 3 ==> shown == text[..2]
  {
    if |text| > 3 then text[..2] else text
  }

  /** A label is already short enough to be drawn as it is. */
  lemma StepLabelIdempotent(text: string)
    ensures StepLabel(StepLabel(text)) == StepLabel(text)
  {
  }
}
