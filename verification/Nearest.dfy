/**
 * Nearest-step lookup, `getClosestNumber`. The library and the app carry the
 * same private copy of this scan, so it is modelled once here.
 */
module Nearest {
  import opened Geometry

  /**
   * `k` is the answer the scan must give for `x`: a valid index of an element
   * at minimal distance from `x`, with every earlier element strictly farther
   * (equal distances resolve to the lowest index).
   */
  ghost predicate IsClosest(s: seq<real>, x: real, k: int)
  {
    && 0 <= k < |s|
    && (forall j :: 0 <= j < |s| ==> Dist(s[k], x) <= Dist(s[j], x))
    && (forall j :: 0 <= j < k ==> Dist(s[k], x) < Dist(s[j], x))
  }

  /** At most one index is the closest one. */
  lemma ClosestUnique(s: seq<real>, x: real, a: int, b: int)
    requires IsClosest(s, x, a) && IsClosest(s, x, b)
    ensures a == b
  {
    assert Dist(s[a], x) <= Dist(s[b], x) && Dist(s[b], x) <= Dist(s[a], x);
  }

  /**
   * Reference definition of the closest index among `s[from..]`, head first:
   * element `from` wins unless some later one is strictly closer.
   */
  function ClosestFrom(s: seq<real>, x: real, from: nat): (k: nat)
    requires from < |s|
    ensures from <= k < |s|
    ensures forall j :: from <= j < |s| ==> Dist(s[k], x) <= Dist(s[j], x)
    ensures forall j :: from <= j < k ==> Dist(s[k], x) < Dist(s[j], x)
    decreases |s| - from
  {
    if from == |s| - 1 then from
    else
      var k := ClosestFrom(s, x, from + 1);
      if Dist(s[from], x) <= Dist(s[k], x) then from else k
  }

  /** The index `getClosestNumber` returns for `x`. */
  function ClosestIndex(s: seq<real>, x: real): (k: nat)
    requires |s| > 0
    ensures IsClosest(s, x, k)
  {
    ClosestFrom(s, x, 0)
  }

  /**
   * The arg-min scan of `getClosestNumber`: keep the first element, replace
   * it only by a strictly closer one. Returns the element and its index.
   */
  method GetClosestNumber(s: seq<real>, input: real) returns (elem: real, idx: nat)
    requires |s| > 0
    ensures idx < |s| && elem == s[idx]
    ensures IsClosest(s, input, idx)
    ensures idx == ClosestIndex(s, input)
  {
    elem := s[0];
    var minValue := Dist(elem, input);
    idx := 0;
    for i := 1 to |s|
      invariant idx < i && elem == s[idx] && minValue == Dist(elem, input)
      invariant forall j :: 0 <= j < i ==> minValue <= Dist(s[j], input)
      invariant forall j :: 0 <= j < idx ==> minValue < Dist(s[j], input)
    {
      var e := s[i];
      var v := Dist(e, input);
      if minValue > v {
        elem := e;
        minValue := v;
        idx := i;
      }
    }
    ClosestUnique(s, input, idx, ClosestIndex(s, input));
  }

  /** A point lying exactly on an element of an increasing sequence snaps to that element. */
  lemma ClosestOnStep(s: seq<real>, a: nat)
    requires Increasing(s)
    requires a < |s|
    ensures ClosestIndex(s, s[a]) == a
  {
    assert IsClosest(s, s[a], a) by {
      forall j | 0 <= j < |s| && j != a
        ensures Dist(s[a], s[a]) < Dist(s[j], s[a])
      {
        assert s[j] != s[a] by {
          if j < a { assert s[j] < s[a]; } else { assert s[a] < s[j]; }
        }
      }
    }
    ClosestUnique(s, s[a], a, ClosestIndex(s, s[a]));
  }

  /** A point midway between two neighbours snaps to the lower one. */
  lemma ClosestTieGoesLow(s: seq<real>, k: nat)
    requires Increasing(s)
    requires k + 1 < |s|
    ensures ClosestIndex(s, (s[k] + s[k + 1]) / 2.0) == k
  {
    var x := (s[k] + s[k + 1]) / 2.0;
    forall j | 0 <= j < |s|
      ensures Dist(s[k], x) <= Dist(s[j], x)
      ensures j < k ==> Dist(s[k], x) < Dist(s[j], x)
    {
      if j < k {
        assert s[j] < s[k];
      } else if j > k + 1 {
        assert s[k + 1] < s[j];
      }
    }
    ClosestUnique(s, x, k, ClosestIndex(s, x));
  }

  /**
   * On an increasing sequence the lookup is monotone: a point further right
   * never snaps to an earlier index.
   */
  lemma ClosestMonotone(s: seq<real>, x: real, y: real)
    requires |s| > 0
    requires Increasing(s)
    requires x <= y
    ensures ClosestIndex(s, x) <= ClosestIndex(s, y)
  {
    var i, j := ClosestIndex(s, x), ClosestIndex(s, y);
    // Every element before s[i] is strictly farther from x than s[i], so x
    // lies right of their midpoint; y, further right, then prefers s[i] too.
    forall h | 0 <= h < i
      ensures Dist(s[i], y) < Dist(s[h], y)
    {
      assert s[h] < s[i];
      assert Dist(s[i], x) < Dist(s[h], x);
      assert x > (s[h] + s[i]) / 2.0;
    }
    assert Dist(s[j], y) <= Dist(s[i], y);
  }

  /**
   * For evenly spaced elements, a point inside their span is at most half a
   * spacing away from the element it snaps to.
   */
  lemma ClosestWithinHalfSpacing(s: seq<real>, spacing: real, x: real)
    requires |s| > 0
    requires Uniform(s, spacing)
    requires spacing > 0.0
    requires s[0] <= x <= s[|s| - 1]
    ensures Dist(s[ClosestIndex(s, x)], x) <= spacing / 2.0
  {
    var k := ClosestIndex(s, x);
    if x <= s[k] && 0 < k {
      UniformNeighbour(s, spacing, k);
      assert Dist(s[k], x) <= Dist(s[k - 1], x);
    } else if s[k] < x && k < |s| - 1 {
      UniformNeighbour(s, spacing, k + 1);
      assert Dist(s[k], x) <= Dist(s[k + 1], x);
    }
  }

  /** A handle resting on a step of an evenly spaced axis snaps to where it is. */
  lemma SnapResting(s: seq<real>, spacing: real, x: real)
    requires Uniform(s, spacing) && spacing > 0.0
    requires x in s
    ensures s[ClosestIndex(s, x)] == x
  {
    UniformIncreasing(s, spacing);
    var a :| 0 <= a < |s| && s[a] == x;
    ClosestOnStep(s, a);
  }

  /** Snapping two ordered points of an evenly spaced axis keeps them ordered. */
  lemma SnapOrdered(s: seq<real>, spacing: real, x: real, y: real)
    requires Uniform(s, spacing) && spacing > 0.0
    requires |s| > 0 && x <= y
    ensures ClosestIndex(s, x) <= ClosestIndex(s, y)
    ensures s[ClosestIndex(s, x)] <= s[ClosestIndex(s, y)]
  {
    UniformIncreasing(s, spacing);
    ClosestMonotone(s, x, y);
  }

  /** Every step of an evenly spaced axis lies between its first and last step. */
  lemma UniformWithin(s: seq<real>, spacing: real, k: nat)
    requires Uniform(s, spacing) && spacing > 0.0
    requires k < |s|
    ensures s[0] <= s[k] <= s[|s| - 1]
  {
    UniformIncreasing(s, spacing);
  }
}
