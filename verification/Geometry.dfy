/**
 * Plane geometry shared by both slider variants: canvas points, the pointer
 * events the touch pump delivers, and facts about evenly spaced coordinates.
 * Coordinates are exact reals; the source's Float rounding is not modelled.
 */
module Geometry {

  /** A canvas point. Every update in the sliders copies it with a new x. */
  datatype Offset = Offset(x: real, y: real)

  /** The pointer events a slider reacts to. */
  datatype TouchInteraction =
    | NoInteraction
    | Down(position: Offset)
    | Move(position: Offset)
    | Up(position: Offset)

  function Abs(v: real): (r: real)
    ensures r >= 0.0
    ensures r == v || r == -v
  {
    if v < 0.0 then -v else v
  }

  /** Distance between two x-coordinates, `abs(a - b)` in the source. */
  function Dist(a: real, b: real): (d: real)
    ensures d >= 0.0
    ensures d == a - b || d == b - a
  {
    Abs(a - b)
  }

  /** Strictly increasing left to right. */
  ghost predicate Increasing(s: seq<real>)
  {
    forall i, j :: 0 <= i < j < |s| ==> s[i] < s[j]
  }

  /** Element `i` lies `i` spacings to the right of element 0. */
  ghost predicate Uniform(s: seq<real>, spacing: real)
  {
    forall i :: 0 <= i < |s| ==> s[i] == s[0] + (i as real) * spacing
  }

  /** Neighbours of an evenly spaced sequence are exactly one spacing apart. */
  lemma UniformNeighbour(s: seq<real>, spacing: real, k: nat)
    requires Uniform(s, spacing)
    requires 0 < k < |s|
    ensures s[k] == s[k - 1] + spacing
  {
    assert s[k] == s[0] + (k as real) * spacing;
    assert s[k - 1] == s[0] + ((k - 1) as real) * spacing;
    assert ((k - 1) as real) * spacing == (k as real) * spacing - spacing;
  }

  /** A positive spacing makes an evenly spaced sequence strictly increasing. */
  lemma UniformIncreasing(s: seq<real>, spacing: real)
    requires Uniform(s, spacing)
    requires spacing > 0.0
    ensures Increasing(s)
  {
    forall i, j | 0 <= i < j < |s|
      ensures s[i] < s[j]
    {
      var d := (j as real) - (i as real);
      assert d > 0.0;
      assert d * spacing > 0.0;
      assert s[j] - s[i] == d * spacing;
    }
  }

  /** Two distinct elements of an evenly spaced sequence are at least one spacing apart. */
  lemma UniformGap(s: seq<real>, spacing: real, i: nat, j: nat)
    requires Uniform(s, spacing)
    requires spacing > 0.0
    requires i < j < |s|
    ensures s[j] - s[i] >= spacing
  {
    var d := (j as real) - (i as real);
    assert d >= 1.0;
    assert (d - 1.0) * spacing >= 0.0;
    assert s[j] - s[i] == d * spacing;
  }
}
