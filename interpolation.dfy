/**
 * Linear interpolation over (time, value) nodes, as the forward-points curve
 * uses it: the segment is located as `std::upper_bound` locates it, and
 * values outside the node range continue the first or last segment.
 */
module Interpolation {

  predicate StrictlyIncreasing(xs: seq<real>) {
    forall i, j :: 0 <= i < j < |xs| ==> xs[i] < xs[j]
  }

  /** Neighbouring nodes have different times, so every segment has a slope. */
  predicate DistinctNeighbours(xs: seq<real>) {
    forall i :: 0 <= i < |xs| - 1 ==> xs[i] != xs[i + 1]
  }

  /** The first position whose time exceeds `t` (`std::upper_bound` on sorted times). */
  function UpperBound(xs: seq<real>, t: real): (j: nat)
    ensures j <= |xs|
    ensures forall k :: 0 <= k < j ==> xs[k] <= t
    ensures j < |xs| ==> xs[j] > t
  {
    if xs == [] || xs[0] > t then 0 else 1 + UpperBound(xs[1..], t)
  }

  /** The segment used for `t`: the one containing it, or the first / last one outside the range. */
  function Locate(xs: seq<real>, t: real): (i: nat)
    requires |xs| >= 2
    ensures i <= |xs| - 2
    ensures StrictlyIncreasing(xs) && xs[0] <= t <= xs[|xs| - 1] ==> xs[i] <= t <= xs[i + 1]
    ensures StrictlyIncreasing(xs) && xs[0] <= t < xs[|xs| - 1] ==> t < xs[i + 1]
  {
    if t < xs[0] then 0
    else if t > xs[|xs| - 1] then |xs| - 2
    else UpperBound(xs[..|xs| - 1], t) - 1
  }

  /** The straight line through (x0, y0) and (x1, y1), evaluated at `t`. */
  function Chord(x0: real, x1: real, y0: real, y1: real, t: real): real
    requires x0 != x1
  {
    y0 + (t - x0) * ((y1 - y0) / (x1 - x0))
  }

  /** `v` lies between `a` and `b`, whichever is larger. */
  predicate Between(v: real, a: real, b: real) {
    (a <= v <= b) || (b <= v <= a)
  }

  /** Between its end points the chord stays between their values, and it meets them at the ends. */
  lemma ChordBetween(x0: real, x1: real, y0: real, y1: real, t: real)
    requires x0 < x1 && x0 <= t <= x1
    ensures Between(Chord(x0, x1, y0, y1, t), y0, y1)
    ensures t == x0 ==> Chord(x0, x1, y0, y1, t) == y0
    ensures t == x1 ==> Chord(x0, x1, y0, y1, t) == y1
  {
    var d := x1 - x0;
    var w := t - x0;
    var slope := (y1 - y0) / d;
    assert d * slope == y1 - y0;
    assert 0.0 <= w <= d;
    if slope >= 0.0 {
      assert 0.0 <= w * slope <= d * slope;
    } else {
      assert d * slope <= w * slope <= 0.0;
    }
  }

  /** The value at `t` of the piecewise-linear function through the nodes. */
  function Linear(xs: seq<real>, ys: seq<real>, t: real): (r: real)
    requires |xs| == |ys| >= 2 && DistinctNeighbours(xs)
    ensures var i := Locate(xs, t);
      StrictlyIncreasing(xs) && xs[0] <= t <= xs[|xs| - 1] ==>
        xs[i] <= t <= xs[i + 1] && Between(r, ys[i], ys[i + 1])
  {
    var i := Locate(xs, t);
    if StrictlyIncreasing(xs) && xs[0] <= t <= xs[|xs| - 1] then
      ChordBetween(xs[i], xs[i + 1], ys[i], ys[i + 1], t);
      Chord(xs[i], xs[i + 1], ys[i], ys[i + 1], t)
    else
      Chord(xs[i], xs[i + 1], ys[i], ys[i + 1], t)
  }

  /** On increasing times, the segment located for a node's own time starts at that node (the last node uses the last segment). */
  lemma LocateAtNode(xs: seq<real>, k: nat)
    requires |xs| >= 2 && StrictlyIncreasing(xs) && k < |xs|
    ensures Locate(xs, xs[k]) == if k == |xs| - 1 then k - 1 else k
  {
    var n := |xs|;
    var prefix := xs[..n - 1];
    var j := UpperBound(prefix, xs[k]);
    if k < n - 1 {
      assert prefix[k] == xs[k];
      assert k + 1 < n - 1 ==> prefix[k + 1] > xs[k];
    }
  }

  /** The interpolant passes through every node. */
  lemma LinearAtNode(xs: seq<real>, ys: seq<real>, k: nat)
    requires |xs| == |ys| >= 2 && StrictlyIncreasing(xs) && k < |xs|
    ensures DistinctNeighbours(xs) && Linear(xs, ys, xs[k]) == ys[k]
  {
    LocateAtNode(xs, k);
    if k == |xs| - 1 {
      var d := xs[k] - xs[k - 1];
      assert d != 0.0;
      assert d * ((ys[k] - ys[k - 1]) / d) == ys[k] - ys[k - 1];
    }
  }

  /**
   * Between two neighbouring nodes the interpolant lies on the chord joining
   * them, hence between their two values, whichever segment the time locates.
   */
  lemma LinearBetweenNodes(xs: seq<real>, ys: seq<real>, k: nat, t: real)
    requires |xs| == |ys| >= 2 && StrictlyIncreasing(xs)
    requires k < |xs| - 1 && xs[k] <= t <= xs[k + 1]
    ensures DistinctNeighbours(xs)
    ensures Linear(xs, ys, t) == Chord(xs[k], xs[k + 1], ys[k], ys[k + 1], t)
    ensures Between(Linear(xs, ys, t), ys[k], ys[k + 1])
  {
    ChordBetween(xs[k], xs[k + 1], ys[k], ys[k + 1], t);
    var i := Locate(xs, t);
    assert xs[0] <= xs[k] && xs[k + 1] <= xs[|xs| - 1];
    assert xs[i] <= t <= xs[i + 1];
    if i > k {
      assert xs[k + 1] <= xs[i];
      LinearAtNode(xs, ys, k + 1);
    }
  }
}
