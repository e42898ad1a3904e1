/**
 Intervals and boxes (src/utils/geo.h). Coordinates are integers; a box stands for the
 closed set of real points between its corners, so that "strict intersection" can be
 compared with sharing an interior point.
 */
module Geometry {

  const INT_MAX: int := 0x7fff_ffff
  const INT_MIN: int := -0x8000_0000

  function Min(a: int, b: int): int { if a <= b then a else b }
  function Max(a: int, b: int): int { if a <= b then b else a }

  datatype Interval = Interval(low: int, high: int) {

    predicate IsValid() { low <= high }

    predicate IsStrictValid() { low < high }

    /** The range of the union; an invalid operand is ignored. */
    function UnionWith(rhs: Interval): Interval {
      if !IsValid() then rhs
      else if !rhs.IsValid() then this
      else Interval(Min(low, rhs.low), Max(high, rhs.high))
    }

    /** May be an invalid interval, which stands for the empty intersection. */
    function IntersectWith(rhs: Interval): Interval {
      Interval(Max(low, rhs.low), Min(high, rhs.high))
    }

    predicate HasStrictIntersectWith(rhs: Interval) { IntersectWith(rhs).IsStrictValid() }

    predicate Contains(rhs: Interval) { low <= rhs.low && rhs.high <= high }

    predicate StrictlyContains(val: int) { low < val < high }

    /** Equality as the source defines it: all invalid intervals are equal. */
    predicate SameAs(rhs: Interval) {
      (!IsValid() && !rhs.IsValid()) || (low == rhs.low && high == rhs.high)
    }

    function Update(val: int): Interval {
      Interval(if val < low then val else low, if val > high then val else high)
    }
  }

  /** The default box: the neutral element of Update and UnionWith. */
  const EMPTY_INTERVAL := Interval(INT_MAX, INT_MIN)
  const EMPTY_BOX := Box(EMPTY_INTERVAL, EMPTY_INTERVAL)

  datatype Box = Box(x: Interval, y: Interval) {

    function At(dir: bool): Interval { if dir then y else x }

    function With(dir: bool, i: Interval): Box { if dir then Box(x, i) else Box(i, y) }

    predicate IsValid() { x.IsValid() && y.IsValid() }

    predicate IsStrictValid() { x.IsStrictValid() && y.IsStrictValid() }

    function UnionWith(rhs: Box): Box { Box(x.UnionWith(rhs.x), y.UnionWith(rhs.y)) }

    function IntersectWith(rhs: Box): Box { Box(x.IntersectWith(rhs.x), y.IntersectWith(rhs.y)) }

    predicate HasStrictIntersectWith(rhs: Box) { IntersectWith(rhs).IsStrictValid() }

    predicate Contains(rhs: Box) { x.Contains(rhs.x) && y.Contains(rhs.y) }

    predicate StrictlyContains(px: int, py: int) { x.StrictlyContains(px) && y.StrictlyContains(py) }

    function Update(px: int, py: int): Box { Box(x.Update(px), y.Update(py)) }
  }

  /** A real point of the plane. */
  datatype Point = Point(x: real, y: real)

  predicate Within(i: Interval, z: real) { i.low as real <= z <= i.high as real }

  predicate Inside(i: Interval, z: real) { (i.low as real) < z < i.high as real }

  /** The point lies in the closed box. */
  predicate Covers(b: Box, p: Point) { Within(b.x, p.x) && Within(b.y, p.y) }

  /** The point lies in the open box. */
  predicate InInterior(b: Box, p: Point) { Inside(b.x, p.x) && Inside(b.y, p.y) }

  ghost predicate Covered(boxes: seq<Box>, p: Point) {
    exists i :: 0 <= i < |boxes| && Covers(boxes[i], p)
  }

  function Midpoint(a: Interval, b: Interval): real {
    (Max(a.low, b.low) as real + Min(a.high, b.high) as real) / 2.0
  }

  /** Two boxes intersect strictly exactly when their interiors share a point. */
  lemma StrictIntersectIsCommonInterior(a: Box, b: Box)
    ensures a.HasStrictIntersectWith(b) <==> exists p :: InInterior(a, p) && InInterior(b, p)
  {
    if a.HasStrictIntersectWith(b) {
      var p := Point(Midpoint(a.x, b.x), Midpoint(a.y, b.y));
      assert InInterior(a, p) && InInterior(b, p);
    }
    forall p | InInterior(a, p) && InInterior(b, p)
      ensures a.HasStrictIntersectWith(b)
    {
      assert a.x.low as real < a.x.high as real && a.x.low as real < b.x.high as real;
      assert a.y.low as real < a.y.high as real && a.y.low as real < b.y.high as real;
    }
  }

  /** Enlarging boxes keeps a strict intersection. */
  lemma StrictIntersectMonotonic(a: Box, b: Box, a': Box, b': Box)
    requires a'.Contains(a) && b'.Contains(b)
    requires a.HasStrictIntersectWith(b)
    ensures a'.HasStrictIntersectWith(b')
  {
  }
}
