/**
 What the cutlines of the partition tree (src/route/partitionTree.cpp, lines 28-147) are worth:
 each divides its connections as evenly as any line can, and what lies on its two sides can be
 routed at the same time.
 */
module CutLaws {
  import opened Geometry
  import opened Cutline
  import opened PartitionTree
  import opened PartitionLeaves

  // Evenness

  /** The connections that begin at or before the line. */
  function Begun(spans: seq<Interval>, pos: int): set<nat> { set k: nat | k < |spans| && spans[k].low <= pos }

  /** The connections that go on beyond the line. */
  function GoingOn(spans: seq<Interval>, pos: int): set<nat> { set k: nat | k < |spans| && pos < spans[k].high }

  lemma BegunStep(front: seq<Interval>, s: Interval, pos: int)
    ensures |Begun(front + [s], pos)| == |Begun(front, pos)| + if s.low <= pos then 1 else 0
  {
    var all, last := front + [s], |front|;
    assert forall k :: 0 <= k < last ==> all[k] == front[k];
    if s.low <= pos {
      assert Begun(all, pos) == Begun(front, pos) + {last};
    } else {
      assert Begun(all, pos) == Begun(front, pos);
    }
  }

  lemma GoingOnStep(front: seq<Interval>, s: Interval, pos: int)
    ensures |GoingOn(front + [s], pos)| == |GoingOn(front, pos)| + if pos < s.high then 1 else 0
  {
    var all, last := front + [s], |front|;
    assert forall k :: 0 <= k < last ==> all[k] == front[k];
    if pos < s.high {
      assert GoingOn(all, pos) == GoingOn(front, pos) + {last};
    } else {
      assert GoingOn(all, pos) == GoingOn(front, pos);
    }
  }

  lemma {:induction false} BeforeIsBegun(span: Interval, spans: seq<Interval>, x: nat)
    ensures CountBefore(span, spans, x) == |Begun(spans, span.low + x)|
  {
    if |spans| > 0 {
      var front, s := spans[..|spans| - 1], spans[|spans| - 1];
      assert spans == front + [s];
      BeforeIsBegun(span, front, x);
      BegunStep(front, s, span.low + x);
    }
  }

  lemma {:induction false} AfterIsGoingOn(span: Interval, spans: seq<Interval>, x: int)
    requires forall k :: 0 <= k < |spans| ==> spans[k].high <= span.high
    ensures CountAfter(span, spans, x) == |GoingOn(spans, span.low + x)|
  {
    if |spans| > 0 {
      var front, s := spans[..|spans| - 1], spans[|spans| - 1];
      assert spans == front + [s];
      AfterIsGoingOn(span, front, x);
      GoingOnStep(front, s, span.low + x);
    }
  }

  /** One pair of numbers is at least as even as the other: the ratio of its lesser to its greater is no smaller. */
  predicate AsEven(a: int, b: int, c: int, d: int) { Min(a, b) * Max(c, d) >= Min(c, d) * Max(a, b) }

  lemma Crossed(x: real, m: real, y: real, n: real)
    requires m > 0.0 && n > 0.0
    ensures (m - x) / m <= (n - y) / n <==> y * m <= x * n
  {
    var p, q := (m - x) / m, (n - y) / n;
    assert p * m == m - x && q * n == n - y;
    assert p * m * n == (m - x) * n && q * n * m == (n - y) * m;
    var k := m * n;
    assert k > 0.0 && p * k == m * n - x * n && q * k == n * m - y * m;
    if p <= q { assert p * k <= q * k; } else { assert q * k < p * k; }
  }

  /** The least score is the evenest division. */
  lemma LowScoreIsEven(a: int, b: int, c: int, d: int)
    requires a > 0 && b >= 0 && c > 0 && d >= 0
    ensures Score(a, b) <= Score(c, d) <==> AsEven(a, b, c, d)
  {
    var x, m, y, n := Min(a, b), Max(a, b), Min(c, d), Max(c, d);
    Crossed(x as real, m as real, y as real, n as real);
    assert (y * m) as real == y as real * m as real && (x * n) as real == x as real * n as real;
  }

  /** A line on the given axis has connections on both of its sides. */
  ghost predicate Divides(ids: seq<nat>, boxes: seq<Box>, axis: bool, pos: int)
    requires InRange(ids, boxes)
  {
    BothSides(Spans(ids, boxes, axis), pos)
  }

  /** The line divides the connections at least as evenly as the other one. */
  ghost predicate NoLessEven(ids: seq<nat>, boxes: seq<Box>, axis: bool, pos: int, axis': bool, pos': int)
    requires InRange(ids, boxes)
  {
    var s, s' := Spans(ids, boxes, axis), Spans(ids, boxes, axis');
    AsEven(|Begun(s, pos)|, |GoingOn(s, pos)|, |Begun(s', pos')|, |GoingOn(s', pos')|)
  }

  /** Without a cut no line divides the connections; with one, no line does so more evenly. */
  ghost predicate MostEven(ids: seq<nat>, boxes: seq<Box>, cut: Cut)
    requires InRange(ids, boxes)
  {
    match cut
    case NoCut => forall a, p :: !Divides(ids, boxes, a, p)
    case Cut(axis, pos) =>
      && Divides(ids, boxes, axis, pos)
      && forall a, p :: Divides(ids, boxes, a, p) ==> NoLessEven(ids, boxes, axis, pos, a, p)
  }

  /** Every line that divides the connections is among the columns and rows that are tried. */
  lemma DividingIsCandidate(ids: seq<nat>, box: Box, boxes: seq<Box>, axis: bool, pos: int)
    requires NodeOk(ids, box, boxes)
    ensures Divides(ids, boxes, axis, pos) <==> CandidateOn(ids, box, boxes, axis, pos - box.At(axis).low)
  {
    var span, spans := box.At(axis), Spans(ids, boxes, axis);
    if |ids| > 0 {
      UsableExtent(span, spans);
      CandidateIsBothSides(span, spans, pos - span.low);
      if BothSides(spans, pos) {
        var i :| 0 <= i < |spans| && spans[i].high <= pos;
        var j :| 0 <= j < |spans| && pos < spans[j].low;
        assert span.Contains(spans[i]) && span.Contains(spans[j]) && spans[i].IsStrictValid();
        assert spans[j].IsStrictValid();
      }
    } else {
      EmptyHasNoCandidate(span, spans);
    }
  }

  lemma ScoreTold(ids: seq<nat>, box: Box, boxes: seq<Box>, axis: bool, pos: int)
    requires NodeOk(ids, box, boxes) && Divides(ids, boxes, axis, pos)
    ensures var spans := Spans(ids, boxes, axis);
      && |Begun(spans, pos)| > 0
      && ScoreOn(ids, box, boxes, axis, pos - box.At(axis).low) == Score(|Begun(spans, pos)|, |GoingOn(spans, pos)|)
  {
    var span, spans := box.At(axis), Spans(ids, boxes, axis);
    DividingIsCandidate(ids, box, boxes, axis, pos);
    EmptyHasNoCandidate(span, spans);
    CandidateIsBothSides(span, spans, pos - span.low);
    BeforeIsBegun(span, spans, pos - span.low);
    AfterIsGoingOn(span, spans, pos - span.low);
  }

  /** The cut that the tree is built with is a most even one. */
  lemma BestIsMostEven(ids: seq<nat>, box: Box, boxes: seq<Box>, cut: Cut)
    requires NodeOk(ids, box, boxes) && IsBestCut(ids, box, boxes, cut)
    ensures MostEven(ids, boxes, cut)
  {
    forall a, p | Divides(ids, boxes, a, p) ensures cut.Cut? && NoLessEven(ids, boxes, cut.axis, cut.pos, a, p) {
      DividingIsCandidate(ids, box, boxes, a, p);
      if cut.Cut? { NoneMoreEven(ids, box, boxes, cut.axis, cut.pos, a, p); }
    }
    if cut.Cut? { DividingIsCandidate(ids, box, boxes, cut.axis, cut.pos); }
  }

  lemma NoneMoreEven(ids: seq<nat>, box: Box, boxes: seq<Box>, axis: bool, pos: int, a: bool, p: int)
    requires NodeOk(ids, box, boxes) && IsBestCut(ids, box, boxes, Cut(axis, pos)) && Divides(ids, boxes, a, p)
    ensures NoLessEven(ids, boxes, axis, pos, a, p)
  {
    DividingIsCandidate(ids, box, boxes, a, p);
    DividingIsCandidate(ids, box, boxes, axis, pos);
    ScoreTold(ids, box, boxes, a, p);
    ScoreTold(ids, box, boxes, axis, pos);
    var s, s' := Spans(ids, boxes, axis), Spans(ids, boxes, a);
    LowScoreIsEven(|Begun(s, pos)|, |GoingOn(s, pos)|, |Begun(s', p)|, |GoingOn(s', p)|);
  }

  // Separation

  /** A connection crosses the line exactly if its box has the line strictly inside; else it lies on one side. */
  lemma SidesExactly(ids: seq<nat>, boxes: seq<Box>, axis: bool, pos: int, id: nat)
    requires InRange(ids, boxes) && id in ids && boxes[id].At(axis).IsStrictValid()
    ensures id in Select(ids, boxes, axis, pos, Across) <==> boxes[id].At(axis).StrictlyContains(pos)
    ensures id in Select(ids, boxes, axis, pos, OnLeft) <==> boxes[id].At(axis).high <= pos
    ensures id in Select(ids, boxes, axis, pos, OnRight) <==> boxes[id].At(axis).low >= pos
  {
    SelectMember(ids, boxes, axis, pos, Across, id);
    SelectMember(ids, boxes, axis, pos, OnLeft, id);
    SelectMember(ids, boxes, axis, pos, OnRight, id);
  }

  /** The parts of a cut node lie in its box; the two sides meet in the line at most. */
  lemma PartsOfBox(ids: seq<nat>, box: Box, boxes: seq<Box>, axis: bool, pos: int)
    requires NodeOk(ids, box, boxes) && Divides(ids, boxes, axis, pos)
    ensures box.Contains(LeftBox(box, axis, pos)) && box.Contains(RightBox(box, axis, pos))
    ensures !LeftBox(box, axis, pos).HasStrictIntersectWith(RightBox(box, axis, pos))
    ensures var m := Select(ids, boxes, axis, pos, Across); m != [] ==> box.Contains(Hull(m, boxes))
  {
    var span, spans := box.At(axis), Spans(ids, boxes, axis);
    var i :| 0 <= i < |spans| && spans[i].high <= pos;
    var j :| 0 <= j < |spans| && pos < spans[j].low;
    assert span.Contains(spans[i]) && span.Contains(spans[j]) && spans[i].IsStrictValid() && spans[j].IsStrictValid();
    var m := Select(ids, boxes, axis, pos, Across);
    if m != [] {
      SelectedInside(ids, box, boxes, axis, pos);
      AcrossInside(ids, box, boxes, m);
    }
  }

  /** The boxes of a node's children, where they have connections. */
  lemma ChildBoxes(t: Tree, boxes: seq<Box>)
    requires WellBuilt(t, boxes) && t.Node?
    ensures WellBuilt(t.left, boxes) && WellBuilt(t.right, boxes) && WellBuilt(t.middle, boxes)
    ensures t.box.Contains(t.left.box) && t.box.Contains(t.right.box) && t.ids != []
    ensures t.middle.ids != [] ==> t.box.Contains(t.middle.box)
    ensures !t.left.box.HasStrictIntersectWith(t.right.box)
  {
    DividingIsCandidate(t.ids, t.box, boxes, t.axis, t.pos);
    PartsOfBox(t.ids, t.box, boxes, t.axis, t.pos);
  }

  lemma ContainsThrough(a: Box, b: Box, c: Box)
    requires a.Contains(b) && b.Contains(c)
    ensures a.Contains(c)
  {
  }

  /** A leaf with connections lies in the box of every node above it. */
  lemma {:induction false} LeafInBox(t: Tree, boxes: seq<Box>, i: nat)
    requires WellBuilt(t, boxes) && i < |Leaves(t)| && Leaves(t)[i].ids != []
    ensures t.box.Contains(Leaves(t)[i].box) && t.ids != []
    decreases t
  {
    if t.Node? {
      ChildBoxes(t, boxes);
      var child, k := ChildAt(t, i);
      LeafInBox(child, boxes, k);
      ContainsThrough(t.box, child.box, Leaves(t)[i].box);
    }
  }

  /** The child that the leaf comes from, and its place there. */
  lemma ChildAt(t: Tree, i: nat) returns (child: Tree, k: nat)
    requires t.Node? && i < |Leaves(t)|
    ensures child == t.left || child == t.right || child == t.middle
    ensures k < |Leaves(child)| && Leaves(child)[k] == Leaves(t)[i]
  {
    var l, r := |Leaves(t.left)|, |Leaves(t.right)|;
    if i < l {
      child, k := t.left, i;
    } else if i < l + r {
      child, k := t.right, i - l;
    } else {
      child, k := t.middle, i - l - r;
    }
  }

  lemma ApartInside(a: Box, b: Box, c: Box, d: Box)
    requires !a.HasStrictIntersectWith(b) && a.Contains(c) && b.Contains(d)
    ensures !c.HasStrictIntersectWith(d)
  {
  }

  /** A leaf without connections has the default box, which meets nothing. */
  lemma EmptyLeafMeetsNone(t: Tree, boxes: seq<Box>, i: nat, other: Box)
    requires WellBuilt(t, boxes) && i < |Leaves(t)| && Leaves(t)[i].ids == []
    ensures !Leaves(t)[i].box.HasStrictIntersectWith(other) && !other.HasStrictIntersectWith(Leaves(t)[i].box)
  {
    LeavesKeepOrder(t, boxes);
    var leaf := Leaves(t)[i];
    assert LeafOf(leaf, t, boxes) && NodeOk(leaf.ids, leaf.box, boxes);
  }

  /** Leaves on the two sides of a cutline never conflict. */
  lemma SidesApart(t: Tree, boxes: seq<Box>, i: nat, j: nat)
    requires WellBuilt(t, boxes) && t.Node?
    requires i < |Leaves(t.left)| && j < |Leaves(t.right)|
    ensures !Leaves(t.left)[i].box.HasStrictIntersectWith(Leaves(t.right)[j].box)
  {
    ChildBoxes(t, boxes);
    var a, b := Leaves(t.left)[i], Leaves(t.right)[j];
    if a.ids == [] {
      EmptyLeafMeetsNone(t.left, boxes, i, b.box);
    } else if b.ids == [] {
      EmptyLeafMeetsNone(t.right, boxes, j, a.box);
    } else {
      LeafInBox(t.left, boxes, i);
      LeafInBox(t.right, boxes, j);
      ApartInside(t.left.box, t.right.box, a.box, b.box);
    }
  }
}
