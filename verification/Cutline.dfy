/**
 Choice of the cutline in PartitionTree::buildTree (src/route/partitionTree.cpp, lines 28-96)
 and distribution of the connections over the two sides (lines 110-147).
 Axis false is X, true is Y. A connection is represented by its id; boxes[id] is its bounding box.
 */
module Cutline {
  import opened Geometry

  /** Two's-complement wrap-around of a 32-bit int. */
  function Wrap32(v: int): int { (v + 0x8000_0000) % 0x1_0000_0000 - 0x8000_0000 }

  /** Number of tile columns (rows) of a box side as the source computes it, in 32 bits. */
  function Extent(span: Interval): int { Wrap32(span.high - span.low + 1) }

  /** First column from which the connection lies to the left of, or on, the cutline. */
  function Start(span: Interval, s: Interval): int { Max(span.low, s.low) - span.low }

  /** First column up to which the connection reaches beyond the cutline. */
  function End(span: Interval, s: Interval): int { Min(span.high, s.high) - span.low }

  function CountBefore(span: Interval, spans: seq<Interval>, x: int): (n: nat)
    ensures n <= |spans|
  {
    if |spans| == 0 then 0
    else CountBefore(span, spans[..|spans| - 1], x) + (if Start(span, spans[|spans| - 1]) <= x then 1 else 0)
  }

  function CountAfter(span: Interval, spans: seq<Interval>, x: int): (n: nat)
    ensures n <= |spans|
  {
    if |spans| == 0 then 0
    else CountAfter(span, spans[..|spans| - 1], x) + (if x < End(span, spans[|spans| - 1]) then 1 else 0)
  }

  lemma CountSteps(span: Interval, spans: seq<Interval>, i: nat, x: int)
    requires i < |spans|
    ensures CountBefore(span, spans[..i + 1], x) ==
            CountBefore(span, spans[..i], x) + (if Start(span, spans[i]) <= x then 1 else 0)
    ensures CountAfter(span, spans[..i + 1], x) ==
            CountAfter(span, spans[..i], x) + (if x < End(span, spans[i]) then 1 else 0)
  {
    assert spans[..i + 1][..i] == spans[..i];
  }

  /** Fill the two lookup tables for every possible cutline position. */
  method FillCounts(span: Interval, spans: seq<Interval>) returns (before: array<int>, after: array<int>)
    requires Extent(span) >= 2
    requires forall k :: 0 <= k < |spans| ==> Start(span, spans[k]) >= 0 && End(span, spans[k]) < Extent(span)
    ensures before.Length == after.Length == Extent(span) - 1
    ensures forall x :: 0 <= x < before.Length ==>
      before[x] == CountBefore(span, spans, x) && after[x] == CountAfter(span, spans, x)
    ensures fresh(before) && fresh(after)
  {
    var w := Extent(span);
    before := new int[w - 1](_ => 0);
    after := new int[w - 1](_ => 0);
    for i := 0 to |spans|
      invariant forall x :: 0 <= x < w - 1 ==>
        before[x] == CountBefore(span, spans[..i], x) && after[x] == CountAfter(span, spans[..i], x)
    {
      forall x | 0 <= x < w - 1
        ensures CountBefore(span, spans[..i + 1], x) ==
                CountBefore(span, spans[..i], x) + (if Start(span, spans[i]) <= x then 1 else 0)
        ensures CountAfter(span, spans[..i + 1], x) ==
                CountAfter(span, spans[..i], x) + (if x < End(span, spans[i]) then 1 else 0)
      {
        CountSteps(span, spans, i, x);
      }
      AddFrom(before, Start(span, spans[i]));
      AddBelow(after, End(span, spans[i]));
    }
    assert spans[..|spans|] == spans;
  }

  method AddFrom(a: array<int>, from: int)
    requires from >= 0
    modifies a
    ensures forall x :: 0 <= x < a.Length ==> a[x] == old(a[x]) + (if from <= x then 1 else 0)
  {
    var x := from;
    while x < a.Length
      invariant from <= x
      invariant forall y :: 0 <= y < a.Length ==> a[y] == old(a[y]) + (if from <= y < x then 1 else 0)
    {
      a[x] := a[x] + 1;
      x := x + 1;
    }
  }

  method AddBelow(a: array<int>, end: int)
    requires end <= a.Length
    modifies a
    ensures forall x :: 0 <= x < a.Length ==> a[x] == old(a[x]) + (if x < end then 1 else 0)
  {
    var x := 0;
    while x < end
      invariant 0 <= x
      invariant forall y :: 0 <= y < a.Length ==> a[y] == old(a[y]) + (if y < x && y < end then 1 else 0)
    {
      a[x] := a[x] + 1;
      x := x + 1;
    }
  }

  /** Cutting at column x leaves neither side empty, judged by the counts. */
  predicate Candidate(span: Interval, spans: seq<Interval>, x: int) {
    && 0 <= x < Extent(span) - 1
    && CountBefore(span, spans, x) != CountBefore(span, spans, Extent(span) - 2)
    && CountAfter(span, spans, x) != CountAfter(span, spans, 0)
  }

  /** A usable node: non-empty, with strictly valid connections inside a box of moderate size. */
  predicate Inhabited(span: Interval, spans: seq<Interval>) {
    && |spans| > 0
    && -0x2000_0000 <= span.low && span.high <= 0x2000_0000
    && forall k :: 0 <= k < |spans| ==> spans[k].IsStrictValid() && span.Contains(spans[k])
  }

  /** The span of an empty node as the default box has it, or of an inhabited one. */
  predicate Usable(span: Interval, spans: seq<Interval>) {
    Inhabited(span, spans) || (|spans| == 0 && span == EMPTY_INTERVAL)
  }

  /** In 32-bit arithmetic the default box has extent 2, so that no index leaves the tables. */
  lemma EmptyExtent()
    ensures Extent(EMPTY_INTERVAL) == 2
  {
  }

  /** A node is at least two columns wide, so that column W - 2 exists. */
  lemma UsableExtent(span: Interval, spans: seq<Interval>)
    requires Usable(span, spans)
    ensures Extent(span) >= 2
    ensures Inhabited(span, spans) ==> Extent(span) == span.high - span.low + 1
    ensures forall k :: 0 <= k < |spans| ==> Start(span, spans[k]) >= 0 && End(span, spans[k]) < Extent(span)
  {
    if Inhabited(span, spans) { assert span.Contains(spans[0]) && spans[0].IsStrictValid(); }
  }

  lemma AllBefore(span: Interval, spans: seq<Interval>, x: int)
    requires forall k :: 0 <= k < |spans| ==> Start(span, spans[k]) <= x
    ensures CountBefore(span, spans, x) == |spans|
  {
    if |spans| > 0 { AllBefore(span, spans[..|spans| - 1], x); }
  }

  lemma AllAfter(span: Interval, spans: seq<Interval>, x: int)
    requires forall k :: 0 <= k < |spans| ==> x < End(span, spans[k])
    ensures CountAfter(span, spans, x) == |spans|
  {
    if |spans| > 0 { AllAfter(span, spans[..|spans| - 1], x); }
  }

  lemma SomeBefore(span: Interval, spans: seq<Interval>, x: int, k: nat)
    requires k < |spans| && Start(span, spans[k]) <= x
    ensures CountBefore(span, spans, x) > 0
  {
    if k < |spans| - 1 { SomeBefore(span, spans[..|spans| - 1], x, k); }
  }

  lemma NotAllBefore(span: Interval, spans: seq<Interval>, x: int)
    requires CountBefore(span, spans, x) != |spans|
    ensures exists k :: 0 <= k < |spans| && x < Start(span, spans[k])
  {
    if forall k :: 0 <= k < |spans| ==> Start(span, spans[k]) <= x { AllBefore(span, spans, x); }
  }

  lemma NotAllAfter(span: Interval, spans: seq<Interval>, x: int)
    requires CountAfter(span, spans, x) != |spans|
    ensures exists k :: 0 <= k < |spans| && End(span, spans[k]) <= x
  {
    if forall k :: 0 <= k < |spans| ==> x < End(span, spans[k]) { AllAfter(span, spans, x); }
  }

  /** A connection ends at or before the cutline, and another starts beyond it. */
  predicate BothSides(spans: seq<Interval>, pos: int) {
    && (exists k :: 0 <= k < |spans| && spans[k].high <= pos)
    && (exists k :: 0 <= k < |spans| && pos < spans[k].low)
  }

  /**
   The count test is exact: a column is a candidate if and only if connections lie on both
   sides of it; then at least one connection counts as before it, so that the balance score
   never divides by zero.
   */
  lemma CandidateIsBothSides(span: Interval, spans: seq<Interval>, x: int)
    requires Inhabited(span, spans)
    ensures Candidate(span, spans, x) <==> 0 <= x < Extent(span) - 1 && BothSides(spans, span.low + x)
    ensures Candidate(span, spans, x) ==> CountBefore(span, spans, x) > 0
  {
    UsableExtent(span, spans);
    var w := Extent(span);
    AllBefore(span, spans, w - 2);
    AllAfter(span, spans, 0);
    if Candidate(span, spans, x) {
      NotAllBefore(span, spans, x);
      NotAllAfter(span, spans, x);
      var j :| 0 <= j < |spans| && x < Start(span, spans[j]);
      var k :| 0 <= k < |spans| && End(span, spans[k]) <= x;
      assert span.low + x < spans[j].low && spans[k].high <= span.low + x;
      SomeBefore(span, spans, x, k);
    }
    if 0 <= x < w - 1 && BothSides(spans, span.low + x) {
      var k :| 0 <= k < |spans| && spans[k].high <= span.low + x;
      MissedBefore(span, spans, x);
      MissedAfter(span, spans, x, k);
    }
  }

  lemma MissedBefore(span: Interval, spans: seq<Interval>, x: int)
    requires exists k :: 0 <= k < |spans| && span.low + x < spans[k].low
    ensures CountBefore(span, spans, x) < |spans|
  {
    var k :| 0 <= k < |spans| && span.low + x < spans[k].low;
    if k < |spans| - 1 {
      var front := spans[..|spans| - 1];
      assert front[k] == spans[k];
      MissedBefore(span, front, x);
    }
  }

  lemma MissedAfter(span: Interval, spans: seq<Interval>, x: int, k: nat)
    requires k < |spans| && End(span, spans[k]) <= x
    ensures CountAfter(span, spans, x) < |spans|
  {
    if k < |spans| - 1 { MissedAfter(span, spans[..|spans| - 1], x, k); }
  }

  /** Imbalance of the two sides, between 0 (even) and 1. */
  function Score(before: int, after: int): real
    requires before > 0 && after >= 0
  {
    var d := if before <= after then after - before else before - after;
    d as real / Max(before, after) as real
  }

  /** Score of a candidate column; 2 stands for "not a candidate", which no score reaches. */
  function ScoreAt(span: Interval, spans: seq<Interval>, x: int): real
    requires Usable(span, spans)
  {
    if !Candidate(span, spans, x) then 2.0
    else
      EmptyHasNoCandidate(span, spans);
      CandidateIsBothSides(span, spans, x);
      Score(CountBefore(span, spans, x), CountAfter(span, spans, x))
  }

  lemma EmptyHasNoCandidate(span: Interval, spans: seq<Interval>)
    requires Usable(span, spans)
    ensures |spans| == 0 ==> forall x :: !Candidate(span, spans, x)
    ensures (exists x :: Candidate(span, spans, x)) ==> Inhabited(span, spans)
  {
  }

  lemma ScoreRange(before: int, after: int)
    requires before > 0 && after >= 0
    ensures 0.0 <= Score(before, after) <= 1.0
  {
    var d := if before <= after then after - before else before - after;
    var m := Max(before, after);
    assert 0 <= d <= m && m > 0;
    assert d as real <= m as real;
    assert d as real / m as real <= 1.0;
  }

  /** A cut: the axis and the absolute position of the line. */
  datatype Cut = NoCut | Cut(axis: bool, pos: int)

  /** The cut is the first column with this score, and the score beats the one to beat. */
  ghost predicate FirstBest(span: Interval, spans: seq<Interval>, axis: bool, cut: Cut, score: real, toBeat: real)
    requires Usable(span, spans)
  {
    && cut.Cut? && cut.axis == axis
    && Candidate(span, spans, cut.pos - span.low)
    && score == ScoreAt(span, spans, cut.pos - span.low) && score < toBeat
    && forall y :: 0 <= y < cut.pos - span.low ==> score < ScoreAt(span, spans, y)
  }

  predicate Consistent(cut: Cut, score: real) { if cut.NoCut? then score >= 2.0 else score <= 1.0 }

  /** One axis's scan, continuing from the best cut found so far. */
  method ScanAxis(span: Interval, spans: seq<Interval>, axis: bool, bestCut: Cut, bestScore: real)
    returns (cut: Cut, score: real)
    requires Usable(span, spans)
    requires Consistent(bestCut, bestScore)
    ensures Consistent(cut, score)
    ensures (cut == bestCut && score == bestScore) || FirstBest(span, spans, axis, cut, score, bestScore)
    ensures forall x :: Candidate(span, spans, x) ==> score <= ScoreAt(span, spans, x)
  {
    UsableExtent(span, spans);
    EmptyHasNoCandidate(span, spans);
    var before, after := FillCounts(span, spans);
    var w := Extent(span);
    var maxBefore, maxAfter := before[w - 2], after[0];
    cut, score := bestCut, bestScore;
    for x := 0 to w - 1
      modifies {}
      invariant Consistent(cut, score)
      invariant (cut == bestCut && score == bestScore) ||
                (FirstBest(span, spans, axis, cut, score, bestScore) && cut.pos - span.low < x)
      invariant forall y :: 0 <= y < x ==> score <= ScoreAt(span, spans, y) || !Candidate(span, spans, y)
    {
      if before[x] == maxBefore || after[x] == maxAfter { continue; }
      assert Candidate(span, spans, x);
      CandidateIsBothSides(span, spans, x);
      var balance := Score(before[x], after[x]);
      ScoreRange(before[x], after[x]);
      if balance < score {
        cut, score := Cut(axis, span.low + x), balance;
      }
    }
  }
}
