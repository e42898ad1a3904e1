/**
 Slicing a union of rectangles into disjoint ones (MergeRects and SlicePolygons in
 src/utils/geo.h). Directions: false is x, true is y.
 */
module Slicing {
  import opened Geometry
  import opened Counting

  predicate AllStrictValid(boxes: seq<Box>) {
    forall i :: 0 <= i < |boxes| ==> boxes[i].IsStrictValid()
  }

  /** No two boxes share an interior point. */
  predicate DisjointInteriors(boxes: seq<Box>) {
    forall i, j :: 0 <= i < j < |boxes| ==> !boxes[i].HasStrictIntersectWith(boxes[j])
  }

  /** Any two boxes span the same interval in direction dir or non-overlapping ones. */
  predicate Aligned(boxes: seq<Box>, dir: bool) {
    forall i, j :: 0 <= i < |boxes| && 0 <= j < |boxes| ==>
      boxes[i].At(dir) == boxes[j].At(dir) || !boxes[i].At(dir).HasStrictIntersectWith(boxes[j].At(dir))
  }

  /** The comparison that MergeRects sorts by, read as "not after". */
  predicate NotAfter(a: Box, b: Box, mergeDir: bool) {
    a.At(!mergeDir).low < b.At(!mergeDir).low ||
    (a.At(!mergeDir).low == b.At(!mergeDir).low && a.At(mergeDir).low <= b.At(mergeDir).low)
  }

  predicate SortedBoxes(boxes: seq<Box>, mergeDir: bool) {
    forall i, j :: 0 <= i < j < |boxes| ==> NotAfter(boxes[i], boxes[j], mergeDir)
  }

  method InsertBox(boxes: seq<Box>, b: Box, mergeDir: bool) returns (r: seq<Box>)
    requires SortedBoxes(boxes, mergeDir)
    ensures SortedBoxes(r, mergeDir)
    ensures forall x :: Count(r, x) == Count(boxes, x) + (if x == b then 1 else 0)
  {
    var k := |boxes|;
    while k > 0 && !NotAfter(boxes[k - 1], b, mergeDir)
      invariant 0 <= k <= |boxes|
      invariant forall i :: k <= i < |boxes| ==> !NotAfter(boxes[i], b, mergeDir)
    {
      k := k - 1;
    }
    assert forall i :: 0 <= i < k ==> NotAfter(boxes[i], b, mergeDir) by {
      if k > 0 {
        assert forall i :: 0 <= i < k - 1 ==> NotAfter(boxes[i], boxes[k - 1], mergeDir);
      }
    }
    r := boxes[..k] + [b] + boxes[k..];
    forall x ensures Count(r, x) == Count(boxes, x) + (if x == b then 1 else 0) {
      InsertCount(boxes, k, b, x);
    }
  }

  /** std::sort with MergeRects' comparison: some sorted permutation. */
  method SortBoxes(boxes: seq<Box>, mergeDir: bool) returns (r: seq<Box>)
    ensures SortedBoxes(r, mergeDir)
    ensures Permutation(r, boxes)
  {
    r := [];
    for i := 0 to |boxes|
      invariant SortedBoxes(r, mergeDir)
      invariant Permutation(r, boxes[..i])
    {
      assert boxes[..i + 1] == boxes[..i] + [boxes[i]];
      forall x ensures Count(boxes[..i + 1], x) == Count(boxes[..i], x) + (if x == boxes[i] then 1 else 0) {
        CountSnoc(boxes[..i], boxes[i], x);
      }
      r := InsertBox(r, boxes[i], mergeDir);
    }
    assert boxes[..|boxes|] == boxes;
  }

  lemma PermutationCovered(a: seq<Box>, b: seq<Box>, p: Point)
    requires Permutation(a, b)
    ensures Covered(a, p) <==> Covered(b, p)
  {
    if Covered(a, p) {
      var i :| 0 <= i < |a| && Covers(a[i], p);
      PermutationMember(a, b, a[i]);
    }
    if Covered(b, p) {
      var i :| 0 <= i < |b| && Covers(b[i], p);
      PermutationMember(a, b, b[i]);
    }
  }

  lemma PermutationProperties(a: seq<Box>, b: seq<Box>, dir: bool)
    requires Permutation(a, b)
    ensures AllStrictValid(a) ==> AllStrictValid(b)
    ensures Aligned(a, dir) ==> Aligned(b, dir)
    ensures |a| >= 1 ==> |b| >= 1
  {
    forall x ensures x in a <==> x in b { PermutationMember(a, b, x); }
    if |a| >= 1 { assert a[0] in b; }
    forall i | 0 <= i < |b| ensures b[i] in a { }
  }

  /** A sequence without a repeated interior overlap is so in any order. */
  lemma PermutationDisjoint(a: seq<Box>, b: seq<Box>)
    requires Permutation(a, b) && DisjointInteriors(a)
    requires AllStrictValid(a)
    ensures DisjointInteriors(b)
  {
    forall i, j | 0 <= i < j < |b| ensures !b[i].HasStrictIntersectWith(b[j]) {
      PermutationMember(a, b, b[i]);
      PermutationMember(a, b, b[j]);
      var m :| 0 <= m < |a| && a[m] == b[i];
      var n :| 0 <= n < |a| && a[n] == b[j];
      if m == n {
        CountTwo(b, i, j);
        var k, l := TwoPlaces(a, b[i]);
        assert !a[k].HasStrictIntersectWith(a[l]);
      }
    }
  }

  /** Two boxes that agree across mergeDir and touch along it, as one box. */
  function Joined(a: Box, b: Box, mergeDir: bool): Box {
    a.With(mergeDir, a.At(mergeDir).UnionWith(b.At(mergeDir)))
  }

  predicate Joinable(a: Box, b: Box, mergeDir: bool) {
    && a.IsStrictValid() && b.IsStrictValid()
    && b.At(!mergeDir).SameAs(a.At(!mergeDir))
    && a.At(mergeDir).low <= b.At(mergeDir).low <= a.At(mergeDir).high
  }

  /** Joining neither adds nor loses a point. */
  lemma JoinedCovers(a: Box, b: Box, mergeDir: bool, p: Point)
    requires Joinable(a, b, mergeDir)
    ensures Covers(Joined(a, b, mergeDir), p) <==> Covers(a, p) || Covers(b, p)
  {
  }

  /** A box that meets the interior of the joined box meets that of one of the parts. */
  lemma JoinedStrict(a: Box, b: Box, mergeDir: bool, c: Box)
    requires Joinable(a, b, mergeDir)
    ensures Joined(a, b, mergeDir).HasStrictIntersectWith(c) ==>
              a.HasStrictIntersectWith(c) || b.HasStrictIntersectWith(c)
  {
  }

  lemma CoveredSnoc(boxes: seq<Box>, b: Box, p: Point)
    ensures Covered(boxes + [b], p) <==> Covered(boxes, p) || Covers(b, p)
  {
    var s := boxes + [b];
    if Covered(boxes, p) {
      var i :| 0 <= i < |boxes| && Covers(boxes[i], p);
      assert s[i] == boxes[i];
    }
    assert s[|boxes|] == b;
  }

  /**
   Merge aligned boxes that touch or overlap along mergeDir. The covered points never
   change; the result has disjoint interiors when the input had, and also when the input
   was only aligned across mergeDir.
   */
  method MergeRects(boxes: seq<Box>, mergeDir: bool) returns (merged: seq<Box>)
    requires |boxes| >= 1 && AllStrictValid(boxes)
    ensures |merged| >= 1 && AllStrictValid(merged)
    ensures forall p :: Covered(merged, p) <==> Covered(boxes, p)
    ensures DisjointInteriors(boxes) || Aligned(boxes, !mergeDir) ==> DisjointInteriors(merged)
  {
    var sorted := SortBoxes(boxes, mergeDir);
    PermutationProperties(boxes, sorted, !mergeDir);
    if DisjointInteriors(boxes) { PermutationDisjoint(boxes, sorted); }
    merged := MergeSorted(sorted, mergeDir);
    forall p ensures Covered(merged, p) <==> Covered(boxes, p) {
      PermutationCovered(sorted, boxes, p);
    }
  }

  /** What the merge loop knows after i boxes. */
  ghost predicate MergeInv(boxes: seq<Box>, i: nat, merged: seq<Box>, mergeDir: bool) {
    && 1 <= i <= |boxes| && |merged| >= 1 && AllStrictValid(merged)
    && var last := merged[|merged| - 1];
    && last.At(!mergeDir) == boxes[i - 1].At(!mergeDir)
    && last.At(mergeDir).low <= boxes[i - 1].At(mergeDir).low
    && (forall p :: Covered(merged, p) <==> Covered(boxes[..i], p))
  }

  /** In either case that promises disjointness: every finished box is clear of what is to come. */
  predicate Clear(boxes: seq<Box>, i: nat, merged: seq<Box>)
    requires i <= |boxes| && |merged| >= 1
  {
    && DisjointInteriors(merged)
    && forall j, k :: 0 <= j < |merged| - 1 && i <= k < |boxes| ==>
         !merged[j].HasStrictIntersectWith(boxes[k])
  }

  /** The last box may still meet later ones only if it is joined to them first. */
  predicate LastClear(boxes: seq<Box>, i: nat, last: Box) {
    forall k :: i <= k < |boxes| ==> !last.HasStrictIntersectWith(boxes[k])
  }

  /** All that the merge loop keeps. */
  ghost predicate MergeState(boxes: seq<Box>, i: nat, merged: seq<Box>, mergeDir: bool) {
    && MergeInv(boxes, i, merged, mergeDir)
    && (DisjointInteriors(boxes) || Aligned(boxes, !mergeDir) ==> Clear(boxes, i, merged))
    && (DisjointInteriors(boxes) ==> LastClear(boxes, i, merged[|merged| - 1]))
  }

  method MergeSorted(boxes: seq<Box>, mergeDir: bool) returns (merged: seq<Box>)
    requires |boxes| >= 1 && AllStrictValid(boxes) && SortedBoxes(boxes, mergeDir)
    ensures |merged| >= 1 && AllStrictValid(merged)
    ensures forall p :: Covered(merged, p) <==> Covered(boxes, p)
    ensures DisjointInteriors(boxes) || Aligned(boxes, !mergeDir) ==> DisjointInteriors(merged)
  {
    merged := [boxes[0]];
    assert boxes[..1] == merged;
    for i := 1 to |boxes|
      invariant |merged| >= 1 && MergeState(boxes, i, merged, mergeDir)
    {
      var last, box := merged[|merged| - 1], boxes[i];
      if box.At(!mergeDir).SameAs(last.At(!mergeDir)) && box.At(mergeDir).low <= last.At(mergeDir).high {
        JoinStep(boxes, i, merged, mergeDir);
        merged := merged[|merged| - 1 := Joined(last, box, mergeDir)];
      } else {
        PushStep(boxes, i, merged, mergeDir);
        merged := merged + [box];
      }
    }
    assert boxes[..|boxes|] == boxes;
  }

  lemma JoinStep(boxes: seq<Box>, i: nat, merged: seq<Box>, mergeDir: bool)
    requires AllStrictValid(boxes) && SortedBoxes(boxes, mergeDir)
    requires i < |boxes| && MergeState(boxes, i, merged, mergeDir)
    requires boxes[i].At(!mergeDir).SameAs(merged[|merged| - 1].At(!mergeDir))
    requires boxes[i].At(mergeDir).low <= merged[|merged| - 1].At(mergeDir).high
    ensures MergeState(boxes, i + 1, merged[|merged| - 1 := Joined(merged[|merged| - 1], boxes[i], mergeDir)], mergeDir)
  {
    var last := merged[|merged| - 1];
    var merged' := merged[|merged| - 1 := Joined(last, boxes[i], mergeDir)];
    assert NotAfter(boxes[i - 1], boxes[i], mergeDir);
    assert last.IsStrictValid() && boxes[i].IsStrictValid();
    assert Joinable(last, boxes[i], mergeDir);
    MergeCovers(boxes, i, merged, mergeDir, merged');
    if DisjointInteriors(boxes) || Aligned(boxes, !mergeDir) { MergeClear(boxes, i, merged, mergeDir, merged'); }
    if DisjointInteriors(boxes) {
      forall k | i + 1 <= k < |boxes| ensures !merged'[|merged| - 1].HasStrictIntersectWith(boxes[k]) {
        JoinedStrict(last, boxes[i], mergeDir, boxes[k]);
      }
    }
  }

  lemma PushStep(boxes: seq<Box>, i: nat, merged: seq<Box>, mergeDir: bool)
    requires AllStrictValid(boxes) && SortedBoxes(boxes, mergeDir)
    requires i < |boxes| && MergeState(boxes, i, merged, mergeDir)
    requires !(boxes[i].At(!mergeDir).SameAs(merged[|merged| - 1].At(!mergeDir)) &&
               boxes[i].At(mergeDir).low <= merged[|merged| - 1].At(mergeDir).high)
    ensures MergeState(boxes, i + 1, merged + [boxes[i]], mergeDir)
  {
    var last := merged[|merged| - 1];
    PushCovers(boxes, i, merged, merged + [boxes[i]]);
    if Aligned(boxes, !mergeDir) { PassedIsClear(boxes, i, last, mergeDir); }
    if DisjointInteriors(boxes) || Aligned(boxes, !mergeDir) {
      assert LastClear(boxes, i, last);
      PushClear(boxes, i, merged);
    }
  }

  lemma PushClear(boxes: seq<Box>, i: nat, merged: seq<Box>)
    requires i < |boxes| && |merged| >= 1 && Clear(boxes, i, merged)
    requires LastClear(boxes, i, merged[|merged| - 1])
    ensures Clear(boxes, i + 1, merged + [boxes[i]])
  {
  }

  lemma MergeCovers(boxes: seq<Box>, i: nat, merged: seq<Box>, mergeDir: bool, merged': seq<Box>)
    requires AllStrictValid(boxes) && i < |boxes| && MergeInv(boxes, i, merged, mergeDir)
    requires Joinable(merged[|merged| - 1], boxes[i], mergeDir)
    requires merged' == merged[|merged| - 1 := Joined(merged[|merged| - 1], boxes[i], mergeDir)]
    ensures forall p :: Covered(merged', p) <==> Covered(boxes[..i + 1], p)
  {
    var front, last := merged[..|merged| - 1], merged[|merged| - 1];
    assert merged == front + [last];
    assert merged' == front + [merged'[|merged| - 1]];
    assert boxes[..i + 1] == boxes[..i] + [boxes[i]];
    forall p ensures Covered(merged', p) <==> Covered(boxes[..i + 1], p) {
      CoveredSnoc(front, last, p);
      CoveredSnoc(front, merged'[|merged| - 1], p);
      CoveredSnoc(boxes[..i], boxes[i], p);
      JoinedCovers(last, boxes[i], mergeDir, p);
    }
  }

  lemma PushCovers(boxes: seq<Box>, i: nat, merged: seq<Box>, merged': seq<Box>)
    requires i < |boxes| && merged' == merged + [boxes[i]]
    requires forall p :: Covered(merged, p) <==> Covered(boxes[..i], p)
    ensures forall p :: Covered(merged', p) <==> Covered(boxes[..i + 1], p)
  {
    assert boxes[..i + 1] == boxes[..i] + [boxes[i]];
    forall p ensures Covered(merged', p) <==> Covered(boxes[..i + 1], p) {
      CoveredSnoc(merged, boxes[i], p);
      CoveredSnoc(boxes[..i], boxes[i], p);
    }
  }

  lemma MergeClear(boxes: seq<Box>, i: nat, merged: seq<Box>, mergeDir: bool, merged': seq<Box>)
    requires i < |boxes| && |merged| >= 1 && Clear(boxes, i, merged)
    requires Joinable(merged[|merged| - 1], boxes[i], mergeDir)
    requires merged' == merged[|merged| - 1 := Joined(merged[|merged| - 1], boxes[i], mergeDir)]
    ensures Clear(boxes, i + 1, merged')
  {
    var n := |merged| - 1;
    forall j | 0 <= j < n ensures !merged'[j].HasStrictIntersectWith(merged'[n]) {
      JoinedStrict(merged[n], boxes[i], mergeDir, merged[j]);
    }
  }

  /** In an aligned, sorted sequence a box that cannot be joined is clear of all later ones. */
  lemma PassedIsClear(boxes: seq<Box>, i: nat, last: Box, mergeDir: bool)
    requires AllStrictValid(boxes) && SortedBoxes(boxes, mergeDir) && Aligned(boxes, !mergeDir)
    requires 1 <= i < |boxes|
    requires last.At(!mergeDir) == boxes[i - 1].At(!mergeDir)
    requires !(boxes[i].At(!mergeDir).SameAs(last.At(!mergeDir)) &&
               boxes[i].At(mergeDir).low <= last.At(mergeDir).high)
    ensures LastClear(boxes, i, last)
  {
    forall k | i <= k < |boxes| ensures !last.HasStrictIntersectWith(boxes[k]) {
      assert boxes[k] == boxes[i] || NotAfter(boxes[i], boxes[k], mergeDir);
      assert boxes[i - 1].At(!mergeDir) == boxes[k].At(!mergeDir) ||
             !boxes[i - 1].At(!mergeDir).HasStrictIntersectWith(boxes[k].At(!mergeDir));
      assert NotAfter(boxes[i - 1], boxes[i], mergeDir);
    }
  }

  predicate StrictlyAscending(locs: seq<int>) {
    forall i, j :: 0 <= i < j < |locs| ==> locs[i] < locs[j]
  }

  /** Insert into a sorted sequence without repetition: std::sort followed by std::unique. */
  method InsertLoc(locs: seq<int>, v: int) returns (r: seq<int>)
    requires StrictlyAscending(locs)
    ensures StrictlyAscending(r)
    ensures forall x :: x in r <==> x in locs || x == v
  {
    var k := 0;
    while k < |locs| && locs[k] < v
      invariant 0 <= k <= |locs|
      invariant forall i :: 0 <= i < k ==> locs[i] < v
    {
      k := k + 1;
    }
    if k < |locs| && locs[k] == v { return locs; }
    r := locs[..k] + [v] + locs[k..];
    assert locs == locs[..k] + locs[k..];
  }

  /** The sorted, distinct boundary coordinates of the boxes in direction dir. */
  method SliceLines(boxes: seq<Box>, dir: bool) returns (locs: seq<int>)
    ensures StrictlyAscending(locs)
    ensures forall i :: 0 <= i < |boxes| ==> boxes[i].At(dir).low in locs && boxes[i].At(dir).high in locs
  {
    locs := [];
    for i := 0 to |boxes|
      invariant StrictlyAscending(locs)
      invariant forall j :: 0 <= j < i ==> boxes[j].At(dir).low in locs && boxes[j].At(dir).high in locs
    {
      locs := InsertLoc(locs, boxes[i].At(dir).low);
      locs := InsertLoc(locs, boxes[i].At(dir).high);
    }
  }

  method IndexOf(locs: seq<int>, v: int) returns (k: nat)
    requires v in locs
    ensures k < |locs| && locs[k] == v
  {
    k := 0;
    while locs[k] != v
      invariant k < |locs| && v in locs[k..]
      decreases |locs| - k
    {
      assert locs[k..] == [locs[k]] + locs[k + 1..];
      k := k + 1;
    }
  }

  /** The box's interval in direction dir is one gap between neighbouring slice lines. */
  predicate Elementary(b: Box, dir: bool, locs: seq<int>) {
    exists k :: 0 <= k < |locs| - 1 && b.At(dir) == Interval(locs[k], locs[k + 1])
  }

  lemma ElementaryAligned(boxes: seq<Box>, dir: bool, locs: seq<int>)
    requires StrictlyAscending(locs)
    requires forall i :: 0 <= i < |boxes| ==> Elementary(boxes[i], dir, locs)
    ensures Aligned(boxes, dir)
  {
    forall i, j | 0 <= i < |boxes| && 0 <= j < |boxes|
      ensures boxes[i].At(dir) == boxes[j].At(dir) || !boxes[i].At(dir).HasStrictIntersectWith(boxes[j].At(dir))
    {
      var k :| 0 <= k < |locs| - 1 && boxes[i].At(dir) == Interval(locs[k], locs[k + 1]);
      var l :| 0 <= l < |locs| - 1 && boxes[j].At(dir) == Interval(locs[l], locs[l + 1]);
      if k < l { assert k + 1 == l || locs[k + 1] < locs[l]; }
      if l < k { assert l + 1 == k || locs[l + 1] < locs[k]; }
    }
  }

  /** Cut one box along every slice line that crosses it. */
  method SliceBox(box: Box, dir: bool, locs: seq<int>) returns (slices: seq<Box>)
    requires box.IsStrictValid() && StrictlyAscending(locs)
    requires box.At(dir).low in locs && box.At(dir).high in locs
    ensures |slices| >= 1 && AllStrictValid(slices)
    ensures forall i :: 0 <= i < |slices| ==> Elementary(slices[i], dir, locs)
    ensures forall p :: Covered(slices, p) <==> Covers(box, p)
  {
    var first := IndexOf(locs, box.At(dir).low);
    var end := IndexOf(locs, box.At(dir).high);
    assert !(end < first) && end != first;
    var k := first;
    slices := [];
    while k != end
      invariant first <= k <= end
      invariant |slices| == k - first
      invariant AllStrictValid(slices)
      invariant forall i :: 0 <= i < |slices| ==> Elementary(slices[i], dir, locs)
      invariant k > first ==>
        forall p :: Covered(slices, p) <==> Covers(box.With(dir, Interval(locs[first], locs[k])), p)
    {
      var slice := box.With(dir, Interval(locs[k], locs[k + 1]));
      assert Elementary(slice, dir, locs);
      assert locs[first] <= locs[k];
      forall p
        ensures Covered(slices + [slice], p) <==> Covers(box.With(dir, Interval(locs[first], locs[k + 1])), p)
      {
        CoveredSnoc(slices, slice, p);
        if k > first {
          JoinedCovers(box.With(dir, Interval(locs[first], locs[k])), slice, dir, p);
        }
      }
      slices := slices + [slice];
      k := k + 1;
    }
    assert box.With(dir, Interval(locs[first], locs[end])) == box;
  }

  lemma CoveredAppend(a: seq<Box>, b: seq<Box>, p: Point)
    ensures Covered(a + b, p) <==> Covered(a, p) || Covered(b, p)
  {
    var s := a + b;
    if Covered(a, p) {
      var i :| 0 <= i < |a| && Covers(a[i], p);
      assert s[i] == a[i];
    }
    if Covered(b, p) {
      var i :| 0 <= i < |b| && Covers(b[i], p);
      assert s[|a| + i] == b[i];
    }
  }

  /**
   Slice the union of the boxes along sliceDir: exactly the same points are covered,
   and with two boxes or more no two resulting boxes share an interior point.
   */
  method SlicePolygons(boxes: seq<Box>, sliceDir: bool) returns (r: seq<Box>)
    requires AllStrictValid(boxes)
    ensures AllStrictValid(r)
    ensures forall p :: Covered(r, p) <==> Covered(boxes, p)
    ensures DisjointInteriors(r)
  {
    if |boxes| <= 1 { return boxes; }
    var sweepDir := !sliceDir;
    var locs := SliceLines(boxes, sweepDir);
    var sliced: seq<Box> := [];
    for i := 0 to |boxes|
      invariant i > 0 ==> |sliced| >= 1
      invariant AllStrictValid(sliced)
      invariant forall j :: 0 <= j < |sliced| ==> Elementary(sliced[j], sweepDir, locs)
      invariant forall p :: Covered(sliced, p) <==> Covered(boxes[..i], p)
    {
      var slices := SliceBox(boxes[i], sweepDir, locs);
      assert boxes[..i + 1] == boxes[..i] + [boxes[i]];
      forall p ensures Covered(sliced + slices, p) <==> Covered(boxes[..i + 1], p) {
        CoveredAppend(sliced, slices, p);
        CoveredSnoc(boxes[..i], boxes[i], p);
      }
      sliced := sliced + slices;
    }
    assert boxes[..|boxes|] == boxes;
    ElementaryAligned(sliced, sweepDir, locs);
    r := MergeRects(sliced, sliceDir);
    r := MergeRects(r, sweepDir);
  }
}
