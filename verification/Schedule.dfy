/**
 First-fit scheduling of tree leaves into levels whose boxes do not overlap
 (PartitionTree::schedule, src/route/partitionTree.cpp).
 */
module Schedule {
  import opened PartitionTree
  import opened Counting

  /** Two leaves cannot run together: their boxes intersect strictly. */
  predicate Conflict(leaves: seq<TreeNode>, i: nat, j: nat) {
    i < |leaves| && j < |leaves| && i != j && leaves[i].bbox.HasStrictIntersectWith(leaves[j].bbox)
  }

  lemma ConflictSymmetric(leaves: seq<TreeNode>, i: nat, j: nat)
    ensures Conflict(leaves, i, j) <==> Conflict(leaves, j, i)
  {
  }

  method ConflictMap(leaves: seq<TreeNode>) returns (hasConflict: array2<bool>)
    ensures hasConflict.Length0 == hasConflict.Length1 == |leaves|
    ensures forall i, j :: 0 <= i < |leaves| && 0 <= j < |leaves| ==> hasConflict[i, j] == Conflict(leaves, i, j)
    ensures fresh(hasConflict)
  {
    var num := |leaves|;
    hasConflict := new bool[num, num]((_, _) => false);
    for i := 0 to num
      invariant forall a, b :: 0 <= a < num && 0 <= b < num ==>
        hasConflict[a, b] == (Conflict(leaves, a, b) && (a < i || b < i))
    {
      for j := i + 1 to num
        invariant forall a, b :: 0 <= a < num && 0 <= b < num ==>
          hasConflict[a, b] ==
          (Conflict(leaves, a, b) && (a < i || b < i || (a == i && b < j) || (b == i && a < j)))
      {
        if leaves[i].bbox.HasStrictIntersectWith(leaves[j].bbox) {
          hasConflict[i, j] := true;
          hasConflict[j, i] := true;
        }
        ConflictSymmetric(leaves, i, j);
      }
    }
  }

  function SizeOf(sizes: seq<nat>, i: nat): nat { if i < |sizes| then sizes[i] else 0 }

  predicate BigFirst(sizes: seq<nat>, order: seq<nat>) {
    forall k, l :: 0 <= k < l < |order| ==> SizeOf(sizes, order[k]) >= SizeOf(sizes, order[l])
  }

  method InsertBySize(sizes: seq<nat>, order: seq<nat>, i: nat) returns (r: seq<nat>)
    requires BigFirst(sizes, order)
    ensures BigFirst(sizes, r)
    ensures forall x :: Count(r, x) == Count(order, x) + (if x == i then 1 else 0)
  {
    var k := |order|;
    while k > 0 && SizeOf(sizes, order[k - 1]) < SizeOf(sizes, i)
      invariant 0 <= k <= |order|
      invariant forall l :: k <= l < |order| ==> SizeOf(sizes, order[l]) < SizeOf(sizes, i)
    {
      k := k - 1;
    }
    assert forall l :: 0 <= l < k ==> SizeOf(sizes, order[l]) >= SizeOf(sizes, i) by {
      if k > 0 {
        assert forall l :: 0 <= l < k - 1 ==> SizeOf(sizes, order[l]) >= SizeOf(sizes, order[k - 1]);
      }
    }
    r := order[..k] + [i] + order[k..];
    forall x ensures Count(r, x) == Count(order, x) + (if x == i then 1 else 0) {
      InsertCount(order, k, i, x);
    }
  }

  /** All leaf indices, those with most connections first (std::sort: in some such order). */
  method SortBySize(sizes: seq<nat>) returns (order: seq<nat>)
    ensures BigFirst(sizes, order)
    ensures forall i: nat :: Count(order, i) == if i < |sizes| then 1 else 0
  {
    order := [];
    for i := 0 to |sizes|
      invariant BigFirst(sizes, order)
      invariant forall j: nat :: Count(order, j) == if j < i then 1 else 0
    {
      order := InsertBySize(sizes, order, i);
    }
  }

  /** Each of the n leaves is placed exactly once, and nothing else is. */
  ghost predicate EachOnce(levels: seq<seq<nat>>, n: nat) {
    forall i: nat :: Total(levels, i) == if i < n then 1 else 0
  }

  predicate Fits(leaves: seq<TreeNode>, level: seq<nat>, i: nat) {
    forall a :: 0 <= a < |level| ==> !Conflict(leaves, i, level[a])
  }

  /** Entries are leaf indices. */
  predicate InBounds(leaves: seq<TreeNode>, levels: seq<seq<nat>>) {
    forall l, a :: 0 <= l < |levels| && 0 <= a < |levels[l]| ==> levels[l][a] < |leaves|
  }

  /** No two leaves of one level conflict. */
  predicate ConflictFree(leaves: seq<TreeNode>, levels: seq<seq<nat>>) {
    forall l, a :: 0 <= l < |levels| && 0 <= a < |levels[l]| ==> Fits(leaves, levels[l], levels[l][a])
  }

  /** A leaf is only put off to a later level because of a conflict in every earlier one. */
  predicate Tight(leaves: seq<TreeNode>, levels: seq<seq<nat>>) {
    forall l, a, m :: 0 <= m < l < |levels| && 0 <= a < |levels[l]| ==> !Fits(leaves, levels[m], levels[l][a])
  }

  method FirstFit(leaves: seq<TreeNode>, hasConflict: array2<bool>, levels: seq<seq<nat>>, i: nat)
    returns (level: nat)
    requires i < |leaves| && InBounds(leaves, levels)
    requires hasConflict.Length0 == hasConflict.Length1 == |leaves|
    requires forall a, b :: 0 <= a < |leaves| && 0 <= b < |leaves| ==> hasConflict[a, b] == Conflict(leaves, a, b)
    ensures level <= |levels| && (level < |levels| ==> Fits(leaves, levels[level], i))
    ensures forall m :: 0 <= m < level ==> !Fits(leaves, levels[m], i)
  {
    level := 0;
    while level < |levels|
      invariant level <= |levels|
      invariant forall m :: 0 <= m < level ==> !Fits(leaves, levels[m], i)
    {
      var valid := true;
      var a := 0;
      while a < |levels[level]| && valid
        invariant 0 <= a <= |levels[level]|
        invariant valid ==> forall b :: 0 <= b < a ==> !Conflict(leaves, i, levels[level][b])
        invariant !valid ==> !Fits(leaves, levels[level], i)
        decreases |levels[level]| - a, valid
      {
        if hasConflict[i, levels[level][a]] { valid := false; } else { a := a + 1; }
      }
      if valid { return; }
      level := level + 1;
    }
  }

  function Put(levels: seq<seq<nat>>, level: nat, i: nat): seq<seq<nat>>
    requires level <= |levels|
  {
    if level == |levels| then levels + [[i]] else levels[level := levels[level] + [i]]
  }

  lemma {:induction false} PutAddsPlace(levels: seq<seq<nat>>, level: nat, i: nat, j: nat)
    requires level <= |levels|
    ensures Total(Put(levels, level, i), j) == Total(levels, j) + (if i == j then 1 else 0)
  {
    var r := Put(levels, level, i);
    if level == |levels| {
      assert r[..|levels|] == levels;
      CountSnoc([], i, j);
      assert [] + [i] == [i];
    } else {
      var last := |levels| - 1;
      if level == last {
        assert r[..last] == levels[..last];
        CountSnoc(levels[last], i, j);
      } else {
        PutAddsPlace(levels[..last], level, i, j);
        assert r[..last] == Put(levels[..last], level, i);
      }
    }
  }

  lemma FitsLonger(leaves: seq<TreeNode>, level: seq<nat>, i: nat, j: nat)
    ensures !Fits(leaves, level, j) ==> !Fits(leaves, level + [i], j)
    ensures Fits(leaves, level, j) && !Conflict(leaves, j, i) ==> Fits(leaves, level + [i], j)
  {
    if !Fits(leaves, level, j) {
      var a :| 0 <= a < |level| && Conflict(leaves, j, level[a]);
      assert (level + [i])[a] == level[a];
    }
  }

  lemma PutKeepsTight(leaves: seq<TreeNode>, levels: seq<seq<nat>>, level: nat, i: nat)
    requires Tight(leaves, levels) && level <= |levels|
    requires forall m :: 0 <= m < level ==> !Fits(leaves, levels[m], i)
    ensures Tight(leaves, Put(levels, level, i))
  {
    var r := Put(levels, level, i);
    forall l, a, m | 0 <= m < l < |r| && 0 <= a < |r[l]| ensures !Fits(leaves, r[m], r[l][a]) {
      if l == level && a == |r[l]| - 1 {
        assert r[l][a] == i;
      } else {
        assert r[l][a] == levels[l][a];
        if m == level { FitsLonger(leaves, levels[m], i, r[l][a]); }
      }
    }
  }

  lemma PutKeepsConflictFree(leaves: seq<TreeNode>, levels: seq<seq<nat>>, level: nat, i: nat)
    requires ConflictFree(leaves, levels) && level <= |levels|
    requires level < |levels| ==> Fits(leaves, levels[level], i)
    ensures ConflictFree(leaves, Put(levels, level, i))
  {
    var r := Put(levels, level, i);
    forall l, a | 0 <= l < |r| && 0 <= a < |r[l]| ensures Fits(leaves, r[l], r[l][a]) {
      if l == level && level < |levels| {
        if a < |levels[l]| { ConflictSymmetric(leaves, i, levels[l][a]); }
        FitsLonger(leaves, levels[l], i, r[l][a]);
      }
    }
  }

  /** No conflict within a level, none put off without need, no empty level. */
  predicate Good(leaves: seq<TreeNode>, levels: seq<seq<nat>>) {
    && InBounds(leaves, levels) && ConflictFree(leaves, levels) && Tight(leaves, levels)
    && forall l :: 0 <= l < |levels| ==> |levels[l]| > 0
  }

  lemma PutKeepsGood(leaves: seq<TreeNode>, levels: seq<seq<nat>>, level: nat, i: nat)
    requires Good(leaves, levels) && level <= |levels| && i < |leaves|
    requires level < |levels| ==> Fits(leaves, levels[level], i)
    requires forall m :: 0 <= m < level ==> !Fits(leaves, levels[m], i)
    ensures Good(leaves, Put(levels, level, i))
  {
    PutKeepsTight(leaves, levels, level, i);
    PutKeepsConflictFree(leaves, levels, level, i);
  }

  /** The leaf has no more connections than any that is placed. */
  predicate NoBigger(leaves: seq<TreeNode>, levels: seq<seq<nat>>, i: nat)
    requires i < |leaves| && InBounds(leaves, levels)
  {
    forall l, a :: 0 <= l < |levels| && 0 <= a < |levels[l]| ==>
      |leaves[levels[l][a]].connectionIds| >= |leaves[i].connectionIds|
  }

  /** A leaf of the level that is at least as big stands in the way of leaf i. */
  predicate Outranked(leaves: seq<TreeNode>, level: seq<nat>, i: nat) {
    exists a ::
      && 0 <= a < |level| && Conflict(leaves, i, level[a])
      && |leaves[level[a]].connectionIds| >= |leaves[i].connectionIds|
  }

  /** Big leaves come first: in every level in falling size, and put off only for others no smaller. */
  predicate Ranked(leaves: seq<TreeNode>, levels: seq<seq<nat>>)
    requires InBounds(leaves, levels)
  {
    && (forall l, a, b :: 0 <= l < |levels| && 0 <= a < b < |levels[l]| ==>
          |leaves[levels[l][a]].connectionIds| >= |leaves[levels[l][b]].connectionIds|)
    && (forall l, a, m :: 0 <= m < l < |levels| && 0 <= a < |levels[l]| ==>
          Outranked(leaves, levels[m], levels[l][a]))
  }

  lemma OutrankedLonger(leaves: seq<TreeNode>, level: seq<nat>, i: nat, j: nat)
    requires Outranked(leaves, level, j)
    ensures Outranked(leaves, level + [i], j)
  {
    var a :| 0 <= a < |level| && Conflict(leaves, j, level[a]) &&
             |leaves[level[a]].connectionIds| >= |leaves[j].connectionIds|;
    assert (level + [i])[a] == level[a];
  }

  lemma PutKeepsRanked(leaves: seq<TreeNode>, levels: seq<seq<nat>>, level: nat, i: nat)
    requires InBounds(leaves, levels) && Ranked(leaves, levels) && level <= |levels| && i < |leaves|
    requires NoBigger(leaves, levels, i) && forall m :: 0 <= m < level ==> !Fits(leaves, levels[m], i)
    ensures InBounds(leaves, Put(levels, level, i)) && Ranked(leaves, Put(levels, level, i))
  {
    var r := Put(levels, level, i);
    forall l, a, m | 0 <= m < l < |r| && 0 <= a < |r[l]| ensures Outranked(leaves, r[m], r[l][a]) {
      if l == level && a == |r[l]| - 1 {
        assert r[l][a] == i && r[m] == levels[m] && !Fits(leaves, levels[m], i);
      } else {
        assert r[l][a] == levels[l][a];
        if m == level { OutrankedLonger(leaves, levels[m], i, r[l][a]); }
      }
    }
  }

  method PlaceLeaf(leaves: seq<TreeNode>, hasConflict: array2<bool>, levels: seq<seq<nat>>, i: nat)
    returns (r: seq<seq<nat>>)
    requires i < |leaves| && Good(leaves, levels) && Ranked(leaves, levels) && NoBigger(leaves, levels, i)
    requires hasConflict.Length0 == hasConflict.Length1 == |leaves|
    requires forall a, b :: 0 <= a < |leaves| && 0 <= b < |leaves| ==> hasConflict[a, b] == Conflict(leaves, a, b)
    ensures Good(leaves, r) && Ranked(leaves, r)
    ensures forall j :: Total(r, j) == Total(levels, j) + (if i == j then 1 else 0)
  {
    var level := FirstFit(leaves, hasConflict, levels, i);
    forall j ensures Total(Put(levels, level, i), j) == Total(levels, j) + (if i == j then 1 else 0) {
      PutAddsPlace(levels, level, i, j);
    }
    PutKeepsGood(leaves, levels, level, i);
    PutKeepsRanked(leaves, levels, level, i);
    r := Put(levels, level, i);
  }

  lemma {:induction false} InTotal(levels: seq<seq<nat>>, l: nat, a: nat)
    requires l < |levels| && a < |levels[l]|
    ensures Total(levels, levels[l][a]) > 0
  {
    if l < |levels| - 1 { InTotal(levels[..|levels| - 1], l, a); } else { CountIn(levels[l], levels[l][a]); }
  }

  lemma PlacedBefore(leaves: seq<TreeNode>, sizes: seq<nat>, order: seq<nat>, levels: seq<seq<nat>>, k: nat)
    requires |sizes| == |leaves| && (forall i :: 0 <= i < |leaves| ==> sizes[i] == |leaves[i].connectionIds|)
    requires BigFirst(sizes, order) && k < |order| && order[k] < |leaves| && InBounds(leaves, levels)
    requires forall j :: Total(levels, j) == Count(order[..k], j)
    ensures NoBigger(leaves, levels, order[k])
  {
    forall l, a | 0 <= l < |levels| && 0 <= a < |levels[l]|
      ensures |leaves[levels[l][a]].connectionIds| >= |leaves[order[k]].connectionIds|
    {
      InTotal(levels, l, a);
      CountIn(order[..k], levels[l][a]);
      var i :| 0 <= i < k && order[i] == levels[l][a];
      assert SizeOf(sizes, order[i]) >= SizeOf(sizes, order[k]);
    }
  }

  /**
   Every leaf is placed exactly once, no level holds a conflict, and no leaf could have
   run in an earlier level: leaves no smaller stand in its way there.
   */
  method ScheduleLeaves(leaves: seq<TreeNode>) returns (levels: seq<seq<nat>>)
    ensures EachOnce(levels, |leaves|)
    ensures Good(leaves, levels) && Ranked(leaves, levels)
  {
    var hasConflict := ConflictMap(leaves);
    var sizes := seq(|leaves|, i requires 0 <= i < |leaves| => |leaves[i].connectionIds|);
    var order := SortBySize(sizes);
    levels := [];
    for k := 0 to |order|
      modifies {}
      invariant forall j :: Total(levels, j) == Count(order[..k], j)
      invariant Good(leaves, levels) && Ranked(leaves, levels)
    {
      assert order[..k + 1] == order[..k] + [order[k]];
      forall j ensures Count(order[..k + 1], j) == Count(order[..k], j) + (if order[k] == j then 1 else 0) {
        CountSnoc(order[..k], order[k], j);
      }
      CountIn(order, order[k]);
      PlacedBefore(leaves, sizes, order, levels, k);
      levels := PlaceLeaf(leaves, hasConflict, levels, order[k]);
    }
    assert order[..|order|] == order;
  }

  function ConflictsOf(leaves: seq<TreeNode>, i: nat): set<nat> {
    set j: nat | j < |leaves| && Conflict(leaves, i, j)
  }

  /** The leaf i, if it fits into none of the first m levels, conflicts with m different leaves there. */
  lemma {:induction false} OnePerLevel(leaves: seq<TreeNode>, levels: seq<seq<nat>>, i: nat, m: nat)
    returns (s: set<nat>)
    requires m <= |levels| && forall j :: Total(levels, j) <= 1
    requires forall k :: 0 <= k < m ==> !Fits(leaves, levels[k], i)
    ensures |s| == m && s <= ConflictsOf(leaves, i)
    ensures forall j :: j in s ==> Total(levels[..m], j) >= 1
  {
    if m == 0 { return {}; }
    var b :| 0 <= b < |levels[m - 1]| && Conflict(leaves, i, levels[m - 1][b]);
    var j := levels[m - 1][b];
    var rest := OnePerLevel(leaves, levels, i, m - 1);
    assert levels[..m][..m - 1] == levels[..m - 1];
    CountIn(levels[m - 1], j);
    FewerPlaces(levels, m, j);
    assert Total(levels[..m], j) == Total(levels[..m - 1], j) + Count(levels[m - 1], j);
    s := rest + {j};
  }

  lemma {:induction false} FewerPlaces(levels: seq<seq<nat>>, m: nat, j: nat)
    requires m <= |levels|
    ensures Total(levels[..m], j) <= Total(levels, j)
  {
    if m == |levels| {
      assert levels[..m] == levels;
    } else {
      FewerPlaces(levels[..|levels| - 1], m, j);
      assert levels[..|levels| - 1][..m] == levels[..m];
    }
  }

  lemma SubsetSize(a: set<nat>, b: set<nat>)
    requires a <= b
    ensures |a| <= |b|
  {
    assert b == a + (b - a);
  }

  /** A leaf of level l has at least l conflicts. */
  lemma LevelIsBounded(leaves: seq<TreeNode>, levels: seq<seq<nat>>, l: nat, a: nat)
    requires EachOnce(levels, |leaves|) && Good(leaves, levels)
    requires l < |levels| && a < |levels[l]|
    ensures l <= |ConflictsOf(leaves, levels[l][a])|
  {
    var s := OnePerLevel(leaves, levels, levels[l][a], l);
    SubsetSize(s, ConflictsOf(leaves, levels[l][a]));
  }

  /** There is at most one more level than the largest number of conflicts of a leaf. */
  lemma LevelCount(leaves: seq<TreeNode>, levels: seq<seq<nat>>, degree: nat)
    requires EachOnce(levels, |leaves|) && Good(leaves, levels)
    requires forall i :: 0 <= i < |leaves| ==> |ConflictsOf(leaves, i)| <= degree
    ensures |levels| <= degree + 1
  {
    if |levels| > 0 {
      var l := |levels| - 1;
      LevelIsBounded(leaves, levels, l, 0);
      assert levels[l][0] < |leaves|;
    }
  }
}
