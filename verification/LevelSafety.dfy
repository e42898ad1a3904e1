/**
 Why the leaves of one level may be routed at the same time against one scratch table
 (aStarRoute::routeIndirectConnections lines 41-58 and aStarRoute::routePartitionTree,
 src/route/aStarRoute.cpp): from the pins of the netlist to the schedule.
 */
module LevelSafety {
  import opened Geometry
  import opened Counting
  import opened BoundingBox
  import opened PartitionTree
  import opened PartitionLeaves
  import opened Schedule

  /** A tile at which a node's end makes it accessible to both connections. */
  predicate SharedTile(a: Box, b: Box, x: int, y: int) { a.StrictlyContains(x, y) && b.StrictlyContains(x, y) }

  /** Two groups of connections: no common net, and no tile inside a box of each. */
  ghost predicate Independent(conns: seq<TileConn>, boxes: seq<Box>, a: seq<nat>, b: seq<nat>) {
    forall c, d :: c in a && d in b ==>
      && c < |conns| && d < |conns| && |boxes| == |conns|
      && conns[c].net != conns[d].net
      && forall x, y :: !SharedTile(boxes[c], boxes[d], x, y)
  }

  /** The leaf's box encloses the boxes of its connections. */
  ghost predicate Encloses(leaf: TreeNode, boxes: seq<Box>) {
    forall id :: id in leaf.connectionIds ==> id < |boxes| && leaf.bbox.Contains(boxes[id])
  }

  /** Leaves whose boxes do not intersect strictly hold independent connections. */
  lemma ApartIsIndependent(conns: seq<TileConn>, boxes: seq<Box>, a: TreeNode, b: TreeNode)
    requires BoxesHoldPins(conns, boxes) && OneSourcePerNet(conns)
    requires Encloses(a, boxes) && Encloses(b, boxes)
    requires !a.bbox.HasStrictIntersectWith(b.bbox)
    ensures Independent(conns, boxes, a.connectionIds, b.connectionIds)
  {
    forall c, d | c in a.connectionIds && d in b.connectionIds
      ensures c < |conns| && d < |conns| && conns[c].net != conns[d].net
      ensures forall x, y :: !SharedTile(boxes[c], boxes[d], x, y)
    {
      if boxes[c].HasStrictIntersectWith(boxes[d]) {
        StrictIntersectMonotonic(boxes[c], boxes[d], a.bbox, b.bbox);
      }
      if conns[c].net == conns[d].net { SameNetBoxesMeet(conns, boxes, c, d); }
    }
  }

  /** A schedule of leaves that is safe to run level by level. */
  ghost predicate SafeSchedule(conns: seq<TileConn>, boxes: seq<Box>, leaves: seq<TreeNode>, levels: seq<seq<nat>>) {
    && EachOnce(levels, |leaves|) && InBounds(leaves, levels)
    && forall l, a, b :: 0 <= l < |levels| && 0 <= a < b < |levels[l]| ==>
         Independent(conns, boxes, leaves[levels[l][a]].connectionIds, leaves[levels[l][b]].connectionIds)
  }

  lemma EntriesDiffer(levels: seq<seq<nat>>, n: nat, l: nat, a: nat, b: nat)
    requires EachOnce(levels, n) && l < |levels| && a < b < |levels[l]|
    ensures levels[l][a] != levels[l][b]
  {
    if levels[l][a] == levels[l][b] {
      CountTwo(levels[l], a, b);
      PlacesInLevel(levels, l, levels[l][a]);
    }
  }

  lemma {:induction false} PlacesInLevel(levels: seq<seq<nat>>, l: nat, i: nat)
    requires l < |levels|
    ensures Count(levels[l], i) <= Total(levels, i)
  {
    if l < |levels| - 1 { PlacesInLevel(levels[..|levels| - 1], l, i); }
  }

  lemma ConflictFreeIsSafe(conns: seq<TileConn>, boxes: seq<Box>, leaves: seq<TreeNode>, levels: seq<seq<nat>>)
    requires BoxesHoldPins(conns, boxes) && OneSourcePerNet(conns)
    requires forall k :: 0 <= k < |leaves| ==> Encloses(leaves[k], boxes)
    requires EachOnce(levels, |leaves|) && Good(leaves, levels)
    ensures SafeSchedule(conns, boxes, leaves, levels)
  {
    forall l, a, b | 0 <= l < |levels| && 0 <= a < b < |levels[l]|
      ensures Independent(conns, boxes, leaves[levels[l][a]].connectionIds, leaves[levels[l][b]].connectionIds)
    {
      EntriesDiffer(levels, |leaves|, l, a, b);
      assert Fits(leaves, levels[l], levels[l][a]);
      assert !Conflict(leaves, levels[l][a], levels[l][b]);
      ApartIsIndependent(conns, boxes, leaves[levels[l][a]], leaves[levels[l][b]]);
    }
  }

  /** Exactly one of the leaves holds the connection. */
  ghost predicate InOneLeaf(leaves: seq<TreeNode>, id: nat) {
    exists k :: OnlyIn(leaves, id, k)
  }

  predicate OnlyIn(leaves: seq<TreeNode>, id: nat, k: nat) {
    k < |leaves| && forall j :: 0 <= j < |leaves| ==> (id in leaves[j].connectionIds <==> j == k)
  }

  lemma CollectedLeaf(t: Tree, boxes: seq<Box>, collected: seq<Tree>, k: nat)
    requires WellBuilt(t, boxes) && Permutation(collected, Leaves(t)) && k < |collected|
    ensures LeafOf(collected[k], t, boxes)
  {
    LeavesKeepOrder(t, boxes);
    PermutationMember(collected, Leaves(t), collected[k]);
    var i :| 0 <= i < |Leaves(t)| && Leaves(t)[i] == collected[k];
  }

  lemma CollectedOnce(t: Tree, boxes: seq<Box>, collected: seq<Tree>, id: nat)
    requires WellBuilt(t, boxes) && Permutation(collected, Leaves(t)) && id in t.ids
    ensures exists k :: HeldBy(collected, id, k)
  {
    LeavesPartition(t, boxes, id);
    var leaf := Leaves(t)[LeafIndex(t, boxes, id)];
    PermutationMember(collected, Leaves(t), leaf);
    var k :| 0 <= k < |collected| && collected[k] == leaf;
    forall j | 0 <= j < |collected| ensures id in collected[j].ids <==> j == k {
      if id in collected[j].ids && j != k {
        PermutationMember(collected, Leaves(t), collected[j]);
        if j < k { CountTwo(collected, j, k); } else { CountTwo(collected, k, j); }
        var a, b := TwoPlaces(Leaves(t), leaf);
      }
    }
    assert HeldBy(collected, id, k);
  }

  /** The leaf lists connections, none of them twice. */
  predicate LeafIds(leaf: TreeNode, n: nat) {
    NoRepeat(leaf.connectionIds) && forall i :: 0 <= i < |leaf.connectionIds| ==> leaf.connectionIds[i] < n
  }

  /** A plan for the partition-tree mode: every connection is in one leaf, once, and the schedule is safe. */
  ghost predicate Planned(conns: seq<TileConn>, boxes: seq<Box>, leaves: seq<TreeNode>, levels: seq<seq<nat>>) {
    && BoxesHoldPins(conns, boxes) && SafeSchedule(conns, boxes, leaves, levels)
    && (forall c :: 0 <= c < |conns| ==> InOneLeaf(leaves, c))
    && (forall k :: 0 <= k < |leaves| ==> LeafIds(leaves[k], |conns|))
  }

  /** The leaves of a tree over all connections, built by best cuts, in some order. */
  ghost predicate FromTree(boxes: seq<Box>, leaves: seq<TreeNode>, t: Tree, collected: seq<Tree>) {
    && WellBuilt(t, boxes) && t.box == UnionOf(boxes)
    && |t.ids| == |boxes| && (forall c :: 0 <= c < |boxes| ==> t.ids[c] == c)
    && |collected| == |leaves| && Permutation(collected, Leaves(t))
    && (forall k :: 0 <= k < |leaves| ==>
          leaves[k].connectionIds == collected[k].ids && leaves[k].bbox == collected[k].box)
  }

  /** Leaves of that tree, put into levels big ones first. */
  ghost predicate TreePlan(boxes: seq<Box>, leaves: seq<TreeNode>, levels: seq<seq<nat>>) {
    && (exists t, collected :: FromTree(boxes, leaves, t, collected))
    && Good(leaves, levels) && Ranked(leaves, levels)
  }

  /**
   The whole preparation of the partition-tree mode, for a netlist with its pins in the
   layout: every connection lands in exactly one leaf, and the schedule is safe.
   */
  method PlanLevels(nets: seq<seq<nat>>, conns: seq<TileConn>)
    returns (boxes: seq<Box>, leaves: seq<TreeNode>, levels: seq<seq<nat>>, ghost centers: seq<Tile>)
    requires ListsCover(nets, conns) && OneSourcePerNet(conns)
    requires forall c :: 0 <= c < |conns| ==> InLayout(conns[c].source) && InLayout(conns[c].sink)
    ensures Planned(conns, boxes, leaves, levels)
    ensures AreCenters(nets, conns, centers) && BoxesAreReach(conns, boxes, centers)
    ensures TreePlan(boxes, leaves, levels)
    ensures forall k :: 0 <= k < |leaves| ==> Encloses(leaves[k], boxes)
  {
    boxes, centers := ComputeBoxes(nets, conns);
    leaves, levels := PlanBoxes(conns, boxes);
  }

  /** Tree and schedule for given boxes. */
  method PlanBoxes(conns: seq<TileConn>, boxes: seq<Box>) returns (leaves: seq<TreeNode>, levels: seq<seq<nat>>)
    requires OneSourcePerNet(conns) && BoxesHoldPins(conns, boxes)
    requires forall c :: 0 <= c < |conns| ==> LAYOUT_BOX.Contains(boxes[c])
    ensures Planned(conns, boxes, leaves, levels) && TreePlan(boxes, leaves, levels)
    ensures forall k :: 0 <= k < |leaves| ==> Encloses(leaves[k], boxes)
  {
    var ids := seq(|conns|, i requires 0 <= i < |conns| => i as nat);
    var bbox := FoldUnion(boxes);
    RootOk(boxes, ids, LAYOUT_BOX);
    var tree := new PartitionTree(boxes, ids, bbox);
    ghost var t := tree.BuildTree(0);
    var nodes := tree.nodes;
    RepresentsFrame(nodes, nodes, 1, |nodes|, 0, |nodes|, 0, t);
    var refs; ghost var collected;
    refs, collected := GetLeafNodes(nodes, 0, t);
    leaves := seq(|refs|, k requires 0 <= k < |refs| => nodes[refs[k]]);
    LeavesAreCollected(boxes, ids, t, nodes, refs, collected, leaves);
    assert FromTree(boxes, leaves, t, collected);
    levels := ScheduleLeaves(leaves);
    ConflictFreeIsSafe(conns, boxes, leaves, levels);
  }

  method FoldUnion(boxes: seq<Box>) returns (bbox: Box)
    ensures bbox == UnionOf(boxes)
  {
    bbox := EMPTY_BOX;
    for i := 0 to |boxes|
      invariant bbox == UnionOf(boxes[..i])
    {
      assert boxes[..i + 1][..i] == boxes[..i];
      bbox := bbox.UnionWith(boxes[i]);
    }
    assert boxes[..|boxes|] == boxes;
  }

  lemma {:induction false} RestrictNoRepeat(ids: seq<nat>, keep: seq<nat>)
    requires NoRepeat(ids)
    ensures NoRepeat(Restrict(ids, keep)) && forall id :: id in Restrict(ids, keep) ==> id in ids
  {
    if |ids| > 0 {
      RestrictNoRepeat(ids[..|ids| - 1], keep);
      assert ids[|ids| - 1] !in ids[..|ids| - 1];
    }
  }

  lemma LeavesAreCollected(boxes: seq<Box>, ids: seq<nat>, t: Tree, nodes: seq<TreeNode>, refs: seq<nat>,
                           collected: seq<Tree>, leaves: seq<TreeNode>)
    requires WellBuilt(t, boxes) && t.ids == ids && |ids| == |boxes|
    requires forall i :: 0 <= i < |ids| ==> ids[i] == i
    requires AllRepresent(nodes, refs, collected) && Permutation(collected, Leaves(t))
    requires |leaves| == |refs|
    requires forall k :: 0 <= k < |refs| && refs[k] < |nodes| ==> leaves[k] == nodes[refs[k]]
    ensures forall k :: 0 <= k < |leaves| ==> Encloses(leaves[k], boxes)
    ensures forall c :: 0 <= c < |boxes| ==> InOneLeaf(leaves, c)
    ensures forall k :: 0 <= k < |leaves| ==> LeafIds(leaves[k], |boxes|)
  {
    forall k | 0 <= k < |leaves| ensures leaves[k].connectionIds == collected[k].ids && Encloses(leaves[k], boxes) {
      assert Represents(nodes, 0, |nodes|, refs[k], collected[k]);
      CollectedLeaf(t, boxes, collected, k);
    }
    forall k | 0 <= k < |leaves| ensures LeafIds(leaves[k], |boxes|) {
      CollectedLeaf(t, boxes, collected, k);
      RestrictNoRepeat(t.ids, collected[k].ids);
    }
    forall c | 0 <= c < |boxes| ensures InOneLeaf(leaves, c) {
      assert ids[c] == c;
      CollectedOnce(t, boxes, collected, c);
      var k :| HeldBy(collected, c, k);
      assert OnlyIn(leaves, c, k);
    }
  }
}
