/**
 The leaves of the partition tree: what they hold, and their breadth-first collection
 (PartitionTree::getLeafNodes, src/route/partitionTree.cpp).
 */
module PartitionLeaves {
  import opened Geometry
  import opened Cutline
  import opened PartitionTree
  import opened Counting

  function Leaves(t: Tree): (r: seq<Tree>)
    ensures forall i :: 0 <= i < |r| ==> r[i].Leaf?
  {
    match t
    case Leaf(_, _) => [t]
    case Node(_, _, _, _, l, r, m) => Leaves(l) + Leaves(r) + Leaves(m)
  }

  /** The elements of ids that occur in keep, in their order in ids. */
  function Restrict(ids: seq<nat>, keep: seq<nat>): seq<nat> {
    if |ids| == 0 then []
    else
      var id, front := ids[|ids| - 1], Restrict(ids[..|ids| - 1], keep);
      if id in keep then front + [id] else front
  }

  lemma RestrictSame(ids: seq<nat>, keep: seq<nat>)
    requires forall id :: id in ids ==> id in keep
    ensures Restrict(ids, keep) == ids
  {
    if |ids| > 0 {
      RestrictSame(ids[..|ids| - 1], keep);
      assert ids == ids[..|ids| - 1] + [ids[|ids| - 1]];
    }
  }

  lemma RestrictSelect(ids: seq<nat>, boxes: seq<Box>, axis: bool, pos: int, side: Side, keep: seq<nat>)
    requires InRange(ids, boxes)
    requires forall id :: id in keep && id < |boxes| ==> SideOf(boxes[id].At(axis), pos) == side
    ensures Restrict(Select(ids, boxes, axis, pos, side), keep) == Restrict(ids, keep)
  {
    if |ids| > 0 {
      var front, id := ids[..|ids| - 1], ids[|ids| - 1];
      RestrictSelect(front, boxes, axis, pos, side, keep);
      var s := Select(front, boxes, axis, pos, side);
      assert (s + [id])[..|s|] == s;
    }
  }

  /** Leaf i of t: its connections are a part of t's in the same order, inside its box. */
  ghost predicate LeafOf(leaf: Tree, t: Tree, boxes: seq<Box>) {
    && leaf.Leaf? && NodeOk(leaf.ids, leaf.box, boxes)
    && (forall id :: id in leaf.ids ==> id in t.ids && id < |boxes| && leaf.box.Contains(boxes[id]))
    && Restrict(t.ids, leaf.ids) == leaf.ids
  }

  /** Every leaf keeps its connections in root order and inside its box. */
  lemma {:induction false} LeavesKeepOrder(t: Tree, boxes: seq<Box>)
    requires WellBuilt(t, boxes)
    ensures forall i :: 0 <= i < |Leaves(t)| ==> LeafOf(Leaves(t)[i], t, boxes)
    decreases t
  {
    match t
    case Leaf(ids, box) =>
      RestrictSame(ids, ids);
      forall id | id in ids ensures box.Contains(boxes[id]) { NodeContains(ids, box, boxes, id); }
    case Node(ids, box, axis, pos, l, r, m) =>
      LeavesKeepOrder(l, boxes);
      LeavesKeepOrder(r, boxes);
      LeavesKeepOrder(m, boxes);
      forall i | 0 <= i < |Leaves(t)| ensures LeafOf(Leaves(t)[i], t, boxes) {
        var leaf := Leaves(t)[i];
        if i < |Leaves(l)| { assert leaf == Leaves(l)[i]; LiftLeaf(leaf, t, l, boxes, OnLeft); }
        else if i < |Leaves(l)| + |Leaves(r)| {
          assert leaf == Leaves(r)[i - |Leaves(l)|];
          LiftLeaf(leaf, t, r, boxes, OnRight);
        } else {
          assert leaf == Leaves(m)[i - |Leaves(l)| - |Leaves(r)|];
          LiftLeaf(leaf, t, m, boxes, Across);
        }
      }
  }

  lemma LiftLeaf(leaf: Tree, t: Tree, child: Tree, boxes: seq<Box>, side: Side)
    requires t.Node? && InRange(t.ids, boxes)
    requires child.ids == Select(t.ids, boxes, t.axis, t.pos, side)
    requires LeafOf(leaf, child, boxes)
    ensures LeafOf(leaf, t, boxes)
  {
    forall id | id in leaf.ids ensures id in t.ids && SideOf(boxes[id].At(t.axis), t.pos) == side {
      SelectMember(t.ids, boxes, t.axis, t.pos, side, id);
    }
    RestrictSelect(t.ids, boxes, t.axis, t.pos, side, leaf.ids);
  }

  /** Index of the one leaf that a connection ends up in. */
  function LeafIndex(t: Tree, boxes: seq<Box>, id: nat): nat
    requires id < |boxes|
  {
    match t
    case Leaf(_, _) => 0
    case Node(_, _, axis, pos, l, r, m) =>
      match SideOf(boxes[id].At(axis), pos)
      case OnLeft => LeafIndex(l, boxes, id)
      case OnRight => |Leaves(l)| + LeafIndex(r, boxes, id)
      case Across => |Leaves(l)| + |Leaves(r)| + LeafIndex(m, boxes, id)
  }

  /** Exactly the j-th of the trees holds the connection. */
  predicate HeldBy(ts: seq<Tree>, id: nat, j: nat) {
    j < |ts| && forall i :: 0 <= i < |ts| ==> (id in ts[i].ids <==> i == j)
  }

  predicate HeldByNone(ts: seq<Tree>, id: nat) {
    forall i :: 0 <= i < |ts| ==> id !in ts[i].ids
  }

  lemma HeldAppend(a: seq<Tree>, b: seq<Tree>, id: nat, j: nat)
    ensures HeldBy(a, id, j) && HeldByNone(b, id) ==> HeldBy(a + b, id, j)
    ensures HeldByNone(a, id) && HeldBy(b, id, j) ==> HeldBy(a + b, id, |a| + j)
    ensures HeldByNone(a, id) && HeldByNone(b, id) ==> HeldByNone(a + b, id)
  {
  }

  lemma HeldAppend3(l: seq<Tree>, r: seq<Tree>, m: seq<Tree>, id: nat, j: nat)
    ensures HeldBy(l, id, j) && HeldByNone(r, id) && HeldByNone(m, id) ==> HeldBy(l + r + m, id, j)
    ensures HeldByNone(l, id) && HeldBy(r, id, j) && HeldByNone(m, id) ==> HeldBy(l + r + m, id, |l| + j)
    ensures HeldByNone(l, id) && HeldByNone(r, id) && HeldBy(m, id, j) ==> HeldBy(l + r + m, id, |l| + |r| + j)
  {
    HeldAppend(l, r, id, j);
    HeldAppend(l + r, m, id, j);
    HeldAppend(l + r, m, id, |l| + j);
  }

  /** How the connections of a node are handed down, without the choice of the cutline. */
  ghost predicate HandedDown(t: Tree, boxes: seq<Box>)
    decreases t
  {
    && InRange(t.ids, boxes)
    && (t.Node? ==>
          && t.left.ids == Select(t.ids, boxes, t.axis, t.pos, OnLeft) && HandedDown(t.left, boxes)
          && t.right.ids == Select(t.ids, boxes, t.axis, t.pos, OnRight) && HandedDown(t.right, boxes)
          && t.middle.ids == Select(t.ids, boxes, t.axis, t.pos, Across) && HandedDown(t.middle, boxes))
  }

  lemma {:induction false} WellBuiltHandsDown(t: Tree, boxes: seq<Box>)
    requires WellBuilt(t, boxes)
    ensures HandedDown(t, boxes)
    decreases t
  {
    if t.Node? {
      WellBuiltHandsDown(t.left, boxes);
      WellBuiltHandsDown(t.right, boxes);
      WellBuiltHandsDown(t.middle, boxes);
    }
  }

  lemma {:induction false} HeldOrAbsent(t: Tree, boxes: seq<Box>, id: nat)
    requires HandedDown(t, boxes)
    ensures id in t.ids ==> id < |boxes| && HeldBy(Leaves(t), id, LeafIndex(t, boxes, id))
    ensures id !in t.ids ==> HeldByNone(Leaves(t), id)
    decreases t
  {
    if t.Node? {
      SelectMember(t.ids, boxes, t.axis, t.pos, OnLeft, id);
      SelectMember(t.ids, boxes, t.axis, t.pos, OnRight, id);
      SelectMember(t.ids, boxes, t.axis, t.pos, Across, id);
      HeldOrAbsent(t.left, boxes, id);
      HeldOrAbsent(t.right, boxes, id);
      HeldOrAbsent(t.middle, boxes, id);
      HeldAppend(Leaves(t.left), Leaves(t.right), id, 0);
      HeldAppend(Leaves(t.left) + Leaves(t.right), Leaves(t.middle), id, 0);
      if id in t.ids {
        var child := match SideOf(boxes[id].At(t.axis), t.pos)
          case OnLeft => t.left case OnRight => t.right case Across => t.middle;
        HeldAppend3(Leaves(t.left), Leaves(t.right), Leaves(t.middle), id, LeafIndex(child, boxes, id));
      }
    }
  }

  /** The leaves partition the connections: each lies in exactly one leaf, LeafIndex. */
  lemma LeavesPartition(t: Tree, boxes: seq<Box>, id: nat)
    requires WellBuilt(t, boxes) && id in t.ids
    ensures id < |boxes| && HeldBy(Leaves(t), id, LeafIndex(t, boxes, id))
  {
    WellBuiltHandsDown(t, boxes);
    HeldOrAbsent(t, boxes, id);
  }

  // Breadth-first collection

  /** Occurrences of a leaf below the given trees. */
  function LeafCount(ts: seq<Tree>, x: Tree): nat {
    if |ts| == 0 then 0 else Count(Leaves(ts[0]), x) + LeafCount(ts[1..], x)
  }

  lemma {:induction false} LeafCountAppend(a: seq<Tree>, b: seq<Tree>, x: Tree)
    ensures LeafCount(a + b, x) == LeafCount(a, x) + LeafCount(b, x)
  {
    if |a| == 0 {
      assert a + b == b;
    } else {
      LeafCountAppend(a[1..], b, x);
      assert (a + b)[1..] == a[1..] + b;
    }
  }

  function Size(t: Tree): nat {
    match t
    case Leaf(_, _) => 1
    case Node(_, _, _, _, l, r, m) => 1 + Size(l) + Size(r) + Size(m)
  }

  function TotalSize(ts: seq<Tree>): nat { if |ts| == 0 then 0 else Size(ts[0]) + TotalSize(ts[1..]) }

  lemma TotalSizeAppend(a: seq<Tree>, b: seq<Tree>)
    ensures TotalSize(a + b) == TotalSize(a) + TotalSize(b)
  {
    if |a| == 0 { assert a + b == b; }
    else {
      TotalSizeAppend(a[1..], b);
      assert (a + b)[1..] == a[1..] + b;
    }
  }

  ghost predicate AllRepresent(nodes: seq<TreeNode>, refs: seq<nat>, ts: seq<Tree>) {
    |refs| == |ts| && forall k :: 0 <= k < |refs| ==> Represents(nodes, 0, |nodes|, refs[k], ts[k])
  }

  lemma LeafCountOne(t: Tree, x: Tree)
    ensures LeafCount([t], x) == Count(Leaves(t), x) && TotalSize([t]) == Size(t)
  {
    assert [t][1..] == [];
  }

  lemma ThreeTrees(l: Tree, r: Tree, m: Tree, x: Tree)
    ensures LeafCount([l, r, m], x) == Count(Leaves(l) + Leaves(r) + Leaves(m), x)
    ensures TotalSize([l, r, m]) == Size(l) + Size(r) + Size(m)
  {
    assert [l, r, m] == [l] + [r] + [m];
    LeafCountOne(l, x);
    LeafCountOne(r, x);
    LeafCountOne(m, x);
    LeafCountAppend([l] + [r], [m], x);
    LeafCountAppend([l], [r], x);
    TotalSizeAppend([l] + [r], [m]);
    TotalSizeAppend([l], [r]);
    CountAppend(Leaves(l) + Leaves(r), Leaves(m), x);
    CountAppend(Leaves(l), Leaves(r), x);
  }

  /** Replacing the first tree by its three children keeps the leaves and reduces the size. */
  lemma ExpandStep(trees: seq<Tree>, x: Tree)
    requires |trees| > 0 && trees[0].Node?
    ensures var expanded := trees[1..] + [trees[0].left, trees[0].right, trees[0].middle];
            LeafCount(expanded, x) == LeafCount(trees, x) && TotalSize(expanded) < TotalSize(trees)
  {
    var l, r, m := trees[0].left, trees[0].right, trees[0].middle;
    ThreeTrees(l, r, m, x);
    LeafCountAppend(trees[1..], [l, r, m], x);
    TotalSizeAppend(trees[1..], [l, r, m]);
  }

  lemma LeafStep(leaves: seq<Tree>, trees: seq<Tree>, x: Tree)
    requires |trees| > 0 && trees[0].Leaf?
    ensures Count(leaves + [trees[0]], x) + LeafCount(trees[1..], x) == Count(leaves, x) + LeafCount(trees, x)
  {
    CountSnoc(leaves, trees[0], x);
    CountSnoc([], trees[0], x);
    assert [] + [trees[0]] == [trees[0]];
  }

  lemma AllRepresentAppend(nodes: seq<TreeNode>, a: seq<nat>, ta: seq<Tree>, b: seq<nat>, tb: seq<Tree>)
    requires AllRepresent(nodes, a, ta) && AllRepresent(nodes, b, tb)
    ensures AllRepresent(nodes, a + b, ta + tb)
  {
    forall k | 0 <= k < |a + b| ensures Represents(nodes, 0, |nodes|, (a + b)[k], (ta + tb)[k]) {
      if k >= |a| { assert (a + b)[k] == b[k - |a|] && (ta + tb)[k] == tb[k - |a|]; }
    }
  }

  lemma Children(nodes: seq<TreeNode>, n: nat, u: Tree)
    requires Represents(nodes, 0, |nodes|, n, u)
    ensures nodes[n].link.NoLink? <==> u.Leaf?
    ensures u.Node? ==> AllRepresent(nodes, [nodes[n].link.left, nodes[n].link.right, nodes[n].link.middle],
                                     [u.left, u.right, u.middle])
  {
  }

  /** Collect the leaf nodes from the root on; they carry exactly the leaves of the tree value. */
  method GetLeafNodes(nodes: seq<TreeNode>, root: nat, ghost t: Tree) returns (refs: seq<nat>, ghost leaves: seq<Tree>)
    requires Represents(nodes, 0, |nodes|, root, t)
    ensures AllRepresent(nodes, refs, leaves)
    ensures Permutation(leaves, Leaves(t))
  {
    refs, leaves := [], [];
    var queue: seq<nat> := [root];
    ghost var trees := [t];
    assert [t][1..] == [];
    while |queue| > 0
      invariant AllRepresent(nodes, queue, trees) && AllRepresent(nodes, refs, leaves)
      invariant forall x :: Count(leaves, x) + LeafCount(trees, x) == Count(Leaves(t), x)
      decreases TotalSize(trees)
    {
      var n := queue[0];
      ghost var u := trees[0];
      Children(nodes, n, u);
      assert AllRepresent(nodes, queue[1..], trees[1..]);
      if nodes[n].link.NoLink? {
        forall x ensures Count(leaves + [u], x) + LeafCount(trees[1..], x) == Count(Leaves(t), x) {
          LeafStep(leaves, trees, x);
        }
        AllRepresentAppend(nodes, refs, leaves, [n], [u]);
        refs, leaves := refs + [n], leaves + [u];
        queue, trees := queue[1..], trees[1..];
      } else {
        ghost var expanded := trees[1..] + [u.left, u.right, u.middle];
        forall x ensures LeafCount(expanded, x) == LeafCount(trees, x) { ExpandStep(trees, x); }
        ExpandStep(trees, t);
        var link := nodes[n].link;
        AllRepresentAppend(nodes, queue[1..], trees[1..], [link.left, link.right, link.middle],
                           [u.left, u.right, u.middle]);
        queue, trees := queue[1..] + [link.left, link.right, link.middle], expanded;
      }
    }
  }

  // The root box

  /** The fold of UnionWith over all connection boxes, starting from the default box. */
  function UnionOf(boxes: seq<Box>): Box {
    if |boxes| == 0 then EMPTY_BOX else UnionOf(boxes[..|boxes| - 1]).UnionWith(boxes[|boxes| - 1])
  }

  lemma UnionOfValid(boxes: seq<Box>)
    requires |boxes| > 0 && forall i :: 0 <= i < |boxes| ==> boxes[i].IsStrictValid()
    ensures UnionOf(boxes).IsStrictValid()
    ensures forall i :: 0 <= i < |boxes| ==> UnionOf(boxes).Contains(boxes[i])
  {
    if |boxes| > 1 { UnionOfValid(boxes[..|boxes| - 1]); }
  }

  lemma UnionOfBounded(boxes: seq<Box>, outer: Box)
    requires |boxes| > 0 && forall i :: 0 <= i < |boxes| ==> boxes[i].IsStrictValid() && outer.Contains(boxes[i])
    ensures outer.Contains(UnionOf(boxes))
  {
    if |boxes| > 1 { UnionOfBounded(boxes[..|boxes| - 1], outer); }
  }

  lemma RootAxisOk(boxes: seq<Box>, ids: seq<nat>, outer: Box, axis: bool)
    requires forall i :: 0 <= i < |boxes| ==> boxes[i].IsStrictValid() && outer.Contains(boxes[i])
    requires -0x2000_0000 <= outer.At(axis).low && outer.At(axis).high <= 0x2000_0000
    requires InRange(ids, boxes) && (|ids| == 0 ==> |boxes| == 0)
    ensures Usable(UnionOf(boxes).At(axis), Spans(ids, boxes, axis))
  {
    if |boxes| > 0 {
      UnionOfValid(boxes);
      UnionOfBounded(boxes, outer);
    }
  }

  /** The union of valid boxes is the least box around them all. */
  lemma {:induction false} UnionIsLeast(boxes: seq<Box>, outer: Box)
    requires |boxes| > 0 && forall k :: 0 <= k < |boxes| ==> boxes[k].IsValid()
    ensures UnionOf(boxes).IsValid()
    ensures outer.Contains(UnionOf(boxes)) <==> forall k :: 0 <= k < |boxes| ==> outer.Contains(boxes[k])
  {
    var front, last := boxes[..|boxes| - 1], |boxes| - 1;
    if last > 0 {
      UnionIsLeast(front, outer);
      assert forall k :: 0 <= k < last ==> front[k] == boxes[k];
    } else {
      assert front == [];
    }
  }

  /** The root of the tree is well formed whenever the connection boxes are. */
  lemma RootOk(boxes: seq<Box>, ids: seq<nat>, outer: Box)
    requires forall i :: 0 <= i < |boxes| ==> boxes[i].IsStrictValid() && outer.Contains(boxes[i])
    requires -0x2000_0000 <= outer.x.low && outer.x.high <= 0x2000_0000
    requires -0x2000_0000 <= outer.y.low && outer.y.high <= 0x2000_0000
    requires InRange(ids, boxes) && (|ids| == 0 ==> |boxes| == 0)
    ensures NodeOk(ids, UnionOf(boxes), boxes)
  {
    RootAxisOk(boxes, ids, outer, false);
    RootAxisOk(boxes, ids, outer, true);
  }
}
