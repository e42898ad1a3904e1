/**
 The recursive partitioning ternary tree over connection boxes: PartitionTree::buildTree and
 PartitionTree::getLeafNodes (src/route/partitionTree.cpp).
 */
module PartitionTree {
  import opened Geometry
  import opened Cutline

  predicate InRange(ids: seq<nat>, boxes: seq<Box>) {
    forall k :: 0 <= k < |ids| ==> ids[k] < |boxes|
  }

  function Spans(ids: seq<nat>, boxes: seq<Box>, axis: bool): (s: seq<Interval>)
    requires InRange(ids, boxes)
    ensures |s| == |ids| && forall k :: 0 <= k < |ids| ==> s[k] == boxes[ids[k]].At(axis)
  {
    seq(|ids|, k requires 0 <= k < |ids| => boxes[ids[k]].At(axis))
  }

  /** A tree node's data: empty with the default box, or strictly valid boxes inside its own. */
  predicate NodeOk(ids: seq<nat>, box: Box, boxes: seq<Box>) {
    && InRange(ids, boxes)
    && Usable(box.x, Spans(ids, boxes, false))
    && Usable(box.y, Spans(ids, boxes, true))
  }

  predicate CandidateOn(ids: seq<nat>, box: Box, boxes: seq<Box>, axis: bool, x: int)
    requires InRange(ids, boxes)
  {
    Candidate(box.At(axis), Spans(ids, boxes, axis), x)
  }

  function ScoreOn(ids: seq<nat>, box: Box, boxes: seq<Box>, axis: bool, x: int): real
    requires NodeOk(ids, box, boxes)
  {
    ScoreAt(box.At(axis), Spans(ids, boxes, axis), x)
  }

  /**
   No cut means that no column or row qualifies; a cut is the best balanced one over both
   axes, the first such column, or the first such row if every column scores worse.
   */
  ghost predicate IsBestCut(ids: seq<nat>, box: Box, boxes: seq<Box>, cut: Cut)
    requires NodeOk(ids, box, boxes)
  {
    match cut
    case NoCut => forall a, x :: !CandidateOn(ids, box, boxes, a, x)
    case Cut(axis, pos) =>
      var at := pos - box.At(axis).low;
      && CandidateOn(ids, box, boxes, axis, at)
      && (forall a, x :: CandidateOn(ids, box, boxes, a, x) ==>
            ScoreOn(ids, box, boxes, axis, at) <= ScoreOn(ids, box, boxes, a, x))
      && (forall x :: 0 <= x < at ==> ScoreOn(ids, box, boxes, axis, at) < ScoreOn(ids, box, boxes, axis, x))
      && (axis ==> forall x :: CandidateOn(ids, box, boxes, false, x) ==>
            ScoreOn(ids, box, boxes, axis, at) < ScoreOn(ids, box, boxes, false, x))
  }

  lemma ScoreBelowTwo(span: Interval, spans: seq<Interval>, x: int)
    requires Usable(span, spans) && Candidate(span, spans, x)
    ensures ScoreAt(span, spans, x) <= 1.0
  {
    EmptyHasNoCandidate(span, spans);
    CandidateIsBothSides(span, spans, x);
    ScoreRange(CountBefore(span, spans, x), CountAfter(span, spans, x));
  }

  method FindCut(ids: seq<nat>, box: Box, boxes: seq<Box>) returns (cut: Cut)
    requires NodeOk(ids, box, boxes)
    ensures IsBestCut(ids, box, boxes, cut)
  {
    var xs, ys := Spans(ids, boxes, false), Spans(ids, boxes, true);
    var cutX, scoreX := ScanAxis(box.x, xs, false, NoCut, INT_MAX as real);
    var score;
    cut, score := ScanAxis(box.y, ys, true, cutX, scoreX);
    if cut.NoCut? {
      forall a, x ensures !CandidateOn(ids, box, boxes, a, x) {
        if CandidateOn(ids, box, boxes, a, x) {
          if a { ScoreBelowTwo(box.y, ys, x); } else { ScoreBelowTwo(box.x, xs, x); }
          assert false;
        }
      }
    }
  }

  /** Where a connection goes: entirely left of the line, entirely right of it, or across. */
  datatype Side = OnLeft | OnRight | Across

  function SideOf(s: Interval, pos: int): Side {
    if s.high <= pos then OnLeft else if s.low >= pos then OnRight else Across
  }

  function Select(ids: seq<nat>, boxes: seq<Box>, axis: bool, pos: int, side: Side): (r: seq<nat>)
    requires InRange(ids, boxes)
    ensures InRange(r, boxes)
  {
    if |ids| == 0 then []
    else
      var id, front := ids[|ids| - 1], Select(ids[..|ids| - 1], boxes, axis, pos, side);
      if SideOf(boxes[id].At(axis), pos) == side then front + [id] else front
  }

  lemma SelectMember(ids: seq<nat>, boxes: seq<Box>, axis: bool, pos: int, side: Side, id: nat)
    requires InRange(ids, boxes)
    ensures id in Select(ids, boxes, axis, pos, side) <==>
            id in ids && SideOf(boxes[id].At(axis), pos) == side
  {
    if |ids| > 0 {
      SelectMember(ids[..|ids| - 1], boxes, axis, pos, side, id);
      assert ids == ids[..|ids| - 1] + [ids[|ids| - 1]];
    }
  }

  lemma SelectSizes(ids: seq<nat>, boxes: seq<Box>, axis: bool, pos: int)
    requires InRange(ids, boxes)
    ensures |Select(ids, boxes, axis, pos, OnLeft)| + |Select(ids, boxes, axis, pos, OnRight)| +
            |Select(ids, boxes, axis, pos, Across)| == |ids|
  {
    if |ids| > 0 { SelectSizes(ids[..|ids| - 1], boxes, axis, pos); }
  }

  /** The smallest box around the connections; the default box if there are none. */
  function Hull(ids: seq<nat>, boxes: seq<Box>): Box
    requires InRange(ids, boxes)
  {
    if |ids| == 0 then EMPTY_BOX
    else
      var b := boxes[ids[|ids| - 1]];
      Hull(ids[..|ids| - 1], boxes).Update(b.x.low, b.y.low).Update(b.x.high, b.y.high)
  }

  lemma HullContains(ids: seq<nat>, boxes: seq<Box>, k: nat)
    requires InRange(ids, boxes) && k < |ids|
    ensures Hull(ids, boxes).Contains(boxes[ids[k]])
  {
    if k < |ids| - 1 { HullContains(ids[..|ids| - 1], boxes, k); }
  }

  lemma HullWithin(ids: seq<nat>, boxes: seq<Box>, outer: Box)
    requires InRange(ids, boxes) && |ids| > 0
    requires forall k :: 0 <= k < |ids| ==> boxes[ids[k]].IsValid() && outer.Contains(boxes[ids[k]])
    requires INT_MIN < outer.x.low && outer.x.high < INT_MAX && INT_MIN < outer.y.low && outer.y.high < INT_MAX
    ensures outer.Contains(Hull(ids, boxes))
  {
    var b := boxes[ids[|ids| - 1]];
    assert outer.Contains(b) && b.IsValid();
    if |ids| > 1 { HullWithin(ids[..|ids| - 1], boxes, outer); }
  }

  function LeftBox(box: Box, axis: bool, pos: int): Box { box.With(axis, Interval(box.At(axis).low, pos)) }

  function RightBox(box: Box, axis: bool, pos: int): Box { box.With(axis, Interval(pos, box.At(axis).high)) }

  /** A node keeps every connection box inside its own. */
  lemma NodeContains(ids: seq<nat>, box: Box, boxes: seq<Box>, id: nat)
    requires NodeOk(ids, box, boxes) && id in ids
    ensures box.Contains(boxes[id]) && boxes[id].IsStrictValid()
  {
    var k :| 0 <= k < |ids| && ids[k] == id;
    assert box.x.Contains(Spans(ids, boxes, false)[k]) && box.y.Contains(Spans(ids, boxes, true)[k]);
  }

  lemma InhabitedBySelection(ids: seq<nat>, box: Box, boxes: seq<Box>, sub: seq<nat>, subBox: Box)
    requires NodeOk(ids, box, boxes) && |ids| > 0
    requires InRange(sub, boxes) && |sub| > 0
    requires box.Contains(subBox)
    requires forall id :: id in sub ==> id in ids && subBox.Contains(boxes[id])
    ensures NodeOk(sub, subBox, boxes)
  {
    forall k | 0 <= k < |sub| ensures boxes[sub[k]].IsStrictValid() && subBox.Contains(boxes[sub[k]]) {
      assert sub[k] in sub;
      NodeContains(ids, box, boxes, sub[k]);
    }
    assert Inhabited(subBox.x, Spans(sub, boxes, false));
    assert Inhabited(subBox.y, Spans(sub, boxes, true));
  }

  /** A chosen cut leaves both sides non-empty, so that every part is smaller and well formed. */
  lemma CutShrinks(ids: seq<nat>, box: Box, boxes: seq<Box>, axis: bool, pos: int)
    requires NodeOk(ids, box, boxes)
    requires CandidateOn(ids, box, boxes, axis, pos - box.At(axis).low)
    ensures forall side :: |Select(ids, boxes, axis, pos, side)| < |ids|
    ensures |Select(ids, boxes, axis, pos, OnLeft)| > 0 && |Select(ids, boxes, axis, pos, OnRight)| > 0
    ensures NodeOk(Select(ids, boxes, axis, pos, OnLeft), LeftBox(box, axis, pos), boxes)
    ensures NodeOk(Select(ids, boxes, axis, pos, OnRight), RightBox(box, axis, pos), boxes)
    ensures NodeOk(Select(ids, boxes, axis, pos, Across), Hull(Select(ids, boxes, axis, pos, Across), boxes), boxes)
  {
    var span, spans := box.At(axis), Spans(ids, boxes, axis);
    EmptyHasNoCandidate(span, spans);
    CandidateIsBothSides(span, spans, pos - span.low);
    var l, r, m := Select(ids, boxes, axis, pos, OnLeft), Select(ids, boxes, axis, pos, OnRight),
      Select(ids, boxes, axis, pos, Across);
    var i :| 0 <= i < |spans| && spans[i].high <= pos;
    var j :| 0 <= j < |spans| && pos < spans[j].low;
    assert spans[j].IsStrictValid() && span.Contains(spans[i]) && span.Contains(spans[j]);
    SelectMember(ids, boxes, axis, pos, OnLeft, ids[i]);
    SelectMember(ids, boxes, axis, pos, OnRight, ids[j]);
    SelectSizes(ids, boxes, axis, pos);
    assert |l| < |ids| && |r| < |ids| && |m| < |ids|;
    forall side ensures |Select(ids, boxes, axis, pos, side)| < |ids| {
      match side { case OnLeft => case OnRight => case Across => }
    }
    SelectedInside(ids, box, boxes, axis, pos);
    InhabitedBySelection(ids, box, boxes, l, LeftBox(box, axis, pos));
    InhabitedBySelection(ids, box, boxes, r, RightBox(box, axis, pos));
    if |m| > 0 {
      AcrossInside(ids, box, boxes, m);
      InhabitedBySelection(ids, box, boxes, m, Hull(m, boxes));
    }
  }

  lemma SelectedInside(ids: seq<nat>, box: Box, boxes: seq<Box>, axis: bool, pos: int)
    requires NodeOk(ids, box, boxes)
    ensures forall id :: id in Select(ids, boxes, axis, pos, OnLeft) ==>
              id in ids && LeftBox(box, axis, pos).Contains(boxes[id])
    ensures forall id :: id in Select(ids, boxes, axis, pos, OnRight) ==>
              id in ids && RightBox(box, axis, pos).Contains(boxes[id])
    ensures forall id :: id in Select(ids, boxes, axis, pos, Across) ==> id in ids
  {
    forall id, side | id in Select(ids, boxes, axis, pos, side)
      ensures id in ids && box.Contains(boxes[id]) && SideOf(boxes[id].At(axis), pos) == side
    {
      SelectMember(ids, boxes, axis, pos, side, id);
      NodeContains(ids, box, boxes, id);
    }
  }

  lemma AcrossInside(ids: seq<nat>, box: Box, boxes: seq<Box>, m: seq<nat>)
    requires NodeOk(ids, box, boxes) && |ids| > 0
    requires InRange(m, boxes) && |m| > 0 && forall id :: id in m ==> id in ids
    ensures box.Contains(Hull(m, boxes))
    ensures forall id :: id in m ==> Hull(m, boxes).Contains(boxes[id])
  {
    forall k | 0 <= k < |m| ensures boxes[m[k]].IsStrictValid() && box.Contains(boxes[m[k]]) {
      assert m[k] in m;
      NodeContains(ids, box, boxes, m[k]);
    }
    HullWithin(m, boxes, box);
    forall id | id in m ensures Hull(m, boxes).Contains(boxes[id]) {
      var k :| 0 <= k < |m| && m[k] == id;
      HullContains(m, boxes, k);
    }
  }

  /** The tree as a value. */
  datatype Tree =
    | Leaf(ids: seq<nat>, box: Box)
    | Node(ids: seq<nat>, box: Box, axis: bool, pos: int, left: Tree, right: Tree, middle: Tree)

  /** The tree that buildTree makes: cut as long as some cutline leaves both sides non-empty. */
  ghost predicate WellBuilt(t: Tree, boxes: seq<Box>)
    decreases t
  {
    && NodeOk(t.ids, t.box, boxes)
    && match t
       case Leaf(ids, box) => IsBestCut(ids, box, boxes, NoCut)
       case Node(ids, box, axis, pos, left, right, middle) =>
         && IsBestCut(ids, box, boxes, Cut(axis, pos))
         && left.ids == Select(ids, boxes, axis, pos, OnLeft) && left.box == LeftBox(box, axis, pos)
         && right.ids == Select(ids, boxes, axis, pos, OnRight) && right.box == RightBox(box, axis, pos)
         && middle.ids == Select(ids, boxes, axis, pos, Across) && middle.box == Hull(middle.ids, boxes)
         && WellBuilt(left, boxes) && WellBuilt(right, boxes) && WellBuilt(middle, boxes)
  }

  /** Children of a node, as indices into the node store, with the cutline. */
  datatype Link = NoLink | Link(axis: bool, pos: int, left: nat, right: nat, middle: nat)

  datatype TreeNode = TreeNode(connectionIds: seq<nat>, bbox: Box, link: Link)

  /** The stored nodes reachable from node i, all of them in lo..hi except i, form the tree t. */
  ghost predicate Represents(nodes: seq<TreeNode>, lo: nat, hi: nat, i: nat, t: Tree)
    decreases t
  {
    && i < |nodes| && hi <= |nodes|
    && nodes[i].connectionIds == t.ids && nodes[i].bbox == t.box
    && match t
       case Leaf(_, _) => nodes[i].link.NoLink?
       case Node(_, _, axis, pos, left, right, middle) =>
         var link := nodes[i].link;
         && link.Link? && link.axis == axis && link.pos == pos
         && lo <= link.left < hi && lo <= link.right < hi && lo <= link.middle < hi
         && Represents(nodes, lo, hi, link.left, left)
         && Represents(nodes, lo, hi, link.right, right)
         && Represents(nodes, lo, hi, link.middle, middle)
  }

  /** Only the stored nodes of the range matter, and a wider range does no harm. */
  lemma {:induction false} RepresentsFrame(nodes: seq<TreeNode>, nodes': seq<TreeNode>, lo: nat, hi: nat,
                                           lo': nat, hi': nat, i: nat, t: Tree)
    requires Represents(nodes, lo, hi, i, t)
    requires lo' <= lo && hi <= hi' <= |nodes'| && i < |nodes'|
    requires nodes'[i] == nodes[i] && forall j :: lo <= j < hi ==> nodes'[j] == nodes[j]
    ensures Represents(nodes', lo', hi', i, t)
    decreases t
  {
    if t.Node? {
      RepresentsFrame(nodes, nodes', lo, hi, lo', hi', nodes[i].link.left, t.left);
      RepresentsFrame(nodes, nodes', lo, hi, lo', hi', nodes[i].link.right, t.right);
      RepresentsFrame(nodes, nodes', lo, hi, lo', hi', nodes[i].link.middle, t.middle);
    }
  }

  /** Distribute connections over the two sides and the line, in order, and box the latter. */
  method Distribute(ids: seq<nat>, boxes: seq<Box>, axis: bool, pos: int)
    returns (left: seq<nat>, right: seq<nat>, middle: seq<nat>, middleBox: Box)
    requires InRange(ids, boxes)
    ensures left == Select(ids, boxes, axis, pos, OnLeft)
    ensures right == Select(ids, boxes, axis, pos, OnRight)
    ensures middle == Select(ids, boxes, axis, pos, Across)
    ensures middleBox == Hull(middle, boxes)
  {
    left, right, middle, middleBox := [], [], [], EMPTY_BOX;
    for i := 0 to |ids|
      invariant left == Select(ids[..i], boxes, axis, pos, OnLeft)
      invariant right == Select(ids[..i], boxes, axis, pos, OnRight)
      invariant middle == Select(ids[..i], boxes, axis, pos, Across)
      invariant middleBox == Hull(middle, boxes)
    {
      assert ids[..i + 1][..i] == ids[..i];
      var b := boxes[ids[i]];
      if b.At(axis).high <= pos {
        left := left + [ids[i]];
      } else if b.At(axis).low >= pos {
        right := right + [ids[i]];
      } else {
        assert (middle + [ids[i]])[..|middle|] == middle;
        middle := middle + [ids[i]];
        middleBox := middleBox.Update(b.x.low, b.y.low);
        middleBox := middleBox.Update(b.x.high, b.y.high);
      }
    }
    assert ids[..|ids|] == ids;
  }

  predicate ChildData(n: TreeNode, ids: seq<nat>, box: Box) { n.connectionIds == ids && n.bbox == box }

  /** The tree with its node store; nodes refer to each other by their place in the store. */
  class PartitionTree {
    const boxes: seq<Box>
    var nodes: seq<TreeNode>

    constructor (boxes: seq<Box>, ids: seq<nat>, bbox: Box)
      ensures this.boxes == boxes && nodes == [TreeNode(ids, bbox, NoLink)]
    {
      this.boxes := boxes;
      nodes := [TreeNode(ids, bbox, NoLink)];
    }

    /** A node that has no children yet and whose boxes are in order. */
    ghost predicate Buildable(i: nat)
      reads this
    {
      i < |nodes| && nodes[i].link.NoLink? && NodeOk(nodes[i].connectionIds, nodes[i].bbox, boxes)
    }

    /** Allocate the three children of node i along the cutline and link them. */
    method OpenNode(i: nat, axis: bool, pos: int)
      requires Buildable(i)
      requires CandidateOn(nodes[i].connectionIds, nodes[i].bbox, boxes, axis, pos - nodes[i].bbox.At(axis).low)
      modifies this
      ensures |nodes| == old(|nodes|) + 3
      ensures forall j :: 0 <= j < old(|nodes|) && j != i ==> nodes[j] == old(nodes[j])
      ensures nodes[i] == old(nodes[i]).(link := Link(axis, pos, |nodes| - 3, |nodes| - 2, |nodes| - 1))
      ensures Buildable(|nodes| - 3) && Buildable(|nodes| - 2) && Buildable(|nodes| - 1)
      ensures forall side :: |Select(nodes[i].connectionIds, boxes, axis, pos, side)| < |nodes[i].connectionIds|
      ensures ChildData(nodes[|nodes| - 3], Select(nodes[i].connectionIds, boxes, axis, pos, OnLeft),
                        LeftBox(nodes[i].bbox, axis, pos))
      ensures ChildData(nodes[|nodes| - 2], Select(nodes[i].connectionIds, boxes, axis, pos, OnRight),
                        RightBox(nodes[i].bbox, axis, pos))
      ensures ChildData(nodes[|nodes| - 1], Select(nodes[i].connectionIds, boxes, axis, pos, Across),
                        Hull(Select(nodes[i].connectionIds, boxes, axis, pos, Across), boxes))
    {
      var ids, box := nodes[i].connectionIds, nodes[i].bbox;
      CutShrinks(ids, box, boxes, axis, pos);
      var l, r, m, hull := Distribute(ids, boxes, axis, pos);
      var left, right, middle := TreeNode(l, LeftBox(box, axis, pos), NoLink),
        TreeNode(r, RightBox(box, axis, pos), NoLink), TreeNode(m, hull, NoLink);
      var link := Link(axis, pos, |nodes|, |nodes| + 1, |nodes| + 2);
      nodes := nodes[i := nodes[i].(link := link)] + [left, right, middle];
    }

    /** Build the tree below node i; it terminates because every part of a cut is smaller. */
    method BuildTree(i: nat) returns (ghost t: Tree)
      requires Buildable(i)
      modifies this
      ensures |nodes| >= old(|nodes|)
      ensures forall j :: 0 <= j < old(|nodes|) && j != i ==> nodes[j] == old(nodes[j])
      ensures Represents(nodes, old(|nodes|), |nodes|, i, t)
      ensures t.ids == old(nodes[i].connectionIds) && t.box == old(nodes[i].bbox)
      ensures WellBuilt(t, boxes)
      decreases |nodes[i].connectionIds|, 1
    {
      var ids, box := nodes[i].connectionIds, nodes[i].bbox;
      var cut := FindCut(ids, box, boxes);
      if cut.NoCut? {
        t := Leaf(ids, box);
      } else {
        OpenNode(i, cut.axis, cut.pos);
        ghost var l, r, m := BuildChildren(|nodes| - 3, |ids|);
        t := Node(ids, box, cut.axis, cut.pos, l, r, m);
      }
    }

    /** The recursive calls on three neighbouring nodes at the end of the store. */
    method BuildChildren(first: nat, ghost size: nat) returns (ghost l: Tree, ghost r: Tree, ghost m: Tree)
      requires first + 3 == |nodes|
      requires Buildable(first) && Buildable(first + 1) && Buildable(first + 2)
      requires |nodes[first].connectionIds| < size && |nodes[first + 1].connectionIds| < size &&
               |nodes[first + 2].connectionIds| < size
      modifies this
      ensures |nodes| >= old(|nodes|)
      ensures forall j :: 0 <= j < first ==> nodes[j] == old(nodes[j])
      ensures Represents(nodes, first, |nodes|, first, l) && WellBuilt(l, boxes)
      ensures Represents(nodes, first, |nodes|, first + 1, r) && WellBuilt(r, boxes)
      ensures Represents(nodes, first, |nodes|, first + 2, m) && WellBuilt(m, boxes)
      ensures l.ids == old(nodes[first].connectionIds) && l.box == old(nodes[first].bbox)
      ensures r.ids == old(nodes[first + 1].connectionIds) && r.box == old(nodes[first + 1].bbox)
      ensures m.ids == old(nodes[first + 2].connectionIds) && m.box == old(nodes[first + 2].bbox)
      decreases size, 0
    {
      l := BuildTree(first);
      ghost var nodes1 := nodes;
      r := BuildTree(first + 1);
      ghost var nodes2 := nodes;
      m := BuildTree(first + 2);
      RepresentsFrame(nodes1, nodes, first + 3, |nodes1|, first, |nodes|, first, l);
      RepresentsFrame(nodes2, nodes, |nodes1|, |nodes2|, first, |nodes|, first + 1, r);
      RepresentsFrame(nodes, nodes, |nodes2|, |nodes|, first, |nodes|, first + 2, m);
    }
  }
}
