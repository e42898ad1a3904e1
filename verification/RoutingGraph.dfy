/**
 Route nodes and their child lists (src/db/routeNode.h), and which children a connection
 may enter (src/db/routeNodeGraph.cpp; aStarRoute::isAccessible, isAccessiblePinbounce and
 isAccessiblePinfeedI in src/route/aStarRoute.cpp).
 */
module RoutingGraph {
  import opened Geometry

  datatype NodeType = PINFEED_O | PINFEED_I | PINBOUNCE | SUPER_LONG_LINE | LAGUNA_I | WIRE

  const INLINE_CAPACITY: nat := 8

  /** Child list of one node: the first eight children inline, the others in a vector. */
  class ChildList {
    var inlineChildren: array<nat>
    var inlineSize: nat
    var overflowChildren: seq<nat>

    ghost predicate Valid()
      reads this
    {
      && inlineChildren.Length == INLINE_CAPACITY && inlineSize <= INLINE_CAPACITY
      && (overflowChildren != [] ==> inlineSize == INLINE_CAPACITY)
    }

    ghost function Children(): seq<nat>
      requires Valid()
      reads this, inlineChildren
    {
      inlineChildren[..inlineSize] + overflowChildren
    }

    constructor ()
      ensures Valid() && Children() == [] && fresh(inlineChildren)
    {
      inlineChildren := new nat[INLINE_CAPACITY](_ => 0);
      inlineSize, overflowChildren := 0, [];
    }

    method AddChildren(c: nat)
      requires Valid()
      modifies this, inlineChildren
      ensures Valid() && Children() == old(Children()) + [c]
      ensures inlineChildren == old(inlineChildren)
    {
      if inlineSize < INLINE_CAPACITY {
        inlineChildren[inlineSize] := c;
        inlineSize := inlineSize + 1;
      } else {
        overflowChildren := overflowChildren + [c];
      }
    }

    method SetChildren(cs: seq<nat>)
      requires Valid()
      modifies this, inlineChildren
      ensures Valid() && Children() == cs
    {
      inlineSize, overflowChildren := 0, [];
      for i := 0 to |cs|
        invariant Valid() && inlineChildren == old(inlineChildren)
        invariant Children() == cs[..i]
      {
        AddChildren(cs[i]);
      }
    }

    /** Both parts as one list; the inline part is the list's first eight elements. */
    method GetChildren() returns (cs: seq<nat>)
      requires Valid()
      ensures cs == Children()
      ensures inlineChildren[..inlineSize] == cs[..Min(INLINE_CAPACITY, |cs|)]
      ensures overflowChildren == cs[Min(INLINE_CAPACITY, |cs|)..]
    {
      cs := [];
      if inlineSize > 0 { cs := cs + inlineChildren[..inlineSize]; }
      if overflowChildren != [] { cs := cs + overflowChildren; }
    }
  }

  /** A node as the search sees it; the child list is split as in ChildList. */
  datatype Node = Node(
    kind: NodeType,
    beginX: int, beginY: int, endX: int, endY: int,
    isAccessibleWire: bool, isNodePinBounce: bool, baseCost: real, length: int,
    inlineChildren: seq<nat>, overflowChildren: seq<nat>)
  {
    function Children(): seq<nat> { inlineChildren + overflowChildren }
  }

  type Graph = seq<Node>

  predicate WellFormed(g: Graph) {
    forall u, k :: 0 <= u < |g| && 0 <= k < |g[u].Children()| ==> g[u].Children()[k] < |g|
  }

  predicate Edge(g: Graph, u: nat, v: nat) { u < |g| && v < |g| && v in g[u].Children() }

  /** Ends of a connection with its bounding box. */
  datatype Terminal = Terminal(source: nat, sink: nat, box: Box)

  predicate ValidTerminal(g: Graph, c: Terminal) { c.source < |g| && c.sink < |g| && c.source != c.sink }

  /** The node's end tile lies strictly inside the connection's box. */
  predicate InBox(g: Graph, c: Terminal, v: nat)
    requires v < |g|
  {
    c.box.StrictlyContains(g[v].endX, g[v].endY)
  }

  /** Marked wires are only usable in the sink's column, at most one row away. */
  predicate WireAccessible(g: Graph, c: Terminal, v: nat)
    requires v < |g| && c.sink < |g|
  {
    !g[v].isAccessibleWire ||
    (g[v].beginX == g[c.sink].beginX && -1 <= g[v].beginY - g[c.sink].beginY <= 1)
  }

  /**
   What the search does with a child that is neither visited nor the sink: enter it, skip
   it, or stop the program. counts is the net's user count table, targeted says whether the
   child carries this search's target stamp.
   */
  datatype Verdict = Enter | Skip | Stop

  function Judge(g: Graph, c: Terminal, counts: map<nat, int>, targeted: bool, v: nat): Verdict
    requires v < |g| && c.sink < |g|
  {
    if !InBox(g, c, v) then Skip
    else match g[v].kind
      case WIRE => if WireAccessible(g, c, v) then Enter else Skip
      case PINBOUNCE => if targeted then Stop else if WireAccessible(g, c, v) then Enter else Skip
      case PINFEED_I =>
        if targeted then Enter
        else if v !in counts || counts[v] == 0 || !g[v].isNodePinBounce then Skip else Enter
      case LAGUNA_I => Skip
      case SUPER_LONG_LINE => Stop
      case PINFEED_O => Stop
  }

  /** A pin of the net's own that the route may bounce through. */
  predicate OwnBounce(g: Graph, counts: map<nat, int>, v: nat)
    requires v < |g|
  {
    g[v].isNodePinBounce && v in counts && counts[v] != 0
  }

  /**
   Only nodes that end strictly inside the box matter. Wires and pin-bounce nodes are entered
   where they are accessible, sink pins if they are targeted or the net's own; a source pin, a
   super long line or a targeted pin-bounce node stops the program.
   */
  lemma JudgeExactly(g: Graph, c: Terminal, counts: map<nat, int>, targeted: bool, v: nat)
    requires v < |g| && c.sink < |g|
    ensures Judge(g, c, counts, targeted, v) == Stop <==>
      && c.box.x.low < g[v].endX < c.box.x.high && c.box.y.low < g[v].endY < c.box.y.high
      && (g[v].kind == PINFEED_O || g[v].kind == SUPER_LONG_LINE || (g[v].kind == PINBOUNCE && targeted))
    ensures Judge(g, c, counts, targeted, v) == Enter <==>
      && c.box.x.low < g[v].endX < c.box.x.high && c.box.y.low < g[v].endY < c.box.y.high
      && (g[v].kind == WIRE || (g[v].kind == PINBOUNCE && !targeted) ==>
            g[v].isAccessibleWire ==> g[v].beginX == g[c.sink].beginX && -1 <= g[v].beginY - g[c.sink].beginY <= 1)
      && (g[v].kind == PINBOUNCE ==> !targeted) && (g[v].kind == PINFEED_I ==> targeted || OwnBounce(g, counts, v))
      && g[v].kind != PINFEED_O && g[v].kind != SUPER_LONG_LINE && g[v].kind != LAGUNA_I
  {
  }
}
