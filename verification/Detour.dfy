/**
 Why the search (src/route/aStarRoute.cpp, lines 477-612) may miss the cheapest path, even with
 estimates that never fall by more than the price of a step: a node keeps the parent that pushed
 it first, and estimates decide which parent that is.
 */
module Detour {
  import opened Counting
  import opened Geometry
  import opened RoutingGraph
  import opened Options
  import opened Search
  import opened LeastCost

  /** From the source 0 over the dear wire 2 or the cheap wire 3 to the wire 4, and on to the sink 1. */
  function Fork(): (g: Graph)
    ensures WellFormed(g) && |g| == 5
    ensures g[0].Children() == [2, 3] && g[1].Children() == [] && g[2].Children() == [4] && g[3].Children() == [4]
    ensures g[4].Children() == [1]
    ensures g[2].kind == g[3].kind == g[4].kind == WIRE
    ensures forall v :: 0 <= v < 5 ==> !g[v].isAccessibleWire && g[v].endX == g[v].endY == 0
  {
    var node := (kind, children) => Node(kind, 0, 0, 0, 0, false, false, 1.0, 1, children, []);
    [node(PINFEED_O, [2, 3]), node(PINFEED_I, []), node(WIRE, [4]), node(WIRE, [4]), node(WIRE, [1])]
  }

  function PriceAt(v: nat): real { if v == 2 then 5.0 else 1.0 }

  function EstimateAt(v: nat): real { if v == 2 then 0.0 else if v == 3 then 10.0 else 9.0 }

  function Forked(uid: int): Query {
    Query(Fork(), Terminal(0, 1, Box(Interval(-1, 1), Interval(-1, 1))), uid, map[],
          (v: nat, targeted: bool) => PriceAt(v), (v: nat) => EstimateAt(v), (v: nat, targeted: bool) => false)
  }

  /** With an unused stamp exactly the wires can be entered. */
  lemma WiresEnterable(q: Query, table: seq<NodeInfo>, v: nat)
    requires q == Forked(q.uid) && |table| == 5 && Fresh(q, table)
    ensures Enterable(q, table, v) <==> 2 <= v < 5
  {
    FreshEntersAccessible(q, table, v);
  }

  lemma EdgeOf(q: Query, u: nat, v: nat)
    requires q == Forked(q.uid)
    ensures Edge(q.g, u, v) <==>
              (u == 0 && (v == 2 || v == 3)) || ((u == 2 || u == 3) && v == 4) || (u == 4 && v == 1)
  {
  }

  lemma ForkIsSteady(q: Query, table: seq<NodeInfo>)
    requires q == Forked(q.uid) && |table| == 5 && Fresh(q, table)
    ensures Steady(q, table, 0.0, 10.0)
  {
    forall v: nat | Enterable(q, table, v) ensures Fair(q, table, 0.0, 10.0, v) { WiresEnterable(q, table, v); }
    forall u: nat, v: nat | Enterable(q, table, u) && Enterable(q, table, v) && Edge(q.g, u, v)
      ensures q.estimate(u) <= Price(q, table, v) + q.estimate(v)
    {
      EdgeOf(q, u, v);
    }
  }

  /** The way over the cheap wire. */
  lemma CheapWalk(q: Query, table: seq<NodeInfo>)
    requires q == Forked(q.uid) && |table| == 5 && Fresh(q, table)
    ensures Walk(q, table, [0, 3, 4, 1]) && PriceOf(q, table, Inner([0, 3, 4, 1])) == 2.0
  {
    var p: seq<nat> := [0, 3, 4, 1];
    forall i | 0 <= i < |p| - 1 ensures Edge(q.g, p[i], p[i + 1]) { EdgeOf(q, p[i], p[i + 1]); }
    forall i | 1 <= i < |p| - 1 ensures Enterable(q, table, p[i]) { WiresEnterable(q, table, p[i]); }
    assert Inner(p) == [3, 4] && [3, 4][..1] == [3] && [3][..0] == [];
    assert PriceOf(q, table, [3]) == 1.0;
  }

  /** A wire next to the source is pushed by the source. */
  lemma CostAtFork(q: Query, table: seq<NodeInfo>, info: seq<NodeInfo>, queue: seq<nat>, pushed: seq<nat>, v: nat)
    requires q == Forked(q.uid) && |table| == 5 && ValidQuery(q) && Inv(q, table, info, queue, pushed)
    requires v in pushed && (v == 2 || v == 3)
    ensures info[v].cost == PriceAt(v) + EstimateAt(v)
  {
    PushedCharged(q, table, info, queue, pushed, v);
    EdgeOf(q, info[v].prev.value, v);
    VisitedIsPushedOrStale(q, table, info, queue, pushed, 0);
    PushedCharged(q, table, info, queue, pushed, 0);
  }

  /** Once the source has had its turn, both wires next to it are in the queue, or have been. */
  lemma WiresPushed(q: Query, table: seq<NodeInfo>, info: seq<NodeInfo>, queue: seq<nat>, pushed: seq<nat>,
                    turns: seq<Turn>, v: nat)
    requires q == Forked(q.uid) && |table| == 5 && Fresh(q, table) && ValidQuery(q)
    requires Inv(q, table, info, queue, pushed) && Ordered(q, table, info, queue, pushed, turns)
    requires |turns| > 1 && (v == 2 || v == 3)
    ensures turns[1].entered <= |pushed| && v in pushed[..turns[1].entered]
  {
    assert TurnWell(q, table, info, pushed, turns, 0) && TurnWell(q, table, info, pushed, turns, 1);
    SourceFirst(q, table, info, queue, pushed, turns, 0);
    EdgeOf(q, 0, v);
    WiresEnterable(q, table, v);
    assert Settled(q, table, pushed[..turns[1].entered], v);
  }

  lemma {:induction false} LaterEntered(q: Query, table: seq<NodeInfo>, info: seq<NodeInfo>, queue: seq<nat>,
                                        pushed: seq<nat>, turns: seq<Turn>, i: nat, j: nat)
    requires |table| == |q.g| && q.c.sink < |q.g| && Ordered(q, table, info, queue, pushed, turns)
    requires i <= j < |turns|
    ensures turns[i].entered <= turns[j].entered <= |pushed|
    decreases j
  {
    assert TurnWell(q, table, info, pushed, turns, j);
    if i < j {
      LaterEntered(q, table, info, queue, pushed, turns, i, j - 1);
      assert TurnWell(q, table, info, pushed, turns, j - 1);
    }
  }

  /** When the cheap wire has its turn, the dear one has had it. */
  lemma DearFirst(q: Query, table: seq<NodeInfo>, info: seq<NodeInfo>, queue: seq<nat>, pushed: seq<nat>,
                  turns: seq<Turn>, j: nat)
    requires q == Forked(q.uid) && |table| == 5 && Fresh(q, table) && ValidQuery(q)
    requires Inv(q, table, info, queue, pushed) && Ordered(q, table, info, queue, pushed, turns)
    requires j < |turns| && turns[j].node == 3
    ensures TakenBefore(turns, j, 2)
  {
    SourceFirst(q, table, info, queue, pushed, turns, j);
    WiresPushed(q, table, info, queue, pushed, turns, 2);
    LaterEntered(q, table, info, queue, pushed, turns, 1, j);
    assert TurnWell(q, table, info, pushed, turns, j);
    var n := turns[1].entered;
    var k :| 0 <= k < n && pushed[..n][k] == 2;
    assert pushed[k] == 2;
    CostAtFork(q, table, info, queue, pushed, 2);
    CostAtFork(q, table, info, queue, pushed, 3);
  }

  /** By then the wire behind the fork has been pushed. */
  lemma BehindPushed(q: Query, table: seq<NodeInfo>, info: seq<NodeInfo>, queue: seq<nat>, pushed: seq<nat>,
                     turns: seq<Turn>, j: nat)
    requires q == Forked(q.uid) && |table| == 5 && Fresh(q, table) && ValidQuery(q)
    requires Inv(q, table, info, queue, pushed) && Ordered(q, table, info, queue, pushed, turns)
    requires j < |turns| && turns[j].node == 3
    ensures turns[j].entered <= |pushed| && 4 in pushed[..turns[j].entered]
  {
    DearFirst(q, table, info, queue, pushed, turns, j);
    var i :| 0 <= i < j && turns[i].node == 2;
    assert TurnWell(q, table, info, pushed, turns, i);
    LaterEntered(q, table, info, queue, pushed, turns, i + 1, j);
    EdgeOf(q, 2, 4);
    WiresEnterable(q, table, 4);
    var n := turns[i + 1].entered;
    assert Settled(q, table, pushed[..n], 4);
    var k :| 0 <= k < n && pushed[..n][k] == 4;
    assert pushed[..turns[j].entered][k] == 4;
  }

  lemma NotTwice(pushed: seq<nat>, n: nat, t: nat)
    requires NoRepeat(pushed) && n <= t < |pushed|
    ensures pushed[t] !in pushed[..n]
  {
  }

  /** The wire behind the fork is pushed by the dear one. */
  lemma DearParent(q: Query, table: seq<NodeInfo>, info: seq<NodeInfo>, queue: seq<nat>, pushed: seq<nat>,
                   turns: seq<Turn>, t: nat)
    requires q == Forked(q.uid) && |table| == 5 && Fresh(q, table) && ValidQuery(q)
    requires Inv(q, table, info, queue, pushed) && Ordered(q, table, info, queue, pushed, turns)
    requires t < |pushed| && pushed[t] == 4 && turns != []
    ensures info[4].prev == Some(2)
  {
    PushedCharged(q, table, info, queue, pushed, 4);
    EdgeOf(q, info[4].prev.value, 4);
    assert PushedWell(q, table, info, pushed, 0);
    var j := PushedIn(q, table, info, queue, pushed, turns, t, |turns| - 1);
    NotTwice(pushed, turns[j].entered, t);
    if turns[j].node == 3 { BehindPushed(q, table, info, queue, pushed, turns, j); }
  }

  lemma PathBackwards(q: Query, table: seq<NodeInfo>, path: seq<nat>)
    requires q == Forked(q.uid) && |table| == 5 && SinkToSource(q, table, path) && |path| > 2 && path[2] == 2
    ensures path == [1, 4, 2, 0]
  {
    EdgeOf(q, path[1], path[0]);
    assert Edge(q.g, path[0 + 1], path[0]);
    assert |path| > 3;
    assert Edge(q.g, path[2 + 1], path[2]);
    EdgeOf(q, path[3], path[2]);
  }

  /**
   With an unused stamp the search finds the path over the dear wire, for 6 instead of 2. The
   estimates spread over 10, so that this is within the bound of FoundNearLeast.
   */
  lemma MissesCheapest(q: Query, table: seq<NodeInfo>, path: seq<nat>)
    requires q == Forked(q.uid) && |table| == 5 && Fresh(q, table) && Concluded(q, table, Found, path)
    ensures path == [1, 4, 2, 0] && PriceOf(q, table, Inner(path)) == 6.0
    ensures Walk(q, table, [0, 3, 4, 1]) && PriceOf(q, table, Inner([0, 3, 4, 1])) == 2.0
    ensures Steady(q, table, 0.0, 10.0)
  {
    var r: Record :| Explains(q, table, path, r);
    OverDearWire(q, table, path, r);
    PathBackwards(q, table, path);
    DearPrice(q, table);
    CheapWalk(q, table);
    ForkIsSteady(q, table);
  }

  lemma OverDearWire(q: Query, table: seq<NodeInfo>, path: seq<nat>, r: Record)
    requires q == Forked(q.uid) && |table| == 5 && Fresh(q, table)
    requires SinkToSource(q, table, path) && Explains(q, table, path, r)
    ensures |path| > 2 && path[2] == 2
  {
    assert Edge(q.g, path[0 + 1], path[0]);
    EdgeOf(q, path[1], path[0]);
    LinkedIsPushed(q, table, r, path, 1);
    var t :| 0 <= t < |r.pushed| && r.pushed[t] == path[1];
    DearParent(q, table, Unlinked(q, r.info), r.queue, r.pushed, r.turns, t);
    assert r.info[path[1]].prev == Some(path[1 + 1]);
  }

  lemma DearPrice(q: Query, table: seq<NodeInfo>)
    requires q == Forked(q.uid) && |table| == 5
    ensures PriceOf(q, table, Inner([1, 4, 2, 0])) == 6.0
  {
    assert Inner([1, 4, 2, 0]) == [4, 2] && [4, 2][..1] == [4] && [4][..0] == [];
    assert PriceOf(q, table, [4]) == 1.0;
  }
}
