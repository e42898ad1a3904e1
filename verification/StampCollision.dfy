/**
 What a stamp used twice does (src/route/aStarRoute.cpp, lines 72, 481 and 520): the numbers of
 routed connections let two searches of one table share a stamp, and the second takes the
 nodes that the first one visited for its own.
 */
module StampCollision {
  import opened Geometry
  import opened RoutingGraph
  import opened Options
  import opened Search
  import opened Stamps

  /** Two connections, 0 to 2 and 3 to 4, with the wire 1 between. */
  function Crossing(): (g: Graph)
    ensures WellFormed(g) && |g| == 5
    ensures g[0].Children() == [1] && g[1].Children() == [2, 4] && g[2].Children() == [] && g[3].Children() == [1]
    ensures g[4].Children() == []
  {
    var node := (kind, children) => Node(kind, 0, 0, 0, 0, false, false, 1.0, 1, children, []);
    [node(PINFEED_O, [1]), node(WIRE, [2, 4]), node(PINFEED_I, []), node(PINFEED_O, [1]), node(PINFEED_I, [])]
  }

  /** The search from source to sink under the given stamp, with unit costs. */
  function Across(source: nat, sink: nat, uid: int): Query {
    Query(Crossing(), Terminal(source, sink, Box(Interval(-1, 1), Interval(-1, 1))), uid, map[],
          (v: nat, targeted: bool) => 1.0, (v: nat) => 0.0, (v: nat, targeted: bool) => false)
  }

  /** Only the wire can be entered, and nothing stops the search. */
  lemma Verdicts(q: Query)
    requires q == Across(0, 2, q.uid) || q == Across(3, 4, q.uid)
    ensures JudgeIn(q, false, 1) == Enter
    ensures q.c.sink != 2 ==> JudgeIn(q, false, 2) == Skip
    ensures q.c.sink != 4 ==> JudgeIn(q, false, 4) == Skip
  {
  }

  /** Every walk starts at the source and goes on to the wire. */
  lemma FirstStep(q: Query, table: seq<NodeInfo>, p: seq<nat>)
    requires (q == Across(0, 2, q.uid) || q == Across(3, 4, q.uid)) && |table| == 5 && Walk(q, table, p)
    ensures |p| > 1 ==> p[1] == 1
  {
    if |p| > 1 { assert Edge(q.g, p[0], p[0 + 1]); }
  }

  lemma NothingStops(q: Query, table: seq<NodeInfo>, p: seq<nat>, v: nat)
    requires (q == Across(0, 2, q.uid) || q == Across(3, 4, q.uid)) && |table| == 5 && Fresh(q, table)
    requires Arrives(q, table, p) && Edge(q.g, p[|p| - 1], v)
    ensures !Stops(q, table, v)
  {
    Verdicts(q);
  }

  lemma DirectWalk(q: Query, table: seq<NodeInfo>)
    requires (q == Across(0, 2, q.uid) || q == Across(3, 4, q.uid)) && |table| == 5 && Fresh(q, table)
    ensures Walk(q, table, [q.c.source, 1, q.c.sink])
  {
    Verdicts(q);
    var p := [q.c.source, 1, q.c.sink];
    assert Edge(q.g, p[0], p[1]) && Edge(q.g, p[1], p[2]);
  }

  /** With an unused stamp each sink is in reach, and nothing stops the search. */
  lemma SinkIsNear(q: Query, table: seq<NodeInfo>)
    requires (q == Across(0, 2, q.uid) || q == Across(3, 4, q.uid)) && |table| == 5 && Fresh(q, table)
    ensures Reachable(q, table) && SinkInReach(q) && !StopInReach(q, table)
  {
    DirectWalk(q, table);
    FreshReach(q, table);
    forall p, v: nat | Arrives(q, table, p) && Edge(q.g, p[|p| - 1], v) ensures !Stops(q, table, v) {
      NothingStops(q, table, p, v);
    }
  }

  /** Where the wire carries the stamp already, the sink is out of reach. */
  lemma WireIsHidden(q: Query, table: seq<NodeInfo>)
    requires q == Across(3, 4, q.uid) && |table| == 5 && table[1].isVisited == q.uid
    ensures !Reachable(q, table) && !StopInReach(q, table)
  {
    forall p | Walk(q, table, p) ensures p[|p| - 1] != q.c.sink {
      FirstStep(q, table, p);
    }
    forall p, v: nat | Arrives(q, table, p) && Edge(q.g, p[|p| - 1], v) ensures !Stops(q, table, v) {
      FirstStep(q, table, p);
    }
  }

  /** A path found by the first search leads over the wire. */
  lemma OverTheWire(q: Query, table: seq<NodeInfo>, path: seq<nat>)
    requires q == Across(0, 2, q.uid) && |table| == 5 && SinkToSource(q, table, path)
    ensures path[1] == 1
  {
    assert Edge(q.g, path[0 + 1], path[0]);
  }

  /**
   Iteration k routes one connection, with id 2, and the next iteration one with id 0, on the
   table that the first left behind. Their stamps are equal; the second search fails although
   its sink is in reach.
   */
  method CollidingSearches(first: nat, routed: seq<nat>, k: nat)
    returns (before: Outcome, outcome: Outcome, ghost q: Query)
    requires k < |routed| && routed[k] == 1
    ensures before.Found? && q == Across(3, 4, UniqueId(first, routed, k + 1, 0))
    ensures outcome.NotFound? && SinkInReach(q)
  {
    var info := new NodeInfo[5](_ => NodeInfo(None, 0.0, 0.0, -1, -1));
    var q2 := Across(0, 2, UniqueId(first, routed, k, 2));
    var q0 := Across(3, 4, UniqueId(first, routed, k + 1, 0));
    ghost var blank := info[..];
    SinkIsNear(q2, blank);
    SinkIsNear(q0, blank);
    var path; ghost var pushed, turns;
    before, path, pushed, turns := RouteOneConnection(q2, info);
    OverTheWire(q2, blank, path);
    assert path[1] in pushed;
    WireIsHidden(q0, info[..]);
    outcome, path, pushed, turns := RouteOneConnection(q0, info);
    q := q0;
  }
}
