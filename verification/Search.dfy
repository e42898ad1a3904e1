/**
 The best-first search for one connection: aStarRoute::routeOneConnection and
 aStarRoute::saveRouting (src/route/aStarRoute.cpp).
 */
module Search {
  import opened Counting
  import opened Options
  import opened RoutingGraph

  /** Scratch entry of a node (NodeInfo in src/db/routeNode.h). */
  datatype NodeInfo = NodeInfo(prev: Option<nat>, cost: real, partialCost: real, isVisited: int, isTarget: int)

  /**
   One search: graph, connection, stamp, the net's user counts, and for a child its node cost,
   its estimate, and whether an assertion about its count or cost fails. Node cost and
   assertions also depend on the child's target stamp.
   */
  datatype Query = Query(
    g: Graph, c: Terminal, uid: int, counts: map<nat, int>,
    nodeCost: (nat, bool) -> real, estimate: nat -> real, alarm: (nat, bool) -> bool)

  ghost predicate ValidQuery(q: Query) { WellFormed(q.g) && ValidTerminal(q.g, q.c) && q.uid >= 0 }

  /** Entries whose visit stamp already equals this search's, before it starts; the sink's is reset. */
  ghost predicate Stale(q: Query, table: seq<NodeInfo>, v: nat) {
    v < |table| && table[v].isVisited == q.uid && v != q.c.sink
  }

  ghost predicate Targeted(q: Query, table: seq<NodeInfo>, v: nat) {
    v < |table| && table[v].isTarget == q.uid
  }

  /** What happens at an unvisited child; an assertion that fails on entering it stops the program. */
  function JudgeIn(q: Query, targeted: bool, v: nat): Verdict
    requires v < |q.g| && q.c.sink < |q.g|
  {
    var verdict := Judge(q.g, q.c, q.counts, targeted, v);
    if verdict == Enter && q.alarm(v, targeted) then Stop else verdict
  }

  /** A node the search may pass through, given the table it starts from. */
  ghost predicate Enterable(q: Query, table: seq<NodeInfo>, v: nat)
    requires |table| == |q.g| && q.c.sink < |q.g|
  {
    && v < |q.g| && v != q.c.sink && v != q.c.source && !Stale(q, table, v)
    && JudgeIn(q, Targeted(q, table, v), v) == Enter
  }

  /** A node at which the program stops when it looks at it as a child. */
  ghost predicate Stops(q: Query, table: seq<NodeInfo>, v: nat)
    requires |table| == |q.g| && q.c.sink < |q.g|
  {
    && v < |q.g| && v != q.c.sink && v != q.c.source && !Stale(q, table, v)
    && JudgeIn(q, Targeted(q, table, v), v) == Stop
  }

  /** A walk from the source along child edges whose inner nodes are enterable. */
  ghost predicate Walk(q: Query, table: seq<NodeInfo>, p: seq<nat>)
    requires |table| == |q.g| && q.c.sink < |q.g|
  {
    && |p| >= 1 && p[0] == q.c.source
    && (forall i :: 0 <= i < |p| ==> p[i] < |q.g|)
    && (forall i :: 0 <= i < |p| - 1 ==> Edge(q.g, p[i], p[i + 1]))
    && (forall i :: 1 <= i < |p| - 1 ==> Enterable(q, table, p[i]))
  }

  /** The sink can be reached through enterable nodes. */
  ghost predicate Reachable(q: Query, table: seq<NodeInfo>)
    requires |table| == |q.g| && q.c.sink < |q.g|
  {
    exists p :: Walk(q, table, p) && p[|p| - 1] == q.c.sink
  }

  /** The walk ends at a node that the search may enter, or is still at the source. */
  ghost predicate Arrives(q: Query, table: seq<NodeInfo>, p: seq<nat>)
    requires |table| == |q.g| && q.c.sink < |q.g|
  {
    Walk(q, table, p) && (|p| > 1 ==> Enterable(q, table, p[|p| - 1]))
  }

  /** A node at which the program stops is a child of a node that can be reached. */
  ghost predicate StopInReach(q: Query, table: seq<NodeInfo>)
    requires |table| == |q.g| && q.c.sink < |q.g|
  {
    exists p, v: nat :: Arrives(q, table, p) && Edge(q.g, p[|p| - 1], v) && Stops(q, table, v)
  }

  /** The stored solution: from the sink back to the source, without repetition. */
  ghost predicate SinkToSource(q: Query, table: seq<NodeInfo>, path: seq<nat>)
    requires |table| == |q.g| && q.c.sink < |q.g|
  {
    && |path| >= 2 && path[0] == q.c.sink && path[|path| - 1] == q.c.source
    && (forall i :: 0 <= i < |path| ==> path[i] < |q.g|)
    && (forall i :: 0 <= i < |path| - 1 ==> Edge(q.g, path[i + 1], path[i]))
    && (forall i :: 1 <= i < |path| - 1 ==> Enterable(q, table, path[i]))
    && NoRepeat(path)
  }

  datatype Outcome = Found | NotFound | Stopped

  /** What an ended search promises about the table it started from. */
  ghost predicate Concluded(q: Query, table: seq<NodeInfo>, outcome: Outcome, path: seq<nat>)
    requires |table| == |q.g| && q.c.sink < |q.g|
  {
    match outcome
    case Found => SinkToSource(q, table, path) && Reachable(q, table) && BestFirst(q, table, path)
    case NotFound => path == [] && !Reachable(q, table) && !StopInReach(q, table)
    case Stopped => path == [] && StopInReach(q, table)
  }

  /** The table right after the source has been pushed and the sink marked. */
  function Opened(q: Query, table: seq<NodeInfo>): seq<NodeInfo>
    requires |table| == |q.g| && ValidTerminal(q.g, q.c)
  {
    table[q.c.source := NodeInfo(None, 0.0, 0.0, q.uid, -1)][q.c.sink := NodeInfo(None, 0.0, 0.0, -1, q.uid)]
  }

  /** The entry of v adds its node cost to the parent's path cost, and the estimate to that. */
  ghost predicate Priced(q: Query, table: seq<NodeInfo>, info: seq<NodeInfo>, v: nat) {
    && v < |info| && info[v].prev.Some? && info[v].prev.value < |info|
    && info[v].partialCost == info[info[v].prev.value].partialCost + q.nodeCost(v, Targeted(q, table, v))
    && info[v].cost == info[v].partialCost + q.estimate(v)
  }

  /** v was pushed at place i: enterable, priced, with an earlier pushed parent. */
  ghost predicate PushedWell(q: Query, table: seq<NodeInfo>, info: seq<NodeInfo>, pushed: seq<nat>, i: nat)
    requires |table| == |info| == |q.g| && q.c.sink < |q.g| && i < |pushed|
  {
    var v := pushed[i];
    && v < |q.g| && info[v].isVisited == q.uid && info[v].isTarget == -1
    && if i == 0 then v == q.c.source && info[v].prev.None? && info[v].cost == info[v].partialCost == 0.0
       else Enterable(q, table, v) && Priced(q, table, info, v) && Edge(q.g, info[v].prev.value, v) &&
            info[v].prev.value in pushed[..i]
  }

  /** Invariant of the search: the table differs from the opened one exactly at pushed nodes. */
  ghost predicate Inv(q: Query, table: seq<NodeInfo>, info: seq<NodeInfo>, queue: seq<nat>, pushed: seq<nat>)
    requires ValidQuery(q) && |table| == |q.g|
  {
    && |info| == |q.g| && |pushed| >= 1
    && NoRepeat(pushed) && NoRepeat(queue)
    && (forall k :: 0 <= k < |queue| ==> queue[k] in pushed)
    && (forall i :: 0 <= i < |pushed| ==> PushedWell(q, table, info, pushed, i))
    && (forall v: nat :: v < |q.g| && v !in pushed ==> info[v] == Opened(q, table)[v])
  }

  /** A child that needs no more attention. */
  ghost predicate Settled(q: Query, table: seq<NodeInfo>, pushed: seq<nat>, v: nat)
    requires |table| == |q.g| && q.c.sink < |q.g|
  {
    v != q.c.sink && (v in pushed || (!Enterable(q, table, v) && !Stops(q, table, v)))
  }

  /** All children of the popped nodes, those pushed but no longer queued, are settled. */
  ghost predicate PoppedSettled(q: Query, table: seq<NodeInfo>, queue: seq<nat>, pushed: seq<nat>, except: set<nat>)
    requires |table| == |q.g| && q.c.sink < |q.g|
  {
    forall u, v: nat :: u in pushed && u !in queue && u !in except && Edge(q.g, u, v) ==> Settled(q, table, pushed, v)
  }

  // The order in which nodes are taken

  /** A node taken from the queue, and how many nodes had been pushed by then. */
  datatype Turn = Turn(node: nat, entered: nat)

  /** Node v was taken in one of the first i turns. */
  ghost predicate TakenBefore(turns: seq<Turn>, i: nat, v: nat)
    requires i <= |turns|
  {
    exists j :: 0 <= j < i && turns[j].node == v
  }

  /** In turn i a node in the queue was taken, and no node in the queue cost less. */
  ghost predicate TakesBest(info: seq<NodeInfo>, pushed: seq<nat>, turns: seq<Turn>, i: nat)
    requires i < |turns| && forall k :: 0 <= k < |pushed| ==> pushed[k] < |info|
  {
    var t := turns[i];
    && t.entered <= |pushed| && t.node in pushed[..t.entered] && t.node in pushed && !TakenBefore(turns, i, t.node)
    && forall k :: 0 <= k < t.entered && !TakenBefore(turns, i, pushed[k]) ==> info[t.node].cost <= info[pushed[k]].cost
  }

  /** How many nodes had been pushed at the end of turn i. */
  ghost function EndOfTurn(pushed: seq<nat>, turns: seq<Turn>, i: nat): nat
    requires i < |turns|
  {
    if i + 1 < |turns| then turns[i + 1].entered else |pushed|
  }

  /** All children of u are settled by the first n nodes pushed. */
  ghost predicate ChildrenSettled(q: Query, table: seq<NodeInfo>, pushed: seq<nat>, n: nat, u: nat)
    requires |table| == |q.g| && q.c.sink < |q.g| && n <= |pushed|
  {
    forall v: nat :: Edge(q.g, u, v) ==> Settled(q, table, pushed[..n], v)
  }

  /** What was pushed during turn i are children of its node; unless the turn is the last, it settled them all. */
  ghost predicate TurnWell(q: Query, table: seq<NodeInfo>, info: seq<NodeInfo>, pushed: seq<nat>, turns: seq<Turn>,
                           i: nat)
    requires |table| == |info| == |q.g| && q.c.sink < |q.g| && i < |turns|
    requires forall k :: 0 <= k < |pushed| ==> pushed[k] < |info|
  {
    var u, n := turns[i].node, EndOfTurn(pushed, turns, i);
    && TakesBest(info, pushed, turns, i) && turns[i].entered <= n <= |pushed|
    && (forall k :: turns[i].entered <= k < n ==> info[pushed[k]].prev == Some(u))
    && (i + 1 < |turns| ==> ChildrenSettled(q, table, pushed, n, u))
  }

  /** Best first: the turns took the nodes that are no longer queued, each time one of least cost. */
  ghost predicate Ordered(q: Query, table: seq<NodeInfo>, info: seq<NodeInfo>, queue: seq<nat>, pushed: seq<nat>,
                          turns: seq<Turn>)
    requires |table| == |q.g| && q.c.sink < |q.g|
  {
    && |info| == |q.g| && (forall k :: 0 <= k < |pushed| ==> pushed[k] < |info|)
    && (if turns == [] then |pushed| == 1 else turns[0].entered == 1)
    && (forall v :: v in queue <==> v in pushed && !TakenBefore(turns, |turns|, v))
    && (forall i :: 0 <= i < |turns| ==> TurnWell(q, table, info, pushed, turns, i))
  }

  lemma TakenBeforeStays(turns: seq<Turn>, t: Turn, i: nat, v: nat)
    requires i <= |turns|
    ensures TakenBefore(turns + [t], i, v) <==> TakenBefore(turns, i, v)
    ensures TakenBefore(turns + [t], |turns| + 1, v) <==> TakenBefore(turns, |turns|, v) || v == t.node
  {
    var more := turns + [t];
    assert forall j :: 0 <= j < |turns| ==> more[j] == turns[j];
    assert more[|turns|] == t;
  }

  lemma BestStays(info: seq<NodeInfo>, pushed: seq<nat>, turns: seq<Turn>, v: nat, entry: NodeInfo, i: nat)
    requires i < |turns| && (forall k :: 0 <= k < |pushed| ==> pushed[k] < |info|) && v < |info| && v !in pushed
    requires TakesBest(info, pushed, turns, i)
    ensures TakesBest(info[v := entry], pushed + [v], turns, i)
  {
    var t, info', pushed' := turns[i], info[v := entry], pushed + [v];
    assert pushed'[..t.entered] == pushed[..t.entered];
    forall k | 0 <= k < t.entered && !TakenBefore(turns, i, pushed'[k])
      ensures info'[t.node].cost <= info'[pushed'[k]].cost
    {
      assert pushed'[k] == pushed[k];
    }
  }

  lemma PushKeepsTurn(q: Query, table: seq<NodeInfo>, info: seq<NodeInfo>, pushed: seq<nat>, turns: seq<Turn>,
                      v: nat, entry: NodeInfo, i: nat)
    requires |table| == |info| == |q.g| && q.c.sink < |q.g| && i < |turns| && v < |info| && v !in pushed
    requires forall k :: 0 <= k < |pushed| ==> pushed[k] < |info|
    requires TurnWell(q, table, info, pushed, turns, i) && entry.prev == Some(turns[|turns| - 1].node)
    ensures TurnWell(q, table, info[v := entry], pushed + [v], turns, i)
  {
    BestStays(info, pushed, turns, v, entry, i);
    var n := EndOfTurn(pushed, turns, i);
    assert (pushed + [v])[..n] == pushed[..n];
    assert i + 1 < |turns| ==> EndOfTurn(pushed + [v], turns, i) == n;
  }

  /** A push from the node whose turn it is keeps the order. */
  lemma PushKeepsOrder(q: Query, table: seq<NodeInfo>, info: seq<NodeInfo>, queue: seq<nat>, pushed: seq<nat>,
                       turns: seq<Turn>, v: nat, entry: NodeInfo)
    requires |table| == |q.g| && q.c.sink < |q.g| && Ordered(q, table, info, queue, pushed, turns)
    requires turns != [] && entry.prev == Some(turns[|turns| - 1].node) && v < |q.g| && v !in pushed
    ensures Ordered(q, table, info[v := entry], queue + [v], pushed + [v], turns)
  {
    var info', pushed' := info[v := entry], pushed + [v];
    forall i | 0 <= i < |turns| ensures TurnWell(q, table, info', pushed', turns, i) {
      PushKeepsTurn(q, table, info, pushed, turns, v, entry, i);
    }
    forall j | 0 <= j < |turns| ensures turns[j].node != v {
      assert TurnWell(q, table, info, pushed, turns, j);
    }
  }

  /** Taking a queued node of least cost, once all children of the earlier ones are settled, keeps the order. */
  lemma PopKeepsOrder(q: Query, table: seq<NodeInfo>, info: seq<NodeInfo>, queue: seq<nat>, pushed: seq<nat>,
                      turns: seq<Turn>, k: nat)
    requires ValidQuery(q) && |table| == |q.g| && Inv(q, table, info, queue, pushed) && k < |queue|
    requires PoppedSettled(q, table, queue, pushed, {}) && Ordered(q, table, info, queue, pushed, turns)
    requires (forall i :: 0 <= i < |queue| ==> queue[i] < |info|) && IsTop(info, queue, k)
    ensures Ordered(q, table, info, queue[..k] + queue[k + 1..], pushed, turns + [Turn(queue[k], |pushed|)])
  {
    var u, rest, t := queue[k], queue[..k] + queue[k + 1..], Turn(queue[k], |pushed|);
    var more := turns + [t];
    forall i | 0 <= i < |turns| ensures TurnWell(q, table, info, pushed, more, i) {
      PopKeepsTurn(q, table, info, queue, pushed, turns, t, i);
    }
    TopIsBest(info, queue, pushed, turns, k);
    assert TurnWell(q, table, info, pushed, more, |turns|);
    PopKeeps(q, table, info, queue, pushed, k);
    forall v ensures v in rest <==> v in pushed && !TakenBefore(more, |more|, v) {
      assert queue == queue[..k] + [u] + queue[k + 1..];
      if v in pushed { TakenBeforeStays(turns, t, |turns|, v); }
    }
  }

  lemma PopKeepsTurn(q: Query, table: seq<NodeInfo>, info: seq<NodeInfo>, queue: seq<nat>, pushed: seq<nat>,
                     turns: seq<Turn>, t: Turn, i: nat)
    requires |table| == |q.g| && q.c.sink < |q.g| && i < |turns| && t.entered == |pushed|
    requires PoppedSettled(q, table, queue, pushed, {}) && Ordered(q, table, info, queue, pushed, turns)
    ensures TurnWell(q, table, info, pushed, turns + [t], i)
  {
    var more, u := turns + [t], turns[i].node;
    assert TurnWell(q, table, info, pushed, turns, i) && more[i] == turns[i];
    forall v: nat ensures TakenBefore(more, i, v) <==> TakenBefore(turns, i, v) { TakenBeforeStays(turns, t, i, v); }
    assert EndOfTurn(pushed, more, i) == EndOfTurn(pushed, turns, i);
    if i + 1 == |turns| {
      assert TakenBefore(turns, |turns|, u) && u !in queue && pushed[..|pushed|] == pushed;
    }
  }

  /** No queued node costs less than the one at place k. */
  predicate IsTop(info: seq<NodeInfo>, queue: seq<nat>, k: nat)
    requires k < |queue| && forall i :: 0 <= i < |queue| ==> queue[i] < |info|
  {
    forall i :: 0 <= i < |queue| ==> info[queue[k]].cost <= info[queue[i]].cost
  }

  lemma TopIsBest(info: seq<NodeInfo>, queue: seq<nat>, pushed: seq<nat>, turns: seq<Turn>, k: nat)
    requires k < |queue| && (forall i :: 0 <= i < |pushed| ==> pushed[i] < |info|)
    requires forall v :: v in queue <==> v in pushed && !TakenBefore(turns, |turns|, v)
    requires (forall i :: 0 <= i < |queue| ==> queue[i] < |info|) && IsTop(info, queue, k)
    ensures TakesBest(info, pushed, turns + [Turn(queue[k], |pushed|)], |turns|)
  {
    var u, t := queue[k], Turn(queue[k], |pushed|);
    forall v: nat ensures TakenBefore(turns + [t], |turns|, v) <==> TakenBefore(turns, |turns|, v) {
      TakenBeforeStays(turns, t, |turns|, v);
    }
    assert u in queue && pushed[..|pushed|] == pushed;
    forall i | 0 <= i < |pushed| && !TakenBefore(turns, |turns|, pushed[i])
      ensures info[u].cost <= info[pushed[i]].cost
    {
      assert pushed[i] in queue;
    }
  }

  /** What a search leaves behind: scratch table, queue, nodes pushed, turns. */
  datatype Record = Record(info: seq<NodeInfo>, queue: seq<nat>, pushed: seq<nat>, turns: seq<Turn>)

  /** Each node of the stored solution is linked to the next. */
  ghost predicate FollowsLinks(info: seq<NodeInfo>, path: seq<nat>) {
    forall i :: 0 <= i < |path| - 1 ==> path[i] < |info| && info[path[i]].prev == Some(path[i + 1])
  }

  /** The table without the link that leads on to the sink. */
  function Unlinked(q: Query, info: seq<NodeInfo>): seq<NodeInfo>
    requires q.c.sink < |info|
  {
    info[q.c.sink := info[q.c.sink].(prev := None)]
  }

  /** The record of a search that took nodes best first, and whose last turn met the sink. */
  ghost predicate Explains(q: Query, table: seq<NodeInfo>, path: seq<nat>, r: Record) {
    && ValidQuery(q) && |table| == |r.info| == |q.g|
    && Inv(q, table, Unlinked(q, r.info), r.queue, r.pushed)
    && Ordered(q, table, Unlinked(q, r.info), r.queue, r.pushed, r.turns)
    && |path| >= 2 && FollowsLinks(r.info, path) && r.turns != [] && r.turns[|r.turns| - 1].node == path[1]
  }

  /** The solution comes from a best-first search. */
  ghost predicate BestFirst(q: Query, table: seq<NodeInfo>, path: seq<nat>) {
    exists r: Record :: Explains(q, table, path, r)
  }

  lemma VisitedIsPushedOrStale(q: Query, table: seq<NodeInfo>, info: seq<NodeInfo>, queue: seq<nat>, pushed: seq<nat>,
                               v: nat)
    requires ValidQuery(q) && |table| == |q.g| && Inv(q, table, info, queue, pushed) && v < |q.g|
    ensures info[v].isVisited == q.uid <==> v in pushed || (Stale(q, table, v) && v != q.c.source)
    ensures v !in pushed && v != q.c.sink ==> (info[v].isTarget == q.uid <==> Targeted(q, table, v))
    ensures q.c.source in pushed && q.c.sink !in pushed
    ensures v == q.c.sink ==> info[v].isTarget == q.uid && info[v].isVisited != q.uid
  {
    assert PushedWell(q, table, info, pushed, 0);
    forall i | 0 <= i < |pushed| ensures pushed[i] != q.c.sink {
      assert PushedWell(q, table, info, pushed, i);
    }
    if v in pushed {
      var i :| 0 <= i < |pushed| && pushed[i] == v;
      assert PushedWell(q, table, info, pushed, i);
    }
  }

  lemma PushedInRange(q: Query, table: seq<NodeInfo>, info: seq<NodeInfo>, queue: seq<nat>, pushed: seq<nat>)
    requires ValidQuery(q) && |table| == |q.g| && Inv(q, table, info, queue, pushed)
    ensures forall v :: v in pushed ==> v < |q.g|
  {
    forall v | v in pushed ensures v < |q.g| {
      var i :| 0 <= i < |pushed| && pushed[i] == v;
      assert PushedWell(q, table, info, pushed, i);
    }
  }

  lemma PushedFits(q: Query, table: seq<NodeInfo>, info: seq<NodeInfo>, queue: seq<nat>, pushed: seq<nat>)
    requires ValidQuery(q) && |table| == |q.g| && Inv(q, table, info, queue, pushed)
    ensures |pushed| <= |q.g|
  {
    PushedInRange(q, table, info, queue, pushed);
    NoRepeatBounded(pushed, |q.g|);
  }

  /** What is written for v when it is pushed from u. */
  ghost predicate NewEntry(q: Query, table: seq<NodeInfo>, info: seq<NodeInfo>, u: nat, v: nat, entry: NodeInfo) {
    && u < |info| && entry.prev == Some(u) && entry.isVisited == q.uid && entry.isTarget == -1
    && entry.partialCost == info[u].partialCost + q.nodeCost(v, Targeted(q, table, v))
    && entry.cost == entry.partialCost + q.estimate(v)
  }

  /** Pushing an enterable, unvisited child keeps the invariant. */
  lemma PushKeepsInv(q: Query, table: seq<NodeInfo>, info: seq<NodeInfo>, queue: seq<nat>, pushed: seq<nat>,
                     u: nat, v: nat, entry: NodeInfo)
    requires ValidQuery(q) && |table| == |q.g| && Inv(q, table, info, queue, pushed)
    requires u in pushed && Edge(q.g, u, v) && Enterable(q, table, v) && v !in pushed
    requires NewEntry(q, table, info, u, v, entry)
    ensures Inv(q, table, info[v := entry], queue + [v], pushed + [v])
  {
    var info', pushed' := info[v := entry], pushed + [v];
    forall i | 0 <= i < |pushed'| ensures PushedWell(q, table, info', pushed', i) {
      if i < |pushed| {
        assert PushedWell(q, table, info, pushed, i);
        assert pushed'[..i] == pushed[..i];
        assert pushed'[i] in pushed;
      } else {
        assert pushed'[..i] == pushed;
      }
    }
    assert v !in queue;
  }

  lemma MoreSettled(q: Query, table: seq<NodeInfo>, queue: seq<nat>, pushed: seq<nat>, v: nat, u: nat)
    requires |table| == |q.g| && q.c.sink < |q.g|
    requires PoppedSettled(q, table, queue, pushed, {u})
    requires v !in pushed
    ensures PoppedSettled(q, table, queue + [v], pushed + [v], {u})
  {
    forall a, b: nat | a in pushed + [v] && a !in queue + [v] && a !in {u} && Edge(q.g, a, b)
      ensures Settled(q, table, pushed + [v], b)
    {
      assert a in pushed && a !in queue;
      assert Settled(q, table, pushed, b);
    }
  }

  /** The search in the middle of scanning the popped node u. */
  ghost predicate Scanning(q: Query, table: seq<NodeInfo>, info: seq<NodeInfo>, queue: seq<nat>, pushed: seq<nat>,
                           turns: seq<Turn>, u: nat)
    requires ValidQuery(q) && |table| == |q.g|
  {
    && Inv(q, table, info, queue, pushed) && PoppedSettled(q, table, queue, pushed, {u})
    && u in pushed && u !in queue && u < |q.g|
    && Ordered(q, table, info, queue, pushed, turns) && turns != [] && turns[|turns| - 1].node == u
  }

  /** The search between two turns. */
  ghost predicate Poised(q: Query, table: seq<NodeInfo>, info: seq<NodeInfo>, queue: seq<nat>, pushed: seq<nat>,
                          turns: seq<Turn>)
    requires ValidQuery(q) && |table| == |q.g|
  {
    && Inv(q, table, info, queue, pushed) && PoppedSettled(q, table, queue, pushed, {})
    && Ordered(q, table, info, queue, pushed, turns)
  }

  lemma StartRests(q: Query, table: seq<NodeInfo>)
    requires ValidQuery(q) && |table| == |q.g|
    ensures Poised(q, table, Opened(q, table), [q.c.source], [q.c.source], [])
  {
    assert PushedWell(q, table, Opened(q, table), [q.c.source], 0);
  }

  lemma PopStep(q: Query, table: seq<NodeInfo>, info: seq<NodeInfo>, queue: seq<nat>, pushed: seq<nat>,
                turns: seq<Turn>, k: nat)
    requires ValidQuery(q) && |table| == |q.g| && Poised(q, table, info, queue, pushed, turns) && k < |queue|
    requires (forall i :: 0 <= i < |queue| ==> queue[i] < |info|) && IsTop(info, queue, k)
    ensures var rest := queue[..k] + queue[k + 1..];
            Scanning(q, table, info, rest, pushed, turns + [Turn(queue[k], |pushed|)], queue[k])
  {
    PopKeeps(q, table, info, queue, pushed, k);
    PopKeepsOrder(q, table, info, queue, pushed, turns, k);
  }

  ghost predicate AllSettledIn(q: Query, table: seq<NodeInfo>, pushed: seq<nat>, list: seq<nat>)
    requires |table| == |q.g| && q.c.sink < |q.g|
  {
    forall k :: 0 <= k < |list| ==> Settled(q, table, pushed, list[k])
  }

  lemma PushStep(q: Query, table: seq<NodeInfo>, info: seq<NodeInfo>, queue: seq<nat>, pushed: seq<nat>,
                 turns: seq<Turn>, u: nat, v: nat, entry: NodeInfo, done: seq<nat>)
    requires ValidQuery(q) && |table| == |q.g| && Scanning(q, table, info, queue, pushed, turns, u)
    requires Edge(q.g, u, v) && Enterable(q, table, v) && v !in pushed
    requires NewEntry(q, table, info, u, v, entry)
    requires AllSettledIn(q, table, pushed, done)
    ensures Scanning(q, table, info[v := entry], queue + [v], pushed + [v], turns, u)
    ensures AllSettledIn(q, table, pushed + [v], done + [v])
  {
    PushKeepsInv(q, table, info, queue, pushed, u, v, entry);
    MoreSettled(q, table, queue, pushed, v, u);
    PushKeepsOrder(q, table, info, queue, pushed, turns, v, entry);
  }

  /** Look at one child v of the popped node u. */
  method LookAt(q: Query, ghost table: seq<NodeInfo>, info: array<NodeInfo>, queue0: seq<nat>,
                ghost pushed0: seq<nat>, ghost turns: seq<Turn>, u: nat, v: nat, ghost done: seq<nat>)
    returns (outcome: Outcome, queue: seq<nat>, ghost pushed: seq<nat>)
    requires ValidQuery(q) && |table| == |q.g| && Scanning(q, table, info[..], queue0, pushed0, turns, u)
    requires Edge(q.g, u, v) && AllSettledIn(q, table, pushed0, done)
    modifies info
    ensures (queue == queue0 && pushed == pushed0) || (queue == queue0 + [v] && pushed == pushed0 + [v])
    ensures outcome.NotFound? ==>
              Scanning(q, table, info[..], queue, pushed, turns, u) && AllSettledIn(q, table, pushed, done + [v])
    ensures outcome.Found? ==>
              && q.c.sink == v && info.Length == |q.g| && info[q.c.sink].prev == Some(u)
              && Scanning(q, table, Unlinked(q, info[..]), queue, pushed, turns, u)
    ensures outcome.Stopped? ==> StopInReach(q, table) && Scanning(q, table, info[..], queue, pushed, turns, u)
    ensures forall w :: w in pushed0 ==> w < info.Length && info[w] == old(info[w])
  {
    queue, pushed, outcome := queue0, pushed0, NotFound;
    PushedInRange(q, table, info[..], queue, pushed);
    VisitedIsPushedOrStale(q, table, info[..], queue, pushed, v);
    if info[v].isVisited == q.uid { return; }
    var targeted := info[v].isTarget == q.uid;
    if targeted && v == q.c.sink {
      ghost var before := info[..];
      info[v] := info[v].(prev := Some(u));
      assert Unlinked(q, info[..]) == before;
      outcome := Found;
      return;
    }
    match JudgeIn(q, targeted, v) {
      case Skip =>
      case Stop =>
        StopFound(q, table, info[..], queue, pushed, u, v);
        outcome := Stopped;
      case Enter =>
        var partial := info[u].partialCost + q.nodeCost(v, targeted);
        var entry := NodeInfo(Some(u), partial + q.estimate(v), partial, q.uid, -1);
        PushStep(q, table, info[..], queue, pushed, turns, u, v, entry, done);
        ghost var before := info[..];
        info[v] := entry;
        assert info[..] == before[v := entry];
        queue, pushed := queue + [v], pushed + [v];
    }
  }

  /** Scan one part of the child list of the popped node u. */
  method ScanList(q: Query, ghost table: seq<NodeInfo>, info: array<NodeInfo>, queue0: seq<nat>,
                  ghost pushed0: seq<nat>, ghost turns: seq<Turn>, u: nat, list: seq<nat>)
    returns (outcome: Outcome, queue: seq<nat>, ghost pushed: seq<nat>)
    requires ValidQuery(q) && |table| == |q.g| && Scanning(q, table, info[..], queue0, pushed0, turns, u)
    requires forall k :: 0 <= k < |list| ==> Edge(q.g, u, list[k])
    modifies info
    ensures pushed0 <= pushed && |queue| - |pushed| == |queue0| - |pushed0|
    ensures outcome.NotFound? ==>
              Scanning(q, table, info[..], queue, pushed, turns, u) && AllSettledIn(q, table, pushed, list)
    ensures outcome.Found? ==>
              && q.c.sink in list && info.Length == |q.g| && info[q.c.sink].prev == Some(u)
              && Scanning(q, table, Unlinked(q, info[..]), queue, pushed, turns, u)
    ensures outcome.Stopped? ==> StopInReach(q, table) && Scanning(q, table, info[..], queue, pushed, turns, u)
    ensures forall v :: v in pushed0 ==> v < info.Length && info[v] == old(info[v])
  {
    queue, pushed, outcome := queue0, pushed0, NotFound;
    PushedInRange(q, table, info[..], queue, pushed);
    for k := 0 to |list|
      invariant outcome == NotFound
      invariant Scanning(q, table, info[..], queue, pushed, turns, u)
      invariant pushed0 <= pushed && |queue| - |pushed| == |queue0| - |pushed0|
      invariant AllSettledIn(q, table, pushed, list[..k])
      invariant forall v :: v in pushed0 ==> v < info.Length && info[v] == old(info[v])
    {
      assert list[..k + 1] == list[..k] + [list[k]];
      outcome, queue, pushed := LookAt(q, table, info, queue, pushed, turns, u, list[k], list[..k]);
      if !outcome.NotFound? { return; }
    }
    assert list[..|list|] == list;
  }

  /**
   Scan the children of the popped node u: the inline part, and then the overflow part
   unless the sink was among the inline ones. Together they settle every child of u.
   */
  method ScanNode(q: Query, ghost table: seq<NodeInfo>, info: array<NodeInfo>, queue0: seq<nat>,
                  ghost pushed0: seq<nat>, ghost turns: seq<Turn>, u: nat)
    returns (outcome: Outcome, queue: seq<nat>, ghost pushed: seq<nat>)
    requires ValidQuery(q) && |table| == |q.g| && Scanning(q, table, info[..], queue0, pushed0, turns, u)
    modifies info
    ensures pushed0 <= pushed && |queue| - |pushed| == |queue0| - |pushed0|
    ensures outcome.NotFound? ==> Poised(q, table, info[..], queue, pushed, turns)
    ensures outcome.Found? ==>
              && Edge(q.g, u, q.c.sink) && info.Length == |q.g| && info[q.c.sink].prev == Some(u)
              && Scanning(q, table, Unlinked(q, info[..]), queue, pushed, turns, u)
    ensures outcome.Stopped? ==> StopInReach(q, table) && Scanning(q, table, info[..], queue, pushed, turns, u)
    ensures forall v :: v in pushed0 ==> v < info.Length && info[v] == old(info[v])
  {
    var node := q.g[u];
    forall k | 0 <= k < |node.inlineChildren| ensures Edge(q.g, u, node.inlineChildren[k]) {
      assert node.Children()[k] == node.inlineChildren[k];
    }
    forall k | 0 <= k < |node.overflowChildren| ensures Edge(q.g, u, node.overflowChildren[k]) {
      assert node.Children()[|node.inlineChildren| + k] == node.overflowChildren[k];
    }
    outcome, queue, pushed := ScanList(q, table, info, queue0, pushed0, turns, u, node.inlineChildren);
    if outcome.NotFound? {
      ghost var pushed1 := pushed;
      outcome, queue, pushed := ScanList(q, table, info, queue, pushed, turns, u, node.overflowChildren);
      if outcome.NotFound? { AllSettled(q, table, queue, pushed1, pushed, u); }
    }
  }

  /** Every pushed node can be reached. */
  lemma {:induction false} PushedArrives(q: Query, table: seq<NodeInfo>, info: seq<NodeInfo>, queue: seq<nat>,
                                         pushed: seq<nat>, i: nat)
    returns (p: seq<nat>)
    requires ValidQuery(q) && |table| == |q.g| && Inv(q, table, info, queue, pushed) && i < |pushed|
    ensures Arrives(q, table, p) && p[|p| - 1] == pushed[i]
    decreases i
  {
    assert PushedWell(q, table, info, pushed, i);
    if i == 0 {
      p := [q.c.source];
    } else {
      var j :| 0 <= j < i && pushed[j] == info[pushed[i]].prev.value;
      var front := PushedArrives(q, table, info, queue, pushed, j);
      p := front + [pushed[i]];
      forall k | 0 <= k < |p| - 1 ensures Edge(q.g, p[k], p[k + 1]) {
        if k < |front| - 1 { assert Edge(q.g, front[k], front[k + 1]); }
      }
    }
  }

  lemma StopFound(q: Query, table: seq<NodeInfo>, info: seq<NodeInfo>, queue: seq<nat>, pushed: seq<nat>, u: nat,
                  v: nat)
    requires ValidQuery(q) && |table| == |q.g| && Inv(q, table, info, queue, pushed)
    requires u in pushed && Edge(q.g, u, v) && Stops(q, table, v)
    ensures StopInReach(q, table)
  {
    var i :| 0 <= i < |pushed| && pushed[i] == u;
    var p := PushedArrives(q, table, info, queue, pushed, i);
  }

  lemma AllSettled(q: Query, table: seq<NodeInfo>, queue: seq<nat>, pushed1: seq<nat>, pushed: seq<nat>, u: nat)
    requires |table| == |q.g| && q.c.sink < |q.g| && u < |q.g| && pushed1 <= pushed
    requires PoppedSettled(q, table, queue, pushed, {u})
    requires AllSettledIn(q, table, pushed1, q.g[u].inlineChildren)
    requires AllSettledIn(q, table, pushed, q.g[u].overflowChildren)
    ensures PoppedSettled(q, table, queue, pushed, {})
  {
    forall a, b: nat | a in pushed && a !in queue && Edge(q.g, a, b) ensures Settled(q, table, pushed, b) {
      if a == u {
        var k :| 0 <= k < |q.g[u].Children()| && q.g[u].Children()[k] == b;
        if k < |q.g[u].inlineChildren| {
          assert Settled(q, table, pushed1, q.g[u].inlineChildren[k]);
        } else {
          assert Settled(q, table, pushed, q.g[u].overflowChildren[k - |q.g[u].inlineChildren|]);
        }
      }
    }
  }

  /** The heap's top: a queued node of least cost. */
  method Top(info: array<NodeInfo>, queue: seq<nat>) returns (k: nat)
    requires |queue| > 0 && forall i :: 0 <= i < |queue| ==> queue[i] < info.Length
    ensures k < |queue| && forall i :: 0 <= i < |queue| ==> info[queue[k]].cost <= info[queue[i]].cost
  {
    k := 0;
    for i := 1 to |queue|
      invariant k < |queue| && forall j :: 0 <= j < i ==> info[queue[k]].cost <= info[queue[j]].cost
    {
      if info[queue[i]].cost < info[queue[k]].cost { k := i; }
    }
  }

  lemma PopKeeps(q: Query, table: seq<NodeInfo>, info: seq<NodeInfo>, queue: seq<nat>, pushed: seq<nat>, k: nat)
    requires ValidQuery(q) && |table| == |q.g| && Inv(q, table, info, queue, pushed) && k < |queue|
    requires PoppedSettled(q, table, queue, pushed, {})
    ensures var rest := queue[..k] + queue[k + 1..];
            && Inv(q, table, info, rest, pushed) && PoppedSettled(q, table, rest, pushed, {queue[k]})
            && queue[k] in pushed && queue[k] !in rest && queue[k] < |q.g|
  {
    var rest := queue[..k] + queue[k + 1..];
    PushedInRange(q, table, info, queue, pushed);
    forall i | 0 <= i < |rest| ensures rest[i] == queue[if i < k then i else i + 1] { }
    forall x ensures x in queue <==> x in rest || x == queue[k] {
      assert queue == queue[..k] + [queue[k]] + queue[k + 1..];
    }
  }

  /** When the queue has run empty, everything reachable has been pushed; the sink was not met. */
  lemma {:induction false} ClosedWalk(q: Query, table: seq<NodeInfo>, pushed: seq<nat>, p: seq<nat>)
    requires ValidQuery(q) && |table| == |q.g|
    requires q.c.source in pushed && PoppedSettled(q, table, [], pushed, {})
    requires Walk(q, table, p)
    ensures p[|p| - 1] != q.c.sink
    ensures |p| >= 2 && Enterable(q, table, p[|p| - 1]) ==> p[|p| - 1] in pushed
  {
    if |p| >= 2 {
      var front := p[..|p| - 1];
      forall i | 0 <= i < |front| - 1 ensures Edge(q.g, front[i], front[i + 1]) {
        assert Edge(q.g, p[i], p[i + 1]);
      }
      assert Walk(q, table, front);
      ClosedWalk(q, table, pushed, front);
      var u, v := p[|p| - 2], p[|p| - 1];
      assert u in pushed;
      assert Edge(q.g, u, v);
      assert Settled(q, table, pushed, v);
    }
  }

  /** The part of the solution already stored ends at a pushed node, earlier than all before it. */
  ghost predicate Traced(q: Query, table: seq<NodeInfo>, pushed: seq<nat>, path: seq<nat>, bound: nat)
    requires |table| == |q.g| && q.c.sink < |q.g|
  {
    && |path| >= 1 && path[0] == q.c.sink
    && (forall i :: 0 <= i < |path| ==> path[i] < |q.g|)
    && (forall i :: 0 <= i < |path| - 1 ==> Edge(q.g, path[i + 1], path[i]))
    && (forall i :: 1 <= i < |path| ==> Enterable(q, table, path[i]))
    && NoRepeat(path) && bound <= |pushed|
    && (forall i :: 1 <= i < |path| ==> path[i] in pushed)
    && forall i :: 0 <= i < |path| ==> path[i] !in pushed[..bound]
  }

  /**
   Follow the predecessor links from the sink. The links lead to ever earlier pushed nodes,
   so that the walk ends, at the source, without meeting a node twice.
   */
  method SaveRouting(q: Query, ghost table: seq<NodeInfo>, info: array<NodeInfo>, ghost queue: seq<nat>,
                     ghost pushed: seq<nat>)
    returns (path: seq<nat>)
    requires ValidQuery(q) && |table| == |q.g| == info.Length
    requires Inv(q, table, Unlinked(q, info[..]), queue, pushed)
    requires info[q.c.sink].prev.Some? && info[q.c.sink].prev.value in pushed
    requires Edge(q.g, info[q.c.sink].prev.value, q.c.sink)
    ensures SinkToSource(q, table, path) && forall i :: 1 <= i < |path| ==> path[i] in pushed
    ensures FollowsLinks(info[..], path)
  {
    ghost var clean := Unlinked(q, info[..]);
    VisitedIsPushedOrStale(q, table, clean, queue, pushed, q.c.sink);
    path := [q.c.sink];
    var next := info[q.c.sink].prev;
    ghost var bound: nat := PlaceOf(pushed, next.value) + 1;
    assert pushed[bound - 1] == next.value;
    while info[next.value].prev.Some?
      invariant Traced(q, table, pushed, path, bound) && 1 <= bound
      invariant next.Some? && pushed[bound - 1] == next.value && next.value < info.Length && next.value != q.c.sink
      invariant Edge(q.g, next.value, path[|path| - 1])
      invariant FollowsLinks(info[..], path + [next.value])
      decreases bound
    {
      var v := next.value;
      assert PushedWell(q, table, clean, pushed, bound - 1);
      assert clean[v] == info[v];
      ghost var earlier := PlaceOf(pushed[..bound - 1], info[v].prev.value);
      TraceStep(q, table, pushed, path, bound, earlier + 1);
      LinksOn(info[..], path, v, info[v].prev.value);
      path := path + [v];
      next := info[v].prev;
      bound := earlier + 1;
    }
    assert PushedWell(q, table, clean, pushed, bound - 1);
    EndTrace(q, table, pushed, path, bound);
    path := path + [next.value];
  }

  lemma LinksOn(info: seq<NodeInfo>, path: seq<nat>, at: nat, u: nat)
    requires FollowsLinks(info, path + [at]) && at < |info| && info[at].prev == Some(u)
    ensures FollowsLinks(info, path + [at] + [u])
  {
    var before, after := path + [at], path + [at] + [u];
    forall i | 0 <= i < |after| - 1 ensures after[i] < |info| && info[after[i]].prev == Some(after[i + 1]) {
      if i < |before| - 1 { assert info[before[i]].prev == Some(before[i + 1]); }
    }
  }

  lemma TraceStep(q: Query, table: seq<NodeInfo>, pushed: seq<nat>, path: seq<nat>, bound: nat, bound': nat)
    requires |table| == |q.g| && q.c.sink < |q.g| && NoRepeat(pushed)
    requires Traced(q, table, pushed, path, bound) && 1 <= bound' < bound
    requires Enterable(q, table, pushed[bound - 1]) && Edge(q.g, pushed[bound - 1], path[|path| - 1])
    ensures Traced(q, table, pushed, path + [pushed[bound - 1]], bound')
  {
    var v := pushed[bound - 1];
    assert v in pushed[..bound];
    assert v !in pushed[..bound'];
    forall i | 0 <= i < |path| ensures path[i] !in pushed[..bound'] && path[i] != v {
      assert path[i] !in pushed[..bound];
      assert forall x :: x in pushed[..bound'] ==> x in pushed[..bound];
    }
  }

  lemma EndTrace(q: Query, table: seq<NodeInfo>, pushed: seq<nat>, path: seq<nat>, bound: nat)
    requires |table| == |q.g| && q.c.sink < |q.g|
    requires Traced(q, table, pushed, path, bound) && bound == 1 && pushed[0] == q.c.source < |q.g|
    requires Edge(q.g, q.c.source, path[|path| - 1])
    ensures SinkToSource(q, table, path + [q.c.source])
  {
    assert pushed[0] in pushed[..1];
  }

  lemma PathIsWalk(q: Query, table: seq<NodeInfo>, path: seq<nat>)
    requires |table| == |q.g| && q.c.sink < |q.g| && SinkToSource(q, table, path)
    ensures Reachable(q, table)
  {
    var p := seq(|path|, i requires 0 <= i < |path| => path[|path| - 1 - i]);
    forall i | 0 <= i < |p| - 1 ensures Edge(q.g, p[i], p[i + 1]) {
      var j := |path| - 2 - i;
      assert Edge(q.g, path[j + 1], path[j]);
    }
    assert Walk(q, table, p);
  }

  /** The turns taken so far were all best-first. */
  ghost predicate AllBest(info: seq<NodeInfo>, pushed: seq<nat>, turns: seq<Turn>) {
    && (forall k :: 0 <= k < |pushed| ==> pushed[k] < |info|)
    && forall i :: 0 <= i < |turns| ==> TakesBest(info, pushed, turns, i)
  }

  lemma OrderedIsBest(q: Query, table: seq<NodeInfo>, clean: seq<NodeInfo>, info: seq<NodeInfo>, queue: seq<nat>,
                      pushed: seq<nat>, turns: seq<Turn>)
    requires |table| == |info| == |q.g| && q.c.sink < |q.g| && Ordered(q, table, clean, queue, pushed, turns)
    requires forall v :: 0 <= v < |info| ==> info[v].cost == clean[v].cost
    ensures AllBest(info, pushed, turns)
  {
    forall i | 0 <= i < |turns| ensures TakesBest(info, pushed, turns, i) {
      assert TurnWell(q, table, clean, pushed, turns, i);
    }
  }

  /** What every search leaves in its table: priced and stamped entries of the nodes it pushed, taken best first. */
  ghost predicate Leaves(q: Query, table: seq<NodeInfo>, info: seq<NodeInfo>, pushed: seq<nat>, turns: seq<Turn>) {
    && NoRepeat(pushed) && AllBest(info, pushed, turns) && Restamped(q.uid, table, info)
    && (forall v :: v in pushed ==> v < |info| && info[v].isVisited == q.uid)
    && (forall v :: v in pushed && v != q.c.source ==> Priced(q, table, info, v))
  }

  lemma EndLeaves(q: Query, table: seq<NodeInfo>, clean: seq<NodeInfo>, info: seq<NodeInfo>, queue: seq<nat>,
                  pushed: seq<nat>, turns: seq<Turn>)
    requires ValidQuery(q) && |table| == |info| == |q.g| && Inv(q, table, clean, queue, pushed)
    requires Ordered(q, table, clean, queue, pushed, turns) && (clean == info || clean == Unlinked(q, info))
    ensures Leaves(q, table, info, pushed, turns)
  {
    AllPriced(q, table, clean, info, queue, pushed);
    OrderedIsBest(q, table, clean, info, queue, pushed, turns);
  }

  /** The solution of a search whose last turn met the sink. */
  lemma FoundConcludes(q: Query, table: seq<NodeInfo>, info: seq<NodeInfo>, queue: seq<nat>, pushed: seq<nat>,
                       turns: seq<Turn>, path: seq<nat>)
    requires ValidQuery(q) && |table| == |info| == |q.g| && turns != []
    requires Inv(q, table, Unlinked(q, info), queue, pushed)
    requires Ordered(q, table, Unlinked(q, info), queue, pushed, turns)
    requires SinkToSource(q, table, path) && FollowsLinks(info, path)
    requires info[q.c.sink].prev == Some(turns[|turns| - 1].node)
    ensures Concluded(q, table, Found, path) && path[1] == turns[|turns| - 1].node
    ensures Leaves(q, table, info, pushed, turns)
  {
    EndLeaves(q, table, Unlinked(q, info), info, queue, pushed, turns);
    PathIsWalk(q, table, path);
    assert info[path[0]].prev == Some(path[0 + 1]);
    assert Explains(q, table, path, Record(info, queue, pushed, turns));
  }

  /** One turn: take a queued node of least cost and look at its children. */
  method TakeTurn(q: Query, ghost table: seq<NodeInfo>, info: array<NodeInfo>, queue0: seq<nat>,
                  ghost pushed0: seq<nat>, ghost turns0: seq<Turn>)
    returns (outcome: Outcome, queue: seq<nat>, ghost pushed: seq<nat>, ghost turns: seq<Turn>)
    requires ValidQuery(q) && |table| == |q.g| && Poised(q, table, info[..], queue0, pushed0, turns0) && |queue0| > 0
    modifies info
    ensures |queue| - |pushed| == |queue0| - |pushed0| - 1 && |pushed| <= |q.g| && turns != []
    ensures outcome.NotFound? ==> Poised(q, table, info[..], queue, pushed, turns)
    ensures outcome.Found? ==>
              var u := turns[|turns| - 1].node;
              && Edge(q.g, u, q.c.sink) && info.Length == |q.g| && info[q.c.sink].prev == Some(u)
              && Scanning(q, table, Unlinked(q, info[..]), queue, pushed, turns, u)
    ensures outcome.Stopped? ==>
              StopInReach(q, table) && Scanning(q, table, info[..], queue, pushed, turns, turns[|turns| - 1].node)
  {
    PushedInRange(q, table, info[..], queue0, pushed0);
    var k := Top(info, queue0);
    var u := queue0[k];
    PopStep(q, table, info[..], queue0, pushed0, turns0, k);
    turns := turns0 + [Turn(u, |pushed0|)];
    outcome, queue, pushed := ScanNode(q, table, info, queue0[..k] + queue0[k + 1..], pushed0, turns, u);
    PushedFits(q, table, if outcome.Found? then Unlinked(q, info[..]) else info[..], queue, pushed);
  }

  /**
   Route one connection. For every table left behind by earlier searches: the search ends,
   pushes no node twice, and ends as Concluded says. It finds nothing if and only if neither
   the sink nor a node at which the program stops is in reach. In every turn it takes a queued
   node of least cost, and the node before the sink is the one taken last.
   */
  method RouteOneConnection(q: Query, info: array<NodeInfo>)
    returns (outcome: Outcome, path: seq<nat>, ghost pushed: seq<nat>, ghost turns: seq<Turn>)
    requires ValidQuery(q) && info.Length == |q.g|
    modifies info
    ensures Leaves(q, old(info[..]), info[..], pushed, turns) && Concluded(q, old(info[..]), outcome, path)
    ensures outcome.Found? ==> forall i :: 1 <= i < |path| ==> path[i] in pushed
    ensures outcome.Found? ==> turns != [] && path[1] == turns[|turns| - 1].node
    ensures outcome.NotFound? ==> forall v :: v in pushed ==> TakenBefore(turns, |turns|, v)
  {
    ghost var table := info[..];
    path := [];
    info[q.c.source] := NodeInfo(None, 0.0, 0.0, q.uid, -1);
    info[q.c.sink] := NodeInfo(None, 0.0, 0.0, -1, q.uid);
    assert info[..] == Opened(q, table);
    var queue: seq<nat> := [q.c.source];
    pushed, turns := [q.c.source], [];
    StartRests(q, table);
    outcome := NotFound;
    while |queue| > 0
      invariant outcome.NotFound? && Poised(q, table, info[..], queue, pushed, turns)
      decreases |q.g| - |pushed| + |queue|
    {
      outcome, queue, pushed, turns := TakeTurn(q, table, info, queue, pushed, turns);
      if outcome.Stopped? {
        EndLeaves(q, table, info[..], info[..], queue, pushed, turns);
        return;
      }
      if outcome.Found? {
        path := SaveRouting(q, table, info, queue, pushed);
        FoundConcludes(q, table, info[..], queue, pushed, turns, path);
        return;
      }
    }
    NothingLeft(q, table, info[..], pushed);
    EndLeaves(q, table, info[..], info[..], queue, pushed, turns);
  }

  /** Every entry keeps its stamps, or gets the given one or none. */
  ghost predicate Restamped(uid: int, before: seq<NodeInfo>, after: seq<NodeInfo>) {
    && |after| == |before|
    && forall v :: 0 <= v < |before| ==>
         after[v].isVisited in {before[v].isVisited, uid, -1} && after[v].isTarget in {before[v].isTarget, uid, -1}
  }

  lemma AllPriced(q: Query, table: seq<NodeInfo>, clean: seq<NodeInfo>, info: seq<NodeInfo>, queue: seq<nat>,
                  pushed: seq<nat>)
    requires ValidQuery(q) && |table| == |info| == |q.g| && Inv(q, table, clean, queue, pushed)
    requires forall v :: 0 <= v < |info| && v != q.c.sink ==> info[v] == clean[v]
    requires info[q.c.sink].isVisited == clean[q.c.sink].isVisited
    requires info[q.c.sink].isTarget == clean[q.c.sink].isTarget
    ensures forall v :: v in pushed && v != q.c.source ==> Priced(q, table, info, v)
    ensures Restamped(q.uid, table, info) && forall v :: v in pushed ==> v < |info| && info[v].isVisited == q.uid
  {
    VisitedIsPushedOrStale(q, table, clean, queue, pushed, q.c.sink);
    forall v | v in pushed ensures v < |q.g| && info[v].isVisited == q.uid && info[v].isTarget == -1 {
      var i :| 0 <= i < |pushed| && pushed[i] == v;
      assert PushedWell(q, table, clean, pushed, i);
    }
    forall v | v in pushed && v != q.c.source ensures Priced(q, table, info, v) {
      var i :| 0 <= i < |pushed| && pushed[i] == v;
      assert PushedWell(q, table, clean, pushed, i) && PushedWell(q, table, clean, pushed, 0);
      assert clean[v].prev.value in pushed;
    }
  }

  lemma PushedIsEnterable(q: Query, table: seq<NodeInfo>, info: seq<NodeInfo>, queue: seq<nat>, pushed: seq<nat>,
                          v: nat)
    requires ValidQuery(q) && |table| == |q.g| && Inv(q, table, info, queue, pushed) && v in pushed
    ensures v == q.c.source || Enterable(q, table, v)
  {
    var i :| 0 <= i < |pushed| && pushed[i] == v;
    assert PushedWell(q, table, info, pushed, i);
  }

  lemma NothingLeft(q: Query, table: seq<NodeInfo>, info: seq<NodeInfo>, pushed: seq<nat>)
    requires ValidQuery(q) && |table| == |q.g|
    requires Inv(q, table, info, [], pushed) && PoppedSettled(q, table, [], pushed, {})
    ensures !Reachable(q, table) && !StopInReach(q, table)
  {
    VisitedIsPushedOrStale(q, table, info, [], pushed, q.c.source);
    forall p | Walk(q, table, p) ensures p[|p| - 1] != q.c.sink { ClosedWalk(q, table, pushed, p); }
    forall p, v: nat | Arrives(q, table, p) && Edge(q.g, p[|p| - 1], v) ensures !Stops(q, table, v) {
      ClosedWalk(q, table, pushed, p);
      assert Settled(q, table, pushed, v);
      if v in pushed { PushedIsEnterable(q, table, info, [], pushed, v); }
    }
  }

  // Stamps

  /** No entry carries the stamp. */
  ghost predicate Unused(uid: int, table: seq<NodeInfo>) {
    forall v :: 0 <= v < |table| ==> table[v].isVisited != uid && table[v].isTarget != uid
  }

  /** No entry carries this search's stamp. */
  ghost predicate Fresh(q: Query, table: seq<NodeInfo>) { Unused(q.uid, table) }

  /** A node this connection may pass through, whatever the scratch table says. */
  predicate Accessible(q: Query, v: nat)
    requires q.c.sink < |q.g|
  {
    v < |q.g| && v != q.c.sink && v != q.c.source && JudgeIn(q, false, v) == Enter
  }

  /** With fresh stamps, what the search may enter is decided by the graph and the counts alone. */
  lemma FreshEntersAccessible(q: Query, table: seq<NodeInfo>, v: nat)
    requires |table| == |q.g| && q.c.sink < |q.g| && Fresh(q, table)
    ensures Enterable(q, table, v) <==> Accessible(q, v)
  {
  }

  /** With fresh stamps the program stops only at a source pin, a super long line or a failing assertion. */
  lemma FreshStops(q: Query, table: seq<NodeInfo>, v: nat)
    requires |table| == |q.g| && q.c.sink < |q.g| && Fresh(q, table) && Stops(q, table, v)
    ensures InBox(q.g, q.c, v) && (q.g[v].kind in {PINFEED_O, SUPER_LONG_LINE} || q.alarm(v, false))
  {
  }

  /** Stale stamps only ever remove walks, unless a stale target stamp admits a sink pin. */
  lemma StaleLosesWalks(q: Query, table: seq<NodeInfo>, clean: seq<NodeInfo>)
    requires |table| == |clean| == |q.g| && q.c.sink < |q.g| && Fresh(q, clean)
    requires forall v :: 0 <= v < |table| ==> table[v].isTarget != q.uid
    requires Reachable(q, table)
    ensures Reachable(q, clean)
  {
    var p :| Walk(q, table, p) && p[|p| - 1] == q.c.sink;
    forall i | 1 <= i < |p| - 1 ensures Enterable(q, clean, p[i]) { assert Enterable(q, table, p[i]); }
    assert Walk(q, clean, p);
  }

  /** A walk whose inner nodes the accessibility tests admit. */
  ghost predicate AccessibleWalk(q: Query, p: seq<nat>)
    requires q.c.sink < |q.g|
  {
    && |p| >= 1 && p[0] == q.c.source
    && (forall i :: 0 <= i < |p| ==> p[i] < |q.g|)
    && (forall i :: 0 <= i < |p| - 1 ==> Edge(q.g, p[i], p[i + 1]))
    && (forall i :: 1 <= i < |p| - 1 ==> Accessible(q, p[i]))
  }

  /** The sink can be reached through accessible nodes; no scratch table is involved. */
  ghost predicate SinkInReach(q: Query)
    requires q.c.sink < |q.g|
  {
    exists p :: AccessibleWalk(q, p) && p[|p| - 1] == q.c.sink
  }

  /** With fresh stamps the sink is reachable if and only if it is so through accessible nodes. */
  lemma FreshReach(q: Query, table: seq<NodeInfo>)
    requires |table| == |q.g| && q.c.sink < |q.g| && Fresh(q, table)
    ensures Reachable(q, table) <==> SinkInReach(q)
  {
    forall p ensures Walk(q, table, p) <==> AccessibleWalk(q, p) { FreshWalk(q, table, p); }
  }

  lemma FreshWalk(q: Query, table: seq<NodeInfo>, p: seq<nat>)
    requires |table| == |q.g| && q.c.sink < |q.g| && Fresh(q, table)
    ensures Walk(q, table, p) <==> AccessibleWalk(q, p)
  {
    forall i | 1 <= i < |p| - 1 ensures Enterable(q, table, p[i]) <==> Accessible(q, p[i]) {
      FreshEntersAccessible(q, table, p[i]);
    }
  }

  /** A stored solution whose inner nodes the accessibility tests admit; no scratch table is involved. */
  ghost predicate AccessiblePath(q: Query, path: seq<nat>)
    requires q.c.sink < |q.g|
  {
    && |path| >= 2 && path[0] == q.c.sink && path[|path| - 1] == q.c.source
    && (forall i :: 0 <= i < |path| ==> path[i] < |q.g|)
    && (forall i :: 0 <= i < |path| - 1 ==> Edge(q.g, path[i + 1], path[i]))
    && (forall i :: 1 <= i < |path| - 1 ==> Accessible(q, path[i]))
    && NoRepeat(path)
  }

  /** A node that the accessibility tests admit, by the graph and the net's counts alone. */
  predicate Passable(g: Graph, c: Terminal, counts: map<nat, int>, v: nat)
    requires c.sink < |g|
  {
    v < |g| && v != c.sink && v != c.source && Judge(g, c, counts, false, v) == Enter
  }

  ghost predicate PassableWalk(g: Graph, c: Terminal, counts: map<nat, int>, p: seq<nat>)
    requires c.sink < |g|
  {
    && |p| >= 1 && p[0] == c.source
    && (forall i :: 0 <= i < |p| ==> p[i] < |g|)
    && (forall i :: 0 <= i < |p| - 1 ==> Edge(g, p[i], p[i + 1]))
    && (forall i :: 1 <= i < |p| - 1 ==> Passable(g, c, counts, p[i]))
  }

  /** A stored solution whose inner nodes are passable. */
  ghost predicate PassablePath(g: Graph, c: Terminal, counts: map<nat, int>, path: seq<nat>)
    requires c.sink < |g|
  {
    && |path| >= 2 && path[0] == c.sink && path[|path| - 1] == c.source
    && (forall i :: 0 <= i < |path| ==> path[i] < |g|)
    && (forall i :: 0 <= i < |path| - 1 ==> Edge(g, path[i + 1], path[i]))
    && (forall i :: 1 <= i < |path| - 1 ==> Passable(g, c, counts, path[i]))
    && NoRepeat(path)
  }

  /** The sink can be reached through passable nodes; this can be told before the search. */
  ghost predicate SinkConnected(g: Graph, c: Terminal, counts: map<nat, int>)
    requires c.sink < |g|
  {
    exists p :: PassableWalk(g, c, counts, p) && p[|p| - 1] == c.sink
  }

  /** A walk over passable nodes is free of failing assertions, or the search stops at the first of them. */
  lemma {:induction false} WalkOrStop(q: Query, table: seq<NodeInfo>, p: seq<nat>, k: nat)
    requires |table| == |q.g| && q.c.sink < |q.g| && Fresh(q, table) && !StopInReach(q, table)
    requires PassableWalk(q.g, q.c, q.counts, p) && 1 <= k < |p|
    ensures Arrives(q, table, p[..k])
  {
    if k > 1 {
      WalkOrStop(q, table, p, k - 1);
      var front := p[..k - 1];
      assert Edge(q.g, p[k - 2], p[k - 2 + 1]);
      assert Edge(q.g, front[|front| - 1], p[k - 1]);
      assert Passable(q.g, q.c, q.counts, p[k - 1]) && !Stops(q, table, p[k - 1]);
      assert forall i :: 0 <= i < k - 1 ==> p[..k][i] == front[i];
    }
  }

  /**
   With fresh stamps a search that is not stopped finds a path if and only if the sink is
   connected, which the graph and the counts decide beforehand.
   */
  lemma FreshConclusion(q: Query, table: seq<NodeInfo>, outcome: Outcome, path: seq<nat>)
    requires |table| == |q.g| && q.c.sink < |q.g| && Fresh(q, table) && Concluded(q, table, outcome, path)
    ensures !outcome.Stopped? ==> (outcome.Found? <==> SinkConnected(q.g, q.c, q.counts))
    ensures outcome.Found? ==> AccessiblePath(q, path)
  {
    FreshReach(q, table);
    if outcome.Found? {
      forall i | 1 <= i < |path| - 1 ensures Accessible(q, path[i]) { FreshEntersAccessible(q, table, path[i]); }
      var p :| AccessibleWalk(q, p) && p[|p| - 1] == q.c.sink;
      assert PassableWalk(q.g, q.c, q.counts, p);
    }
    if outcome.NotFound? && SinkConnected(q.g, q.c, q.counts) {
      var p :| PassableWalk(q.g, q.c, q.counts, p) && p[|p| - 1] == q.c.sink;
      ConnectedIsReached(q, table, p);
    }
  }

  lemma ConnectedIsReached(q: Query, table: seq<NodeInfo>, p: seq<nat>)
    requires |table| == |q.g| && q.c.sink < |q.g| && Fresh(q, table) && !StopInReach(q, table)
    requires PassableWalk(q.g, q.c, q.counts, p) && p[|p| - 1] == q.c.sink
    ensures Reachable(q, table)
  {
    var k := |p| - 1;
    if k > 0 { WalkOrStop(q, table, p, k); }
    forall i | 1 <= i < k ensures Enterable(q, table, p[i]) {
      assert p[..k][i] == p[i];
      assert i < k - 1 ==> Enterable(q, table, p[..k][i]);
    }
    assert Walk(q, table, p);
  }
}
