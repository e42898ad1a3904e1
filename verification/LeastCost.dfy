/**
 What the best-first order of the search (src/route/aStarRoute.cpp, lines 477-612) buys. A node
 keeps the parent that pushed it first. Even so the solution is a cheapest one if the estimates
 are all alike, and otherwise misses it by no more than their spread at every step.
 */
module LeastCost {
  import opened Options
  import opened RoutingGraph
  import opened Search

  /** What entering v costs this search. */
  ghost function Price(q: Query, table: seq<NodeInfo>, v: nat): real { q.nodeCost(v, Targeted(q, table, v)) }

  /** What entering all of the nodes costs. */
  ghost function PriceOf(q: Query, table: seq<NodeInfo>, nodes: seq<nat>): real {
    if nodes == [] then 0.0 else PriceOf(q, table, nodes[..|nodes| - 1]) + Price(q, table, nodes[|nodes| - 1])
  }

  lemma {:induction false} PriceFromFront(q: Query, table: seq<NodeInfo>, v: nat, nodes: seq<nat>)
    ensures PriceOf(q, table, [v] + nodes) == Price(q, table, v) + PriceOf(q, table, nodes)
  {
    var all := [v] + nodes;
    if nodes == [] {
      assert all[..0] == [];
    } else {
      assert all[..|all| - 1] == [v] + nodes[..|nodes| - 1];
      PriceFromFront(q, table, v, nodes[..|nodes| - 1]);
    }
  }

  /**
   No node that may be entered has a negative price. Estimates lie between lo and hi, and from
   node to child none falls by more than the child's price.
   */
  ghost predicate Steady(q: Query, table: seq<NodeInfo>, lo: real, hi: real)
    requires |table| == |q.g| && q.c.sink < |q.g|
  {
    && (forall v: nat :: Enterable(q, table, v) ==> Fair(q, table, lo, hi, v))
    && (forall u: nat, v: nat :: Enterable(q, table, u) && Enterable(q, table, v) && Edge(q.g, u, v) ==>
          q.estimate(u) <= Price(q, table, v) + q.estimate(v))
  }

  ghost predicate Fair(q: Query, table: seq<NodeInfo>, lo: real, hi: real, v: nat) {
    && Price(q, table, v) >= 0.0 && lo <= q.estimate(v) <= hi
    && Price(q, table, v) + q.estimate(v) >= 0.0
  }

  /** The record of a best-first search under steady prices; info lacks the link to the sink. */
  ghost predicate SteadyRun(q: Query, table: seq<NodeInfo>, info: seq<NodeInfo>, queue: seq<nat>, pushed: seq<nat>,
                            turns: seq<Turn>, lo: real, hi: real)
    requires ValidQuery(q) && |table| == |q.g|
  {
    && Inv(q, table, info, queue, pushed) && Ordered(q, table, info, queue, pushed, turns) && turns != []
    && Steady(q, table, lo, hi)
  }

  /** A pushed node is the source, which costs nothing, or it costs what its parent costs and its price. */
  ghost predicate Charged(q: Query, table: seq<NodeInfo>, info: seq<NodeInfo>, v: nat)
    requires |table| == |info| == |q.g| && q.c.sink < |q.g| && v < |info|
  {
    if v == q.c.source then info[v].prev.None? && info[v].cost == info[v].partialCost == 0.0
    else
      && Enterable(q, table, v) && info[v].prev.Some? && info[v].prev.value < |info|
      && Edge(q.g, info[v].prev.value, v)
      && info[v].partialCost == info[info[v].prev.value].partialCost + Price(q, table, v)
      && info[v].cost == info[v].partialCost + q.estimate(v)
  }

  lemma PushedCharged(q: Query, table: seq<NodeInfo>, info: seq<NodeInfo>, queue: seq<nat>, pushed: seq<nat>, v: nat)
    requires ValidQuery(q) && |table| == |q.g| && Inv(q, table, info, queue, pushed) && v in pushed
    ensures v < |info| && Charged(q, table, info, v)
  {
    var t :| 0 <= t < |pushed| && pushed[t] == v;
    assert PushedWell(q, table, info, pushed, t);
  }

  lemma {:induction false} NothingNegative(q: Query, table: seq<NodeInfo>, info: seq<NodeInfo>, queue: seq<nat>,
                                           pushed: seq<nat>, lo: real, hi: real, t: nat)
    requires ValidQuery(q) && |table| == |q.g| && Inv(q, table, info, queue, pushed) && Steady(q, table, lo, hi)
    requires t < |pushed|
    ensures pushed[t] < |info| && info[pushed[t]].partialCost >= 0.0
    decreases t
  {
    var v := pushed[t];
    assert PushedWell(q, table, info, pushed, t);
    if t > 0 {
      var s :| 0 <= s < t && pushed[s] == info[v].prev.value;
      NothingNegative(q, table, info, queue, pushed, lo, hi, s);
      assert Fair(q, table, lo, hi, v);
    }
  }

  /** The node of turn i. */
  ghost function Taken(q: Query, table: seq<NodeInfo>, info: seq<NodeInfo>, queue: seq<nat>, pushed: seq<nat>,
                       turns: seq<Turn>, i: nat): (u: nat)
    requires |table| == |q.g| && q.c.sink < |q.g| && Ordered(q, table, info, queue, pushed, turns) && i < |turns|
    ensures u == turns[i].node && u in pushed && u < |info|
  {
    assert TurnWell(q, table, info, pushed, turns, i);
    turns[i].node
  }

  /** A node pushed by v does not cost less than v. */
  lemma ChildNotCheaper(q: Query, table: seq<NodeInfo>, info: seq<NodeInfo>, lo: real, hi: real, u: nat, v: nat)
    requires |table| == |info| == |q.g| && q.c.sink < |q.g| && Steady(q, table, lo, hi) && u < |info| && v < |info|
    requires Charged(q, table, info, u) && Charged(q, table, info, v) && info[v].prev == Some(u)
    ensures info[u].cost <= info[v].cost
  {
    assert Fair(q, table, lo, hi, v);
    if u != q.c.source { assert q.estimate(u) <= Price(q, table, v) + q.estimate(v); }
  }

  /** The node of a turn does not cost more than that of the next. */
  lemma NextNotCheaper(q: Query, table: seq<NodeInfo>, info: seq<NodeInfo>, queue: seq<nat>, pushed: seq<nat>,
                       turns: seq<Turn>, lo: real, hi: real, i: nat)
    requires ValidQuery(q) && |table| == |q.g| && SteadyRun(q, table, info, queue, pushed, turns, lo, hi)
    requires i + 1 < |turns|
    ensures turns[i].node < |info| && turns[i + 1].node < |info|
    ensures info[turns[i].node].cost <= info[turns[i + 1].node].cost
  {
    var u := Taken(q, table, info, queue, pushed, turns, i);
    var v := Taken(q, table, info, queue, pushed, turns, i + 1);
    assert TurnWell(q, table, info, pushed, turns, i) && TurnWell(q, table, info, pushed, turns, i + 1);
    var n := turns[i + 1].entered;
    var t :| 0 <= t < n && pushed[..n][t] == v;
    assert pushed[t] == v;
    if t < turns[i].entered {
      NotBefore(turns, i, v);
    } else {
      PushedCharged(q, table, info, queue, pushed, u);
      PushedCharged(q, table, info, queue, pushed, v);
      ChildNotCheaper(q, table, info, lo, hi, u, v);
    }
  }

  lemma NotBefore(turns: seq<Turn>, i: nat, v: nat)
    requires i + 1 <= |turns| && !TakenBefore(turns, i + 1, v)
    ensures !TakenBefore(turns, i, v)
  {
  }

  /** Nodes are taken at rising cost. */
  lemma {:induction false} TakenInOrder(q: Query, table: seq<NodeInfo>, info: seq<NodeInfo>, queue: seq<nat>,
                                        pushed: seq<nat>, turns: seq<Turn>, lo: real, hi: real, i: nat, j: nat)
    requires ValidQuery(q) && |table| == |q.g| && SteadyRun(q, table, info, queue, pushed, turns, lo, hi)
    requires i <= j < |turns|
    ensures turns[i].node < |info| && turns[j].node < |info| && info[turns[i].node].cost <= info[turns[j].node].cost
    decreases j - i
  {
    var u := Taken(q, table, info, queue, pushed, turns, i);
    if i < j {
      NextNotCheaper(q, table, info, queue, pushed, turns, lo, hi, j - 1);
      TakenInOrder(q, table, info, queue, pushed, turns, lo, hi, i, j - 1);
    }
  }

  /** Where the cost is no greater, the path cost is greater by the spread of the estimates at most. */
  lemma WithinSpread(q: Query, table: seq<NodeInfo>, info: seq<NodeInfo>, queue: seq<nat>, pushed: seq<nat>,
                     lo: real, hi: real, u: nat, v: nat)
    requires ValidQuery(q) && |table| == |q.g| && Inv(q, table, info, queue, pushed) && Steady(q, table, lo, hi)
    requires u in pushed && v in pushed && u < |info| && v < |info| && lo <= hi && (v == q.c.source ==> u == q.c.source)
    requires info[u].cost <= info[v].cost
    ensures info[u].partialCost <= info[v].partialCost + (hi - lo)
  {
    PushedCharged(q, table, info, queue, pushed, u);
    PushedCharged(q, table, info, queue, pushed, v);
    if u == q.c.source {
      var t :| 0 <= t < |pushed| && pushed[t] == v;
      NothingNegative(q, table, info, queue, pushed, lo, hi, t);
    } else {
      assert Fair(q, table, lo, hi, u) && Fair(q, table, lo, hi, v);
    }
  }

  /** The turn in which the node at place t was pushed. */
  lemma {:induction false} PushedIn(q: Query, table: seq<NodeInfo>, info: seq<NodeInfo>, queue: seq<nat>,
                                    pushed: seq<nat>, turns: seq<Turn>, t: nat, i: nat)
    returns (j: nat)
    requires |table| == |q.g| && q.c.sink < |q.g| && Ordered(q, table, info, queue, pushed, turns)
    requires i < |turns| && 1 <= t < EndOfTurn(pushed, turns, i)
    ensures j <= i && turns[j].entered <= t < |pushed| && info[pushed[t]].prev == Some(turns[j].node)
  {
    assert TurnWell(q, table, info, pushed, turns, i);
    if t >= turns[i].entered {
      j := i;
    } else {
      j := PushedIn(q, table, info, queue, pushed, turns, t, i - 1);
    }
  }

  /** The source is taken first and never again. */
  lemma SourceFirst(q: Query, table: seq<NodeInfo>, info: seq<NodeInfo>, queue: seq<nat>, pushed: seq<nat>,
                    turns: seq<Turn>, i: nat)
    requires ValidQuery(q) && |table| == |q.g| && Inv(q, table, info, queue, pushed)
    requires Ordered(q, table, info, queue, pushed, turns) && i < |turns|
    ensures turns[i].node == q.c.source <==> i == 0
  {
    assert TurnWell(q, table, info, pushed, turns, 0) && TurnWell(q, table, info, pushed, turns, i);
    assert PushedWell(q, table, info, pushed, 0);
    assert pushed[..1] == [q.c.source];
    assert i > 0 ==> TakenBefore(turns, i, turns[0].node);
  }

  /** A child of a node whose turn is over is pushed, and costs no more than by way of that node, up to the spread. */
  lemma OnPastTurn(q: Query, table: seq<NodeInfo>, info: seq<NodeInfo>, queue: seq<nat>, pushed: seq<nat>,
                   turns: seq<Turn>, lo: real, hi: real, i: nat, v: nat)
    requires ValidQuery(q) && |table| == |q.g| && SteadyRun(q, table, info, queue, pushed, turns, lo, hi) && lo <= hi
    requires i + 1 < |turns| && Edge(q.g, turns[i].node, v) && (v == q.c.sink || Enterable(q, table, v))
    ensures v != q.c.sink && v in pushed && v < |info| && turns[i].node < |info|
    ensures info[v].partialCost <= info[turns[i].node].partialCost + Price(q, table, v) + (hi - lo)
  {
    var u := Taken(q, table, info, queue, pushed, turns, i);
    assert TurnWell(q, table, info, pushed, turns, i);
    var n := turns[i + 1].entered;
    assert Settled(q, table, pushed[..n], v);
    var t :| 0 <= t < n && pushed[..n][t] == v;
    assert pushed[t] == v && PushedWell(q, table, info, pushed, t);
    assert PushedWell(q, table, info, pushed, 0);
    var j := PushedIn(q, table, info, queue, pushed, turns, t, i);
    var parent := Taken(q, table, info, queue, pushed, turns, j);
    TakenInOrder(q, table, info, queue, pushed, turns, lo, hi, j, i);
    SourceFirst(q, table, info, queue, pushed, turns, i);
    SourceFirst(q, table, info, queue, pushed, turns, j);
    WithinSpread(q, table, info, queue, pushed, lo, hi, parent, u);
    PushedCharged(q, table, info, queue, pushed, v);
  }

  /** A pushed node that had no earlier turn costs no less than the last one taken, up to the spread. */
  lemma LastTurnIsCheap(q: Query, table: seq<NodeInfo>, info: seq<NodeInfo>, queue: seq<nat>, pushed: seq<nat>,
                        turns: seq<Turn>, lo: real, hi: real, v: nat)
    requires ValidQuery(q) && |table| == |q.g| && SteadyRun(q, table, info, queue, pushed, turns, lo, hi) && lo <= hi
    requires v in pushed && !TakenBefore(turns, |turns| - 1, v)
    ensures var u := turns[|turns| - 1].node;
            u < |info| && v < |info| && info[u].partialCost <= info[v].partialCost + (hi - lo)
  {
    var last := |turns| - 1;
    var u := Taken(q, table, info, queue, pushed, turns, last);
    assert TurnWell(q, table, info, pushed, turns, last);
    PushedCharged(q, table, info, queue, pushed, v);
    SourceFirst(q, table, info, queue, pushed, turns, 0);
    SourceFirst(q, table, info, queue, pushed, turns, last);
    var t :| 0 <= t < |pushed| && pushed[t] == v;
    if t < turns[last].entered {
      assert last > 0 ==> TakenBefore(turns, last, turns[0].node);
      WithinSpread(q, table, info, queue, pushed, lo, hi, u, v);
    } else {
      PushedCharged(q, table, info, queue, pushed, u);
      assert v != q.c.source by {
        assert PushedWell(q, table, info, pushed, t) && PushedWell(q, table, info, pushed, 0);
      }
      assert info[v].prev == Some(u) && Fair(q, table, lo, hi, v);
    }
  }

  /** The spread of the estimates, once for each of k steps. */
  function Slack(lo: real, hi: real, k: nat): real { if k == 0 then 0.0 else Slack(lo, hi, k - 1) + (hi - lo) }

  lemma {:induction false} SlackGrows(lo: real, hi: real, k: nat, n: nat)
    requires lo <= hi && k <= n
    ensures Slack(lo, hi, k) <= Slack(lo, hi, n)
  {
    if k < n { SlackGrows(lo, hi, k, n - 1); }
  }

  lemma {:induction false} PriceGrows(q: Query, table: seq<NodeInfo>, lo: real, hi: real, p: seq<nat>, k: nat, n: nat)
    requires |table| == |q.g| && q.c.sink < |q.g| && Steady(q, table, lo, hi) && Walk(q, table, p)
    requires k <= n < |p| - 1
    ensures PriceOf(q, table, p[1..k + 1]) <= PriceOf(q, table, p[1..n + 1])
    decreases n
  {
    if k < n {
      PriceGrows(q, table, lo, hi, p, k, n - 1);
      assert p[1..n + 1] == p[1..n] + [p[n]];
      assert Fair(q, table, lo, hi, p[n]);
    }
  }

  lemma OnAlongWalk(q: Query, table: seq<NodeInfo>, info: seq<NodeInfo>, queue: seq<nat>, pushed: seq<nat>,
                    turns: seq<Turn>, lo: real, hi: real, p: seq<nat>, k: nat)
    requires ValidQuery(q) && |table| == |q.g| && SteadyRun(q, table, info, queue, pushed, turns, lo, hi) && lo <= hi
    requires Walk(q, table, p) && |p| >= 2 && p[|p| - 1] == q.c.sink && k < |p| - 1
    requires p[k] in pushed && p[k] < |info| && TakenBefore(turns, |turns| - 1, p[k])
    requires info[p[k]].partialCost <= PriceOf(q, table, p[1..k + 1]) + Slack(lo, hi, k)
    ensures k + 1 < |p| - 1 && p[k + 1] in pushed && p[k + 1] < |info|
    ensures info[p[k + 1]].partialCost <= PriceOf(q, table, p[1..k + 2]) + Slack(lo, hi, k + 1)
  {
    var i :| 0 <= i < |turns| - 1 && turns[i].node == p[k];
    assert Edge(q.g, p[k], p[k + 1]);
    OnPastTurn(q, table, info, queue, pushed, turns, lo, hi, i, p[k + 1]);
    assert p[1..k + 2] == p[1..k + 1] + [p[k + 1]];
  }

  lemma OffWalk(q: Query, table: seq<NodeInfo>, info: seq<NodeInfo>, queue: seq<nat>, pushed: seq<nat>,
                turns: seq<Turn>, lo: real, hi: real, p: seq<nat>, k: nat)
    requires ValidQuery(q) && |table| == |q.g| && SteadyRun(q, table, info, queue, pushed, turns, lo, hi) && lo <= hi
    requires Walk(q, table, p) && |p| >= 2 && k < |p| - 1
    requires p[k] in pushed && p[k] < |info| && !TakenBefore(turns, |turns| - 1, p[k])
    requires info[p[k]].partialCost <= PriceOf(q, table, p[1..k + 1]) + Slack(lo, hi, k)
    ensures var u := turns[|turns| - 1].node;
            u < |info| && info[u].partialCost <= PriceOf(q, table, p[1..|p| - 1]) + Slack(lo, hi, |p| - 1)
  {
    var n := |p| - 2;
    assert n + 1 == |p| - 1;
    var sofar, whole := PriceOf(q, table, p[1..k + 1]), PriceOf(q, table, p[1..n + 1]);
    assert sofar <= whole by { PriceGrows(q, table, lo, hi, p, k, n); }
    assert Slack(lo, hi, k) + (hi - lo) <= Slack(lo, hi, n + 1) by { SlackGrows(lo, hi, k + 1, n + 1); }
    LastTurnIsCheap(q, table, info, queue, pushed, turns, lo, hi, p[k]);
  }

  /**
   Along any walk that leads to the sink: as long as its nodes have had their turn before the
   last one, they are pushed at no more than the walk's cost so far, up to the spread per step.
   The walk leaves these nodes before the sink, and there the last turn is no dearer.
   */
  lemma {:induction false} WalkBounds(q: Query, table: seq<NodeInfo>, info: seq<NodeInfo>, queue: seq<nat>,
                                      pushed: seq<nat>, turns: seq<Turn>, lo: real, hi: real, p: seq<nat>, k: nat)
    requires ValidQuery(q) && |table| == |q.g| && SteadyRun(q, table, info, queue, pushed, turns, lo, hi) && lo <= hi
    requires Walk(q, table, p) && |p| >= 2 && p[|p| - 1] == q.c.sink && k < |p| - 1
    requires p[k] in pushed && p[k] < |info|
    requires info[p[k]].partialCost <= PriceOf(q, table, p[1..k + 1]) + Slack(lo, hi, k)
    ensures var u := turns[|turns| - 1].node;
            u < |info| && info[u].partialCost <= PriceOf(q, table, p[1..|p| - 1]) + Slack(lo, hi, |p| - 1)
    decreases |p| - k
  {
    if TakenBefore(turns, |turns| - 1, p[k]) {
      OnAlongWalk(q, table, info, queue, pushed, turns, lo, hi, p, k);
      WalkBounds(q, table, info, queue, pushed, turns, lo, hi, p, k + 1);
    } else {
      OffWalk(q, table, info, queue, pushed, turns, lo, hi, p, k);
    }
  }

  /** The inner nodes of a stored solution or a walk. */
  function Inner(path: seq<nat>): seq<nat> { if |path| < 2 then [] else path[1..|path| - 1] }

  /** The entry of a node on the solution sums up the prices from there to the source. */
  lemma {:induction false} LinksSum(q: Query, table: seq<NodeInfo>, r: Record, path: seq<nat>, i: nat)
    requires |table| == |q.g| && q.c.sink < |q.g| && Explains(q, table, path, r) && SinkToSource(q, table, path)
    requires 1 <= i < |path|
    ensures path[i] in r.pushed
    ensures r.info[path[i]].partialCost == PriceOf(q, table, path[i..|path| - 1])
    decreases |path| - i
  {
    var info := Unlinked(q, r.info);
    LinkedIsPushed(q, table, r, path, i);
    PushedCharged(q, table, info, r.queue, r.pushed, path[i]);
    if i == |path| - 1 {
      assert path[i..|path| - 1] == [];
    } else {
      assert r.info[path[i]].prev == Some(path[i + 1]);
      LinksSum(q, table, r, path, i + 1);
      assert path[i..|path| - 1] == [path[i]] + path[i + 1..|path| - 1];
      PriceFromFront(q, table, path[i], path[i + 1..|path| - 1]);
    }
  }

  lemma {:induction false} LinkedIsPushed(q: Query, table: seq<NodeInfo>, r: Record, path: seq<nat>, i: nat)
    requires |table| == |q.g| && q.c.sink < |q.g| && Explains(q, table, path, r) && 1 <= i < |path|
    ensures path[i] in r.pushed && path[i] != q.c.sink
  {
    var info := Unlinked(q, r.info);
    VisitedIsPushedOrStale(q, table, info, r.queue, r.pushed, q.c.sink);
    if i == 1 {
      assert TurnWell(q, table, info, r.pushed, r.turns, |r.turns| - 1);
    } else {
      LinkedIsPushed(q, table, r, path, i - 1);
      assert r.info[path[i - 1]].prev == Some(path[i - 1 + 1]);
      var t :| 0 <= t < |r.pushed| && r.pushed[t] == path[i - 1];
      assert PushedWell(q, table, info, r.pushed, t);
    }
  }

  /**
   The solution found and any walk from source to sink through nodes that the search may enter:
   the solution costs no more than the walk and, for each step of the walk, the spread of the
   estimates.
   */
  lemma FoundNearLeast(q: Query, table: seq<NodeInfo>, path: seq<nat>, p: seq<nat>, lo: real, hi: real)
    requires ValidQuery(q) && |table| == |q.g| && Concluded(q, table, Found, path)
    requires Steady(q, table, lo, hi) && lo <= hi
    requires Walk(q, table, p) && p[|p| - 1] == q.c.sink
    ensures PriceOf(q, table, Inner(path)) <= PriceOf(q, table, Inner(p)) + Slack(lo, hi, |p| - 1)
  {
    var r: Record :| Explains(q, table, path, r);
    LinksSum(q, table, r, path, 1);
    LinkedIsPushed(q, table, r, path, 1);
    RecordBounds(q, table, path, r, p, lo, hi);
  }

  lemma RecordBounds(q: Query, table: seq<NodeInfo>, path: seq<nat>, r: Record, p: seq<nat>, lo: real, hi: real)
    requires |table| == |q.g| && q.c.sink < |q.g| && Explains(q, table, path, r) && path[1] != q.c.sink
    requires Steady(q, table, lo, hi) && lo <= hi && Walk(q, table, p) && p[|p| - 1] == q.c.sink
    ensures path[1] < |r.info|
    ensures r.info[path[1]].partialCost <= PriceOf(q, table, Inner(p)) + Slack(lo, hi, |p| - 1)
  {
    var info := Unlinked(q, r.info);
    assert PushedWell(q, table, info, r.pushed, 0);
    assert p[1..1] == [];
    WalkBounds(q, table, info, r.queue, r.pushed, r.turns, lo, hi, p, 0);
  }

  lemma {:induction false} NoSlack(x: real, k: nat)
    ensures Slack(x, x, k) == 0.0
  {
    if k > 0 { NoSlack(x, k - 1); }
  }

  /** With estimates all alike the solution is one of least cost. */
  lemma FoundIsLeast(q: Query, table: seq<NodeInfo>, path: seq<nat>, p: seq<nat>, estimate: real)
    requires ValidQuery(q) && |table| == |q.g| && Concluded(q, table, Found, path)
    requires estimate >= 0.0
    requires forall v: nat :: Enterable(q, table, v) ==> Price(q, table, v) >= 0.0 && q.estimate(v) == estimate
    requires Walk(q, table, p) && p[|p| - 1] == q.c.sink
    ensures PriceOf(q, table, Inner(path)) <= PriceOf(q, table, Inner(p))
  {
    FoundNearLeast(q, table, path, p, estimate, estimate);
    NoSlack(estimate, |p| - 1);
  }
}
