/**
 Repair of nets whose connections meet again after parting (aStarRoute::fixNetRoutes,
 src/route/aStarRoute.cpp, lines 303-374). Costs are natural numbers, as base costs are
 multiples of one hundredth; the heap may yield its nodes in any order, since its keys
 change while nodes are queued.
 */
module NetRepair {
  import opened Counting
  import opened Options

  /**
   The nodes of one net, numbered from 0, with their branches, base costs, whether they are
   of type PINFEED_I, source pin and sink pins.
   */
  datatype Routes = Routes(branches: seq<seq<nat>>, cost: seq<nat>, pinfeed: seq<bool>, source: nat, sinks: seq<nat>)
  {
    predicate Valid() {
      && |cost| == |pinfeed| == |branches| && source < |branches|
      && (forall u, k :: 0 <= u < |branches| && 0 <= k < |branches[u]| ==> branches[u][k] < |branches|)
      && (forall k :: 0 <= k < |sinks| ==> sinks[k] < |branches|)
    }

    predicate Edge(u: nat, v: nat) { u < |branches| && v in branches[u] }
  }

  /**
   What upStreamPathCost holds before a node is reached: INT32_MAX whole units, counted in
   hundredths like all costs.
   */
  const UNREACHED: nat := 2147483647 * 100

  // Walks and their cost

  ghost predicate Walk(r: Routes, p: seq<nat>) {
    |p| >= 1 && p[0] == r.source && forall i :: 1 <= i < |p| ==> StepAt(r, p, i)
  }

  ghost predicate StepAt(r: Routes, p: seq<nat>, i: nat)
    requires 1 <= i < |p|
  {
    r.Edge(p[i - 1], p[i])
  }

  /** Base costs of all nodes of the walk after the first. */
  function WalkCost(r: Routes, p: seq<nat>): nat {
    if |p| <= 1 then 0
    else
      var v := p[|p| - 1];
      WalkCost(r, p[..|p| - 1]) + (if v < |r.cost| then r.cost[v] else 0)
  }

  /** Node v can be reached at cost c, and not for less. */
  ghost predicate Cheapest(r: Routes, v: nat, c: nat) {
    && (exists p :: Walk(r, p) && p[|p| - 1] == v && WalkCost(r, p) == c)
    && (forall p :: Walk(r, p) && p[|p| - 1] == v ==> WalkCost(r, p) >= c)
  }

  lemma {:induction false} WalkInRange(r: Routes, p: seq<nat>)
    requires r.Valid() && Walk(r, p)
    ensures forall i :: 0 <= i < |p| ==> p[i] < |r.branches|
  {
    forall i | 0 <= i < |p| ensures p[i] < |r.branches| {
      if i > 0 {
        assert StepAt(r, p, i);
        var k :| 0 <= k < |r.branches[p[i - 1]]| && r.branches[p[i - 1]][k] == p[i];
      }
    }
  }

  // Predecessor links

  /** From the source along the links to the last node. */
  ghost predicate Chain(r: Routes, prevs: seq<Option<nat>>, p: seq<nat>) {
    && |p| >= 1 && p[0] == r.source
    && (forall i :: 0 <= i < |p| ==> p[i] < |prevs|)
    && forall i :: 1 <= i < |p| ==> HangsAt(prevs, p, i)
  }

  ghost predicate HangsAt(prevs: seq<Option<nat>>, p: seq<nat>, i: nat)
    requires 1 <= i < |p|
  {
    p[i] < |prevs| && prevs[p[i]] == Some(p[i - 1])
  }

  lemma {:induction false} ChainUnique(r: Routes, prevs: seq<Option<nat>>, p: seq<nat>, q: seq<nat>)
    requires Chain(r, prevs, p) && Chain(r, prevs, q) && p[|p| - 1] == q[|q| - 1]
    requires prevs[r.source].None?
    ensures p == q
  {
    assert |p| > 1 ==> HangsAt(prevs, p, |p| - 1);
    assert |q| > 1 ==> HangsAt(prevs, q, |q| - 1);
    if |p| > 1 && |q| > 1 {
      ChainPrefix(r, prevs, p, |p| - 2);
      ChainPrefix(r, prevs, q, |q| - 2);
      ChainUnique(r, prevs, p[..|p| - 1], q[..|q| - 1]);
      assert p == p[..|p| - 1] + [p[|p| - 1]] && q == q[..|q| - 1] + [q[|q| - 1]];
    }
  }

  lemma ChainPrefix(r: Routes, prevs: seq<Option<nat>>, p: seq<nat>, i: nat)
    requires Chain(r, prevs, p) && i < |p|
    ensures Chain(r, prevs, p[..i + 1]) && p[..i + 1][|p[..i + 1]| - 1] == p[i]
  {
    var q := p[..i + 1];
    forall j | 1 <= j < |q| ensures HangsAt(prevs, q, j) { assert HangsAt(prevs, p, j); }
  }

  /** A chain never meets a node twice. */
  lemma ChainNoRepeat(r: Routes, prevs: seq<Option<nat>>, p: seq<nat>)
    requires Chain(r, prevs, p) && prevs[r.source].None?
    ensures NoRepeat(p)
  {
    forall i, j | 0 <= i < j < |p| ensures p[i] != p[j] {
      if p[i] == p[j] {
        ChainPrefix(r, prevs, p, i);
        ChainPrefix(r, prevs, p, j);
        ChainUnique(r, prevs, p[..i + 1], p[..j + 1]);
      }
    }
  }

  // The relaxation

  /** Along every link the cost grows by at least the node's own; the source has no link. */
  ghost predicate LinksOk(r: Routes, dist: seq<nat>, prevs: seq<Option<nat>>) {
    && |dist| == |prevs| == |r.branches| == |r.cost| && r.source < |dist| && dist[r.source] == 0
    && prevs[r.source].None?
    && forall v :: 0 <= v < |prevs| && prevs[v].Some? ==>
         && r.Edge(prevs[v].value, v) && prevs[v].value < |dist|
         && dist[v] >= dist[prevs[v].value] + r.cost[v] && dist[v] < UNREACHED
  }

  /** Nodes that have been reached hang on the source by a chain, the others have no link. */
  ghost predicate Rooted(r: Routes, dist: seq<nat>, prevs: seq<Option<nat>>, chains: map<nat, seq<nat>>) {
    forall v: nat :: v < |dist| ==>
      if dist[v] < UNREACHED then v in chains && Chain(r, prevs, chains[v]) && chains[v][|chains[v]| - 1] == v
      else dist[v] == UNREACHED && (v < |prevs| ==> prevs[v].None?)
  }

  lemma {:induction false} CostGrows(r: Routes, dist: seq<nat>, prevs: seq<Option<nat>>, p: seq<nat>, i: nat)
    requires r.Valid() && LinksOk(r, dist, prevs) && Chain(r, prevs, p) && i < |p|
    ensures dist[p[i]] <= dist[p[|p| - 1]]
  {
    if i < |p| - 1 {
      ChainPrefix(r, prevs, p, |p| - 2);
      CostGrows(r, dist, prevs, p[..|p| - 1], i);
      assert HangsAt(prevs, p, |p| - 1);
    }
  }

  /** A node that can be improved through u is not among u's predecessors, even if costs are zero. */
  lemma NoLoop(r: Routes, dist: seq<nat>, prevs: seq<Option<nat>>, p: seq<nat>, v: nat)
    requires r.Valid() && LinksOk(r, dist, prevs) && Chain(r, prevs, p) && v < |dist|
    requires dist[p[|p| - 1]] + r.cost[v] < dist[v]
    ensures v !in p
  {
    if v in p {
      var i :| 0 <= i < |p| && p[i] == v;
      CostGrows(r, dist, prevs, p, i);
    }
  }

  /** The chain of w after v has been hung on u. */
  ghost function Rehung(chains: map<nat, seq<nat>>, u: nat, v: nat, w: nat): seq<nat>
    requires u in chains
  {
    if w == v then chains[u] + [v]
    else if w !in chains then []
    else if v in chains[w] then chains[u] + chains[w][PlaceOf(chains[w], v)..]
    else chains[w]
  }

  /** Links from one node of the sequence to the one before. */
  ghost predicate Linked(prevs: seq<Option<nat>>, b: seq<nat>) {
    (forall i :: 0 <= i < |b| ==> b[i] < |prevs|) && forall i :: 1 <= i < |b| ==> HangsAt(prevs, b, i)
  }

  lemma Splice(r: Routes, prevs: seq<Option<nat>>, a: seq<nat>, b: seq<nat>)
    requires Chain(r, prevs, a) && |b| > 0 && Linked(prevs, b) && prevs[b[0]] == Some(a[|a| - 1])
    ensures Chain(r, prevs, a + b)
  {
    var p := a + b;
    forall i | 1 <= i < |p| ensures HangsAt(prevs, p, i) {
      if i < |a| { assert HangsAt(prevs, a, i); }
      if i > |a| { assert HangsAt(prevs, b, i - |a|); }
    }
  }

  lemma RehungIsChain(r: Routes, dist: seq<nat>, prevs: seq<Option<nat>>, chains: map<nat, seq<nat>>, u: nat, v: nat,
                      w: nat)
    requires r.Valid() && LinksOk(r, dist, prevs) && Rooted(r, dist, prevs, chains)
    requires u < |dist| && v < |dist| && dist[u] < UNREACHED && dist[u] + r.cost[v] < dist[v]
    requires w == v || (w < |dist| && dist[w] < UNREACHED)
    ensures var p := Rehung(chains, u, v, w); Chain(r, prevs[v := Some(u)], p) && p[|p| - 1] == w
  {
    NoLoop(r, dist, prevs, chains[u], v);
    var now := prevs[v := Some(u)];
    OtherChain(r, prevs, chains[u], v, u);
    if w == v {
      Splice(r, now, chains[u], [v]);
    } else if v in chains[w] {
      var p, i := chains[w], PlaceOf(chains[w], v);
      ChainNoRepeat(r, prevs, p);
      TailLinked(prevs, p, i, u);
      Splice(r, now, chains[u], p[i..]);
    } else {
      OtherChain(r, prevs, chains[w], v, u);
    }
  }

  lemma OtherChain(r: Routes, prevs: seq<Option<nat>>, p: seq<nat>, v: nat, u: nat)
    requires Chain(r, prevs, p) && v < |prevs| && v !in p
    ensures Chain(r, prevs[v := Some(u)], p)
  {
    var now := prevs[v := Some(u)];
    forall i | 1 <= i < |p| ensures HangsAt(now, p, i) { assert HangsAt(prevs, p, i); }
  }

  lemma TailLinked(prevs: seq<Option<nat>>, p: seq<nat>, i: nat, u: nat)
    requires Linked(prevs, p) && NoRepeat(p) && i < |p|
    ensures Linked(prevs[p[i] := Some(u)], p[i..])
  {
    var b, now := p[i..], prevs[p[i] := Some(u)];
    forall j | 1 <= j < |b| ensures HangsAt(now, b, j) { assert HangsAt(prevs, p, i + j); }
  }

  ghost function RehungAll(dist: seq<nat>, chains: map<nat, seq<nat>>, u: nat, v: nat): map<nat, seq<nat>>
    requires u in chains
  {
    map w: nat | w < |dist| && (w == v || dist[w] < UNREACHED) :: Rehung(chains, u, v, w)
  }

  /** Hanging an improved node on its new driver keeps all links in order. */
  lemma RelaxKeeps(r: Routes, dist: seq<nat>, prevs: seq<Option<nat>>, chains: map<nat, seq<nat>>, u: nat, v: nat)
    requires r.Valid() && LinksOk(r, dist, prevs) && Rooted(r, dist, prevs, chains)
    requires u < |dist| && v < |dist| && dist[u] < UNREACHED && r.Edge(u, v) && dist[u] + r.cost[v] < dist[v]
    ensures LinksOk(r, dist[v := dist[u] + r.cost[v]], prevs[v := Some(u)])
    ensures Rooted(r, dist[v := dist[u] + r.cost[v]], prevs[v := Some(u)], RehungAll(dist, chains, u, v))
  {
    var dist', prevs', chains' := dist[v := dist[u] + r.cost[v]], prevs[v := Some(u)], RehungAll(dist, chains, u, v);
    forall w: nat | w < |dist'|
      ensures dist'[w] < UNREACHED ==> w in chains' && Chain(r, prevs', chains'[w]) && chains'[w][|chains'[w]| - 1] == w
    {
      if dist'[w] < UNREACHED { RehungIsChain(r, dist, prevs, chains, u, v, w); }
    }
  }

  /** Every edge out of a node that is not waiting has been used up. */
  ghost predicate Relaxed(r: Routes, dist: seq<nat>, waiting: seq<nat>, except: set<nat>)
    requires |dist| == |r.branches| == |r.cost|
  {
    forall u: nat, v: nat :: u < |dist| && u !in waiting && u !in except && r.Edge(u, v) && v < |dist| ==>
      dist[v] <= dist[u] + r.cost[v]
  }

  ghost predicate Waiting(dist: seq<nat>, queue: seq<nat>) {
    forall i :: 0 <= i < |queue| ==> queue[i] < |dist| && dist[queue[i]] < UNREACHED
  }

  function Sum(dist: seq<nat>): nat { if |dist| == 0 then 0 else Sum(dist[..|dist| - 1]) + dist[|dist| - 1] }

  lemma {:induction false} SumDrops(dist: seq<nat>, v: nat, x: nat)
    requires v < |dist|
    ensures Sum(dist[v := x]) == Sum(dist) - dist[v] + x
  {
    var last := |dist| - 1;
    if v == last {
      assert dist[v := x][..last] == dist[..last];
    } else {
      assert dist[v := x][..last] == dist[..last][v := x];
      SumDrops(dist[..last], v, x);
    }
  }

  lemma SumFalls(dist: seq<nat>, v: nat, x: nat)
    requires v < |dist| && x < dist[v]
    ensures Sum(dist[v := x]) < Sum(dist)
  {
    SumDrops(dist, v, x);
  }

  /** The first k branches of cur offer no improvement any more. */
  ghost predicate UsedUp(r: Routes, dist: seq<nat>, cur: nat, k: nat)
    requires r.Valid() && |dist| == |r.branches| && cur < |dist| && k <= |r.branches[cur]|
  {
    forall j :: 0 <= j < k ==> dist[r.branches[cur][j]] <= dist[cur] + r.cost[r.branches[cur][j]]
  }

  /** Try every branch of the node taken from the queue. */
  method ScanBranches(r: Routes, cur: nat, dist0: seq<nat>, prevs0: seq<Option<nat>>, queue0: seq<nat>,
                      ghost chains0: map<nat, seq<nat>>)
    returns (dist: seq<nat>, prevs: seq<Option<nat>>, queue: seq<nat>, ghost chains: map<nat, seq<nat>>)
    requires r.Valid() && LinksOk(r, dist0, prevs0) && Rooted(r, dist0, prevs0, chains0)
    requires cur < |dist0| && dist0[cur] < UNREACHED && Waiting(dist0, queue0) && Relaxed(r, dist0, queue0, {cur})
    ensures LinksOk(r, dist, prevs) && Rooted(r, dist, prevs, chains)
    ensures Waiting(dist, queue) && Relaxed(r, dist, queue, {})
    ensures Sum(dist) < Sum(dist0) || (dist == dist0 && queue == queue0)
  {
    dist, prevs, queue, chains := dist0, prevs0, queue0, chains0;
    for k := 0 to |r.branches[cur]|
      invariant Scanning(r, dist, prevs, chains, queue, cur, k)
      invariant Sum(dist) < Sum(dist0) || (dist == dist0 && queue == queue0)
    {
      dist, prevs, queue, chains := TryBranch(r, cur, k, dist, prevs, queue, chains);
    }
    AllUsed(r, dist, queue, cur);
  }

  /** In the middle of the branches of cur. */
  ghost predicate Scanning(r: Routes, dist: seq<nat>, prevs: seq<Option<nat>>, chains: map<nat, seq<nat>>,
                           queue: seq<nat>, cur: nat, k: nat)
  {
    && r.Valid() && LinksOk(r, dist, prevs) && Rooted(r, dist, prevs, chains)
    && cur < |dist| && dist[cur] < UNREACHED && Waiting(dist, queue) && Relaxed(r, dist, queue, {cur})
    && k <= |r.branches[cur]| && UsedUp(r, dist, cur, k)
  }

  method TryBranch(r: Routes, cur: nat, k: nat, dist0: seq<nat>, prevs0: seq<Option<nat>>, queue0: seq<nat>,
                   ghost chains0: map<nat, seq<nat>>)
    returns (dist: seq<nat>, prevs: seq<Option<nat>>, queue: seq<nat>, ghost chains: map<nat, seq<nat>>)
    requires Scanning(r, dist0, prevs0, chains0, queue0, cur, k) && k < |r.branches[cur]|
    ensures Scanning(r, dist, prevs, chains, queue, cur, k + 1)
    ensures Sum(dist) < Sum(dist0) || (dist == dist0 && queue == queue0)
  {
    var child := r.branches[cur][k];
    var newCost := dist0[cur] + r.cost[child];
    if newCost < dist0[child] {
      SumFalls(dist0, child, newCost);
      dist, prevs, queue := dist0[child := newCost], prevs0[child := Some(cur)], queue0 + [child];
      chains := Improved(r, dist0, prevs0, chains0, queue0, cur, k, dist, prevs, queue);
    } else {
      NotImproved(r, dist0, prevs0, chains0, queue0, cur, k);
      dist, prevs, queue, chains := dist0, prevs0, queue0, chains0;
    }
  }

  lemma Improved(r: Routes, dist: seq<nat>, prevs: seq<Option<nat>>, chains: map<nat, seq<nat>>, queue: seq<nat>,
                 cur: nat, k: nat, dist': seq<nat>, prevs': seq<Option<nat>>, queue': seq<nat>)
    returns (chains': map<nat, seq<nat>>)
    requires Scanning(r, dist, prevs, chains, queue, cur, k) && k < |r.branches[cur]|
    requires dist[cur] + r.cost[r.branches[cur][k]] < dist[r.branches[cur][k]]
    requires var child := r.branches[cur][k];
             && dist' == dist[child := dist[cur] + r.cost[child]] && prevs' == prevs[child := Some(cur)]
             && queue' == queue + [child]
    ensures Scanning(r, dist', prevs', chains', queue', cur, k + 1)
  {
    var child := r.branches[cur][k];
    chains' := RehungAll(dist, chains, cur, child);
    RelaxKeeps(r, dist, prevs, chains, cur, child);
    QueueStep(r, dist, queue, cur, k);
  }

  lemma NotImproved(r: Routes, dist: seq<nat>, prevs: seq<Option<nat>>, chains: map<nat, seq<nat>>, queue: seq<nat>,
                    cur: nat, k: nat)
    requires Scanning(r, dist, prevs, chains, queue, cur, k) && k < |r.branches[cur]|
    requires dist[r.branches[cur][k]] <= dist[cur] + r.cost[r.branches[cur][k]]
    ensures Scanning(r, dist, prevs, chains, queue, cur, k + 1)
  {
    UsedMore(r, dist, cur, k);
  }

  lemma QueueStep(r: Routes, dist: seq<nat>, queue: seq<nat>, cur: nat, k: nat)
    requires r.Valid() && |dist| == |r.branches| && cur < |dist| && k < |r.branches[cur]|
    requires Waiting(dist, queue) && Relaxed(r, dist, queue, {cur}) && UsedUp(r, dist, cur, k)
    requires dist[cur] + r.cost[r.branches[cur][k]] < dist[r.branches[cur][k]] <= UNREACHED
    ensures var child := r.branches[cur][k];
            var dist' := dist[child := dist[cur] + r.cost[child]];
            && child != cur && Waiting(dist', queue + [child]) && Relaxed(r, dist', queue + [child], {cur})
            && UsedUp(r, dist', cur, k + 1)
  {
  }

  lemma UsedMore(r: Routes, dist: seq<nat>, cur: nat, k: nat)
    requires r.Valid() && |dist| == |r.branches| && cur < |dist| && k < |r.branches[cur]| && UsedUp(r, dist, cur, k)
    requires dist[r.branches[cur][k]] <= dist[cur] + r.cost[r.branches[cur][k]]
    ensures UsedUp(r, dist, cur, k + 1)
  {
  }

  lemma AllUsed(r: Routes, dist: seq<nat>, queue: seq<nat>, cur: nat)
    requires r.Valid() && |dist| == |r.branches| && cur < |dist|
    requires Relaxed(r, dist, queue, {cur}) && UsedUp(r, dist, cur, |r.branches[cur]|)
    ensures Relaxed(r, dist, queue, {})
  {
    forall v: nat | r.Edge(cur, v) && v < |dist| ensures dist[v] <= dist[cur] + r.cost[v] {
      var j :| 0 <= j < |r.branches[cur]| && r.branches[cur][j] == v;
    }
  }

  /** The relaxation: whatever order the heap yields, it ends with every edge used up. */
  method Relax(r: Routes) returns (dist: seq<nat>, prevs: seq<Option<nat>>, ghost chains: map<nat, seq<nat>>)
    requires r.Valid()
    ensures LinksOk(r, dist, prevs) && Rooted(r, dist, prevs, chains) && Relaxed(r, dist, [], {})
  {
    var n := |r.branches|;
    dist := seq(n, _ => UNREACHED);
    dist := dist[r.source := 0];
    prevs := seq(n, _ => None);
    chains := map[r.source := [r.source]];
    var queue := [r.source];
    while |queue| > 0
      invariant LinksOk(r, dist, prevs) && Rooted(r, dist, prevs, chains)
      invariant Waiting(dist, queue) && Relaxed(r, dist, queue, {})
      decreases Sum(dist), |queue|
    {
      var k: nat :| k < |queue|;
      var cur := queue[k];
      var rest := queue[..k] + queue[k + 1..];
      PopRelaxed(r, dist, queue, k);
      if |r.branches[cur]| == 0 {
        queue := rest;
        NoBranches(r, dist, rest, cur);
        continue;
      }
      dist, prevs, queue, chains := ScanBranches(r, cur, dist, prevs, rest, chains);
    }
    assert queue == [];
  }

  lemma PopRelaxed(r: Routes, dist: seq<nat>, queue: seq<nat>, k: nat)
    requires |dist| == |r.branches| == |r.cost| && k < |queue| && Waiting(dist, queue) && Relaxed(r, dist, queue, {})
    ensures Waiting(dist, queue[..k] + queue[k + 1..]) && Relaxed(r, dist, queue[..k] + queue[k + 1..], {queue[k]})
  {
    var rest := queue[..k] + queue[k + 1..];
    assert queue == queue[..k] + [queue[k]] + queue[k + 1..];
    forall x ensures x in queue <==> x in rest || x == queue[k] { }
  }

  lemma NoBranches(r: Routes, dist: seq<nat>, queue: seq<nat>, cur: nat)
    requires |dist| == |r.branches| == |r.cost| && cur < |dist| && r.branches[cur] == []
    requires Relaxed(r, dist, queue, {cur})
    ensures Relaxed(r, dist, queue, {})
  {
  }

  // What the relaxation has found

  lemma {:induction false} WalkBound(r: Routes, dist: seq<nat>, prevs: seq<Option<nat>>, p: seq<nat>)
    requires r.Valid() && LinksOk(r, dist, prevs) && Relaxed(r, dist, [], {}) && Walk(r, p)
    ensures p[|p| - 1] < |dist| && dist[p[|p| - 1]] <= WalkCost(r, p)
  {
    WalkInRange(r, p);
    if |p| > 1 {
      WalkPrefix(r, p);
      WalkBound(r, dist, prevs, p[..|p| - 1]);
      assert StepAt(r, p, |p| - 1);
    }
  }

  lemma WalkPrefix(r: Routes, p: seq<nat>)
    requires Walk(r, p) && |p| > 1
    ensures Walk(r, p[..|p| - 1])
  {
    var q := p[..|p| - 1];
    forall i | 1 <= i < |q| ensures StepAt(r, q, i) { assert StepAt(r, p, i); }
  }

  /** At the end a chain is a walk that costs exactly what is recorded. */
  lemma {:induction false} ChainCost(r: Routes, dist: seq<nat>, prevs: seq<Option<nat>>, p: seq<nat>)
    requires r.Valid() && LinksOk(r, dist, prevs) && Relaxed(r, dist, [], {}) && Chain(r, prevs, p)
    ensures Walk(r, p) && WalkCost(r, p) == dist[p[|p| - 1]]
  {
    forall i | 1 <= i < |p| ensures StepAt(r, p, i) { assert HangsAt(prevs, p, i); }
    if |p| > 1 {
      ChainPrefix(r, prevs, p, |p| - 2);
      ChainCost(r, dist, prevs, p[..|p| - 1]);
      assert HangsAt(prevs, p, |p| - 1);
    }
  }

  /** A walk whose cost the initial mark does not drown. */
  ghost predicate Affordable(r: Routes, v: nat) {
    exists p :: Walk(r, p) && p[|p| - 1] == v && WalkCost(r, p) < UNREACHED
  }

  /** The state after the relaxation. */
  ghost predicate Settled(r: Routes, dist: seq<nat>, prevs: seq<Option<nat>>, chains: map<nat, seq<nat>>) {
    r.Valid() && LinksOk(r, dist, prevs) && Rooted(r, dist, prevs, chains) && Relaxed(r, dist, [], {})
  }

  lemma DistIsCheapest(r: Routes, dist: seq<nat>, prevs: seq<Option<nat>>, chains: map<nat, seq<nat>>, v: nat)
    requires Settled(r, dist, prevs, chains) && v < |dist|
    ensures dist[v] < UNREACHED <==> Affordable(r, v)
    ensures dist[v] < UNREACHED ==> Cheapest(r, v, dist[v])
  {
    forall p | Walk(r, p) && p[|p| - 1] == v ensures WalkCost(r, p) >= dist[v] { WalkBound(r, dist, prevs, p); }
    if dist[v] < UNREACHED { ChainCost(r, dist, prevs, chains[v]); }
  }

  // The route

  /** The nodes of the chain after the source. */
  function Tail(p: seq<nat>): set<nat> { After(p, 0) }

  function After(p: seq<nat>, i: int): set<nat> { set j | i < j < |p| && 0 <= j :: p[j] }

  lemma AfterStep(p: seq<nat>, i: nat)
    requires 1 <= i < |p|
    ensures After(p, i - 1) == After(p, i) + {p[i]}
  {
  }

  /** Mark the way from one sink back to the source. */
  method FollowLinks(r: Routes, prevs: seq<Option<nat>>, sink: nat, inRoute0: set<nat>,
                     ghost dist: seq<nat>, ghost chains: map<nat, seq<nat>>)
    returns (ok: bool, inRoute: set<nat>)
    requires Settled(r, dist, prevs, chains) && sink < |dist|
    ensures ok <==> dist[sink] < UNREACHED
    ensures ok ==> inRoute == inRoute0 + Tail(chains[sink])
  {
    inRoute := inRoute0;
    ghost var reached := dist[sink] < UNREACHED;
    ghost var p := if reached then chains[sink] else [sink];
    ghost var i := |p| - 1;
    if reached { ChainNoRepeat(r, prevs, p); }
    var node := sink;
    while node != r.source
      invariant 0 <= i < |p| && p[i] == node && (!reached ==> i == 0)
      invariant inRoute == inRoute0 + After(p, i)
      decreases i
    {
      assert reached ==> HangsAt(prevs, p, i);
      if prevs[node].None? { return false, inRoute; }
      AfterStep(p, i);
      inRoute := inRoute + {node};
      node := prevs[node].value;
      i := i - 1;
    }
    assert i == 0;
    ok := true;
  }

  /** The nodes on the way to one of the first k sinks. */
  ghost predicate OnWay(r: Routes, chains: map<nat, seq<nat>>, k: nat, v: nat)
    requires k <= |r.sinks|
  {
    exists j :: 0 <= j < k && r.sinks[j] in chains && v in Tail(chains[r.sinks[j]])
  }

  method MarkRoute(r: Routes, prevs: seq<Option<nat>>, ghost dist: seq<nat>, ghost chains: map<nat, seq<nat>>)
    returns (ok: bool, inRoute: set<nat>)
    requires Settled(r, dist, prevs, chains)
    ensures ok <==> forall k :: 0 <= k < |r.sinks| ==> r.pinfeed[r.sinks[k]] && dist[r.sinks[k]] < UNREACHED
    ensures ok ==> forall v: nat :: v in inRoute <==> OnWay(r, chains, |r.sinks|, v)
  {
    inRoute := {};
    for k := 0 to |r.sinks|
      invariant forall j :: 0 <= j < k ==> r.pinfeed[r.sinks[j]] && dist[r.sinks[j]] < UNREACHED
      invariant forall v: nat :: v in inRoute <==> OnWay(r, chains, k, v)
    {
      if !r.pinfeed[r.sinks[k]] { return false, inRoute; }
      ok, inRoute := FollowLinks(r, prevs, r.sinks[k], inRoute, dist, chains);
      if !ok { return; }
    }
    ok := true;
  }

  /** Give every marked node its one driver. */
  method Rebuild(r: Routes, prevs: seq<Option<nat>>, inRoute: set<nat>) returns (branches: seq<seq<nat>>)
    requires r.Valid() && |prevs| == |r.branches|
    requires forall v: nat :: v in inRoute && v != r.source ==>
      v < |prevs| && prevs[v].Some? && prevs[v].value < |prevs|
    ensures |branches| == |prevs| && forall u: nat :: u < |prevs| ==> Drives(r, prevs, inRoute, |prevs|, u, branches[u])
  {
    branches := seq(|prevs|, _ => []);
    for v := 0 to |prevs|
      invariant |branches| == |prevs| && forall u: nat :: u < |prevs| ==> Drives(r, prevs, inRoute, v, u, branches[u])
    {
      if v != r.source && v in inRoute {
        var u := prevs[v].value;
        branches := branches[u := branches[u] + [v]];
      }
    }
  }

  /** The list holds, once each, the marked nodes below bound that hang on u. */
  ghost predicate Drives(r: Routes, prevs: seq<Option<nat>>, inRoute: set<nat>, bound: nat, u: nat, list: seq<nat>)
    requires bound <= |prevs|
  {
    && NoRepeat(list)
    && forall v: nat :: v in list <==> v < bound && v != r.source && v in inRoute && prevs[v] == Some(u)
  }

  // The result

  /**
   The new branches form a tree rooted at the source: edges of the old routes, no node with
   two drivers, none above the source, every node below it, and only sinks as leaves. Each
   node hangs on a cheapest walk.
   */
  ghost predicate Repaired(r: Routes, branches: seq<seq<nat>>) {
    var t := r.(branches := branches);
    && |branches| == |r.branches|
    && (forall u: nat, v: nat :: t.Edge(u, v) ==> r.Edge(u, v) && v != r.source)
    && (forall u: nat, w: nat, v: nat :: t.Edge(u, v) && t.Edge(w, v) ==> u == w)
    && (forall u :: 0 <= u < |branches| ==> NoRepeat(branches[u]))
    && (forall u: nat, v: nat :: t.Edge(u, v) ==> CheaplyReached(r, t, v))
    && (forall k :: 0 <= k < |r.sinks| ==> CheaplyReached(r, t, r.sinks[k]))
    && (forall u: nat, v: nat :: t.Edge(u, v) && v < |branches| && branches[v] == [] ==> v in r.sinks)
  }

  /** The tree reaches v, at a cost that no walk in the old routes beats. */
  ghost predicate CheaplyReached(r: Routes, t: Routes, v: nat) {
    exists p :: Walk(t, p) && p[|p| - 1] == v && Walk(r, p) && Cheapest(r, v, WalkCost(r, p))
  }

  lemma OnWayHas(r: Routes, dist: seq<nat>, prevs: seq<Option<nat>>, chains: map<nat, seq<nat>>, v: nat)
    returns (j: nat, i: nat)
    requires Settled(r, dist, prevs, chains) && OnWay(r, chains, |r.sinks|, v)
    requires forall k :: 0 <= k < |r.sinks| ==> dist[r.sinks[k]] < UNREACHED
    ensures j < |r.sinks| && r.sinks[j] in chains && 1 <= i < |chains[r.sinks[j]]| && chains[r.sinks[j]][i] == v
    ensures Chain(r, prevs, chains[r.sinks[j]]) && chains[r.sinks[j]][|chains[r.sinks[j]]| - 1] == r.sinks[j]
    ensures HangsAt(prevs, chains[r.sinks[j]], i) && v != r.source && v < |dist| && dist[v] < UNREACHED
  {
    j :| 0 <= j < |r.sinks| && r.sinks[j] in chains && v in Tail(chains[r.sinks[j]]);
    var p := chains[r.sinks[j]];
    i :| 1 <= i < |p| && p[i] == v;
    assert dist[r.sinks[j]] < UNREACHED;
    assert HangsAt(prevs, p, i);
  }

  /** Every node of a chain to a marked node is marked, except the source. */
  lemma ChainMarked(r: Routes, dist: seq<nat>, prevs: seq<Option<nat>>, chains: map<nat, seq<nat>>, v: nat, i: nat)
    requires Settled(r, dist, prevs, chains) && OnWay(r, chains, |r.sinks|, v) && v in chains
    requires Chain(r, prevs, chains[v]) && chains[v][|chains[v]| - 1] == v && 1 <= i < |chains[v]|
    requires forall k :: 0 <= k < |r.sinks| ==> dist[r.sinks[k]] < UNREACHED
    ensures OnWay(r, chains, |r.sinks|, chains[v][i])
  {
    var j, n := OnWayHas(r, dist, prevs, chains, v);
    var p := chains[r.sinks[j]];
    ChainPrefix(r, prevs, p, n);
    ChainUnique(r, prevs, p[..n + 1], chains[v]);
    assert p[i] == chains[v][i];
    assert chains[v][i] in Tail(p);
  }

  /** All marked nodes with their drivers, as Rebuild leaves them. */
  ghost predicate Rebuilt(r: Routes, prevs: seq<Option<nat>>, inRoute: set<nat>, branches: seq<seq<nat>>) {
    |branches| == |prevs| && forall u: nat :: u < |prevs| ==> Drives(r, prevs, inRoute, |prevs|, u, branches[u])
  }

  ghost predicate Marks(r: Routes, chains: map<nat, seq<nat>>, inRoute: set<nat>) {
    forall v: nat :: v in inRoute <==> OnWay(r, chains, |r.sinks|, v)
  }

  lemma SourceReached(r: Routes, t: Routes)
    requires t == r.(branches := t.branches)
    ensures CheaplyReached(r, t, r.source)
  {
    var p := [r.source];
    assert Walk(t, p) && Walk(r, p) && WalkCost(r, p) == 0;
  }

  lemma MarkedWalk(r: Routes, dist: seq<nat>, prevs: seq<Option<nat>>, chains: map<nat, seq<nat>>, inRoute: set<nat>,
                   branches: seq<seq<nat>>, v: nat)
    requires Settled(r, dist, prevs, chains) && Marks(r, chains, inRoute) && Rebuilt(r, prevs, inRoute, branches)
    requires forall k :: 0 <= k < |r.sinks| ==> dist[r.sinks[k]] < UNREACHED
    requires v in inRoute
    ensures v < |dist| && dist[v] < UNREACHED && v in chains && Walk(r.(branches := branches), chains[v])
  {
    var t := r.(branches := branches);
    var j, n := OnWayHas(r, dist, prevs, chains, v);
    var p := chains[v];
    forall i | 1 <= i < |p| ensures StepAt(t, p, i) {
      assert HangsAt(prevs, p, i);
      ChainMarked(r, dist, prevs, chains, v, i);
      var k, m := OnWayHas(r, dist, prevs, chains, p[i]);
      StepDriven(r, prevs, inRoute, branches, p[i - 1], p[i]);
    }
  }

  lemma MarkedReached(r: Routes, dist: seq<nat>, prevs: seq<Option<nat>>, chains: map<nat, seq<nat>>, inRoute: set<nat>,
                      branches: seq<seq<nat>>, v: nat)
    requires Settled(r, dist, prevs, chains) && Marks(r, chains, inRoute) && Rebuilt(r, prevs, inRoute, branches)
    requires forall k :: 0 <= k < |r.sinks| ==> dist[r.sinks[k]] < UNREACHED
    requires v in inRoute
    ensures CheaplyReached(r, r.(branches := branches), v)
  {
    MarkedWalk(r, dist, prevs, chains, inRoute, branches, v);
    ChainIsCheapest(r, dist, prevs, chains, v);
  }

  lemma ChainIsCheapest(r: Routes, dist: seq<nat>, prevs: seq<Option<nat>>, chains: map<nat, seq<nat>>, v: nat)
    requires Settled(r, dist, prevs, chains) && v < |dist| && dist[v] < UNREACHED
    ensures v in chains && Walk(r, chains[v]) && chains[v][|chains[v]| - 1] == v
    ensures Cheapest(r, v, WalkCost(r, chains[v]))
  {
    ChainCost(r, dist, prevs, chains[v]);
    DistIsCheapest(r, dist, prevs, chains, v);
  }

  lemma StepDriven(r: Routes, prevs: seq<Option<nat>>, inRoute: set<nat>, branches: seq<seq<nat>>, u: nat, v: nat)
    requires Rebuilt(r, prevs, inRoute, branches) && u < |prevs| && v < |prevs|
    ensures r.(branches := branches).Edge(u, v) <==> v != r.source && v in inRoute && prevs[v] == Some(u)
  {
    assert Drives(r, prevs, inRoute, |prevs|, u, branches[u]);
  }

  /** On a marked node that is no sink something hangs. */
  lemma InnerHasBranch(r: Routes, dist: seq<nat>, prevs: seq<Option<nat>>, chains: map<nat, seq<nat>>,
                       inRoute: set<nat>, branches: seq<seq<nat>>, v: nat)
    requires Settled(r, dist, prevs, chains) && Marks(r, chains, inRoute) && Rebuilt(r, prevs, inRoute, branches)
    requires forall k :: 0 <= k < |r.sinks| ==> dist[r.sinks[k]] < UNREACHED
    requires v in inRoute && v < |branches| && v !in r.sinks
    ensures branches[v] != []
  {
    var j, i := OnWayHas(r, dist, prevs, chains, v);
    var p := chains[r.sinks[j]];
    var next := p[i + 1];
    assert HangsAt(prevs, p, i + 1);
    assert next in Tail(p);
    assert OnWay(r, chains, |r.sinks|, next);
    var k, m := OnWayHas(r, dist, prevs, chains, next);
    StepDriven(r, prevs, inRoute, branches, v, next);
  }

  lemma SinkReached(r: Routes, dist: seq<nat>, prevs: seq<Option<nat>>, chains: map<nat, seq<nat>>, inRoute: set<nat>,
                    branches: seq<seq<nat>>, k: nat)
    requires Settled(r, dist, prevs, chains) && Marks(r, chains, inRoute) && Rebuilt(r, prevs, inRoute, branches)
    requires (forall k :: 0 <= k < |r.sinks| ==> dist[r.sinks[k]] < UNREACHED) && k < |r.sinks|
    ensures CheaplyReached(r, r.(branches := branches), r.sinks[k])
  {
    var v := r.sinks[k];
    assert dist[v] < UNREACHED;
    if v == r.source {
      SourceReached(r, r.(branches := branches));
    } else {
      var p := chains[v];
      assert p[|p| - 1] in Tail(p);
      assert OnWay(r, chains, |r.sinks|, v);
      MarkedReached(r, dist, prevs, chains, inRoute, branches, v);
    }
  }

  /** Where all sinks have been reached, the rebuilt branches are the repaired net. */
  lemma RebuiltIsRepaired(r: Routes, dist: seq<nat>, prevs: seq<Option<nat>>, chains: map<nat, seq<nat>>,
                          inRoute: set<nat>, branches: seq<seq<nat>>)
    requires Settled(r, dist, prevs, chains) && Marks(r, chains, inRoute) && Rebuilt(r, prevs, inRoute, branches)
    requires forall k :: 0 <= k < |r.sinks| ==> dist[r.sinks[k]] < UNREACHED
    ensures Repaired(r, branches)
  {
    var t := r.(branches := branches);
    forall u: nat, v: nat | t.Edge(u, v)
      ensures v < |prevs| && v != r.source && v in inRoute && prevs[v] == Some(u) && r.Edge(u, v)
      ensures CheaplyReached(r, t, v) && (branches[v] == [] ==> v in r.sinks)
    {
      assert Drives(r, prevs, inRoute, |prevs|, u, branches[u]);
      MarkedReached(r, dist, prevs, chains, inRoute, branches, v);
      if v !in r.sinks { InnerHasBranch(r, dist, prevs, chains, inRoute, branches, v); }
    }
    forall u: nat | u < |branches|
      ensures NoRepeat(branches[u])
    {
      assert Drives(r, prevs, inRoute, |prevs|, u, branches[u]);
    }
    forall k | 0 <= k < |r.sinks| ensures CheaplyReached(r, t, r.sinks[k]) {
      SinkReached(r, dist, prevs, chains, inRoute, branches, k);
    }
  }

  /**
   Repair a net. The program stops exactly when some sink is not of type PINFEED_I or has no
   walk from the source that costs less than the initial mark; otherwise the net becomes a tree
   of cheapest walks.
   */
  method FixNetRoutes(r: Routes) returns (ok: bool, branches: seq<seq<nat>>)
    requires r.Valid()
    ensures ok <==> forall k :: 0 <= k < |r.sinks| ==> r.pinfeed[r.sinks[k]] && Affordable(r, r.sinks[k])
    ensures ok ==> Repaired(r, branches)
  {
    branches := r.branches;
    var dist, prevs; ghost var chains;
    dist, prevs, chains := Relax(r);
    forall k | 0 <= k < |r.sinks| ensures dist[r.sinks[k]] < UNREACHED <==> Affordable(r, r.sinks[k]) {
      DistIsCheapest(r, dist, prevs, chains, r.sinks[k]);
    }
    var inRoute;
    ok, inRoute := MarkRoute(r, prevs, dist, chains);
    if ok {
      forall v: nat | v in inRoute ensures v < |prevs| && prevs[v].Some? && prevs[v].value < |prevs| {
        var j, i := OnWayHas(r, dist, prevs, chains, v);
      }
      branches := Rebuild(r, prevs, inRoute);
      RebuiltIsRepaired(r, dist, prevs, chains, inRoute, branches);
    }
  }
}
