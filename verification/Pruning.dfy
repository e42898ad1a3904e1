/**
 The routing graph is cut out of the device graph: initial marking (src/db/device.cpp,
 lines 364-370 and 408-426), removal of dead ends, and the children that remain
 (Database::reduceRouteNode and Database::setRouteNodeChildren, src/db/database.cpp).
 */
module Pruning {
  import opened Counting

  /** Adjacency in both directions, which nodes lie in INT or LAG_LAG tiles, and which are preserved. */
  datatype Fabric = Fabric(out: seq<seq<nat>>, incoming: seq<seq<nat>>, allowed: seq<bool>, preserved: seq<bool>)
  {
    function N(): nat { |out| }

    ghost predicate Valid() {
      && |incoming| == |allowed| == |preserved| == |out|
      && (forall u, k :: 0 <= u < |out| && 0 <= k < |out[u]| ==> out[u][k] < |out|)
      && (forall u: nat, v: nat :: u < |out| && v < |out| ==> Count(incoming[v], u) == Count(out[u], v))
      && (forall u, k :: 0 <= u < |out| && 0 <= k < |incoming[u]| ==> incoming[u][k] < |out|)
    }

    predicate Edge(u: nat, v: nat) { u < |out| && v in out[u] }

    /** A node that may be entered. */
    predicate Usable(v: nat) { v < |allowed| == |preserved| && allowed[v] && !preserved[v] }

    /** An edge that may be taken. */
    predicate Way(u: nat, v: nat) { Edge(u, v) && Usable(v) }
  }

  /** How many entries of a child list are usable and still in the graph. */
  function LiveEdges(d: Fabric, live: seq<bool>, list: seq<nat>): nat {
    if |list| == 0 then 0
    else
      var v := list[|list| - 1];
      LiveEdges(d, live, list[..|list| - 1]) + (if d.Usable(v) && v < |live| && live[v] then 1 else 0)
  }

  lemma {:induction false} LiveEdgesDrop(d: Fabric, live: seq<bool>, list: seq<nat>, id: nat)
    requires id < |live| && live[id]
    ensures LiveEdges(d, live, list) - LiveEdges(d, live[id := false], list) ==
            if d.Usable(id) then Count(list, id) else 0
  {
    if |list| > 0 { LiveEdgesDrop(d, live, list[..|list| - 1], id); }
  }

  lemma {:induction false} LiveEdgesPositive(d: Fabric, live: seq<bool>, list: seq<nat>)
    ensures LiveEdges(d, live, list) > 0 <==>
            exists k :: 0 <= k < |list| && d.Usable(list[k]) && list[k] < |live| && live[list[k]]
  {
    if |list| > 0 {
      var front := list[..|list| - 1];
      LiveEdgesPositive(d, live, front);
      if k :| 0 <= k < |front| && d.Usable(front[k]) && front[k] < |live| && live[front[k]] {
        assert list[k] == front[k];
      }
      if k :| 0 <= k < |list| && d.Usable(list[k]) && list[k] < |live| && live[list[k]] {
        assert k < |front| ==> front[k] == list[k];
      }
    }
  }

  // The parts of the procedure

  /** One of the first k edges out of u joins allowed nodes and has x as an end. */
  ghost predicate LinkAt(d: Fabric, u: nat, k: nat, x: nat)
    requires d.Valid() && u < d.N() && k <= |d.out[u]|
  {
    d.allowed[u] && exists j :: 0 <= j < k && d.allowed[d.out[u][j]] && (x == u || x == d.out[u][j])
  }

  /** Some edge between allowed nodes has x as an end. */
  ghost predicate Marked(d: Fabric, x: nat)
    requires d.Valid()
  {
    exists u: nat :: u < d.N() && LinkAt(d, u, |d.out[u]|, x)
  }

  /** Mark both ends of every edge between allowed nodes. */
  method MarkInGraph(d: Fabric) returns (live: seq<bool>)
    requires d.Valid()
    ensures |live| == d.N() && forall x: nat :: x < d.N() ==> (live[x] <==> Marked(d, x))
  {
    live := seq(d.N(), _ => false);
    for u := 0 to d.N()
      invariant |live| == d.N()
      invariant forall x: nat :: x < d.N() ==> (live[x] <==> exists y: nat :: y < u && LinkAt(d, y, |d.out[y]|, x))
    {
      live := MarkEdges(d, live, u);
    }
  }

  method MarkEdges(d: Fabric, live0: seq<bool>, u: nat) returns (live: seq<bool>)
    requires d.Valid() && |live0| == d.N() && u < d.N()
    ensures |live| == d.N() && forall x: nat :: x < d.N() ==> (live[x] <==> live0[x] || LinkAt(d, u, |d.out[u]|, x))
  {
    live := live0;
    for k := 0 to |d.out[u]|
      invariant |live| == d.N() && forall x: nat :: x < d.N() ==> (live[x] <==> live0[x] || LinkAt(d, u, k, x))
    {
      var v := d.out[u][k];
      if d.allowed[u] && d.allowed[v] { live := live[u := true][v := true]; }
      LinkStep(d, u, k);
    }
  }

  lemma LinkStep(d: Fabric, u: nat, k: nat)
    requires d.Valid() && u < d.N() && k < |d.out[u]|
    ensures forall x: nat :: LinkAt(d, u, k + 1, x) <==>
              LinkAt(d, u, k, x) || (d.allowed[u] && d.allowed[d.out[u][k]] && (x == u || x == d.out[u][k]))
  {
    var v := d.out[u][k];
    if d.allowed[u] && d.allowed[v] {
      assert LinkAt(d, u, k + 1, u) && LinkAt(d, u, k + 1, v);
    }
  }

  /** Out-degrees of the nodes in the graph. */
  method GetOutDegrees(d: Fabric, live: seq<bool>) returns (deg: seq<int>)
    requires d.Valid() && |live| == d.N()
    ensures |deg| == d.N()
    ensures forall u :: 0 <= u < d.N() ==> deg[u] == if live[u] then LiveEdges(d, live, d.out[u]) else 0
  {
    deg := seq(d.N(), _ => 0);
    for u := 0 to d.N()
      invariant |deg| == d.N()
      invariant forall x :: 0 <= x < u ==> deg[x] == if live[x] then LiveEdges(d, live, d.out[x]) else 0
      invariant forall x :: u <= x < d.N() ==> deg[x] == 0
    {
      if live[u] {
        var list, cnt := d.out[u], 0;
        for k := 0 to |list|
          invariant cnt == LiveEdges(d, live, list[..k])
        {
          assert list[..k + 1][..k] == list[..k];
          if d.allowed[list[k]] && !d.preserved[list[k]] && live[list[k]] { cnt := cnt + 1; }
        }
        assert list[..|list|] == list;
        deg := deg[u := cnt];
      }
    }
  }

  /** The list holds the parents of a usable node, as often as there are edges. */
  ghost predicate ParentsOf(d: Fabric, live: seq<bool>, list: seq<nat>, v: nat) {
    forall u: nat :: Count(list, u) ==
      if v < |live| && live[v] && d.Usable(v) && u < |d.out| && u < |live| && live[u] then Count(d.out[u], v) else 0
  }

  ghost predicate ParentLists(d: Fabric, live: seq<bool>, parents: seq<seq<nat>>) {
    |parents| == |live| == d.N() && forall v: nat :: v < d.N() ==> ParentsOf(d, live, parents[v], v)
  }

  method SetParents(d: Fabric, live: seq<bool>) returns (parents: seq<seq<nat>>)
    requires d.Valid() && |live| == d.N()
    ensures ParentLists(d, live, parents)
  {
    parents := [];
    for v := 0 to d.N()
      invariant |parents| == v
      invariant forall x: nat :: x < v ==> ParentsOf(d, live, parents[x], x)
    {
      var mine: seq<nat> := [];
      if live[v] && d.allowed[v] && !d.preserved[v] { mine := LiveParents(d, live, v); }
      assert ParentsOf(d, live, mine, v);
      parents := parents + [mine];
    }
  }

  method LiveParents(d: Fabric, live: seq<bool>, v: nat) returns (mine: seq<nat>)
    requires d.Valid() && |live| == d.N() && v < d.N()
    ensures forall u: nat :: Count(mine, u) == if u < d.N() && live[u] then Count(d.out[u], v) else 0
  {
    mine := [];
    var list := d.incoming[v];
    for k := 0 to |list|
      invariant forall u: nat :: Count(mine, u) == if u < d.N() && live[u] then Count(list[..k], u) else 0
    {
      assert list[..k + 1] == list[..k] + [list[k]];
      forall u: nat ensures Count(list[..k + 1], u) == Count(list[..k], u) + (if list[k] == u then 1 else 0) {
        CountSnoc(list[..k], list[k], u);
      }
      forall u: nat ensures Count(mine + [list[k]], u) == Count(mine, u) + (if list[k] == u then 1 else 0) {
        CountSnoc(mine, list[k], u);
      }
      if live[list[k]] { mine := mine + [list[k]]; }
    }
    assert list[..|list|] == list;
  }

  /** Nodes without a way on, pins excepted. */
  method FindDeadEnds(live: seq<bool>, pin: seq<bool>, deg: seq<int>) returns (dead: seq<nat>)
    requires |live| == |pin| == |deg|
    ensures NoRepeat(dead)
    ensures forall v: nat :: v in dead <==> v < |live| && live[v] && !pin[v] && deg[v] == 0
  {
    dead := [];
    for i := 0 to |live|
      invariant NoRepeat(dead)
      invariant forall v: nat :: v in dead <==> v < i && live[v] && !pin[v] && deg[v] == 0
    {
      if live[i] && deg[i] == 0 && !pin[i] { dead := dead + [i]; }
    }
  }

  // Removal

  /** Degrees count the edges into usable nodes of the graph; nodes that have left have none. */
  ghost predicate Degrees(d: Fabric, live0: seq<bool>, live: seq<bool>, deg: seq<int>) {
    && |live0| == |live| == |deg| == d.N()
    && (forall u: nat :: u < d.N() && live[u] ==> live0[u])
    && (forall u: nat :: u < d.N() ==> deg[u] == if live0[u] then LiveEdges(d, live, d.out[u]) else 0)
    && (forall u: nat :: u < d.N() && !live[u] ==> deg[u] == 0)
  }

  /** The same while the parents of the removed node id are being visited: j of them are done. */
  ghost predicate Lagging(d: Fabric, live0: seq<bool>, live: seq<bool>, deg: seq<int>, parents: seq<nat>, j: nat)
    requires j <= |parents|
  {
    && |live0| == |live| == |deg| == d.N()
    && (forall u: nat :: u < d.N() && live[u] ==> live0[u])
    && (forall u: nat :: u < d.N() ==>
          deg[u] == (if live0[u] then LiveEdges(d, live, d.out[u]) else 0) + Count(parents[j..], u))
    && (forall u: nat :: u < d.N() && !live[u] ==> deg[u] == 0)
  }

  /** The list holds, once each, the nodes of the graph that are dead ends now. */
  ghost predicate Pending(live: seq<bool>, pin: seq<bool>, deg: seq<int>, list: seq<nat>)
    requires |live| == |pin| == |deg|
  {
    NoRepeat(list) && forall v: nat :: v in list <==> v < |live| && live[v] && !pin[v] && deg[v] == 0
  }

  lemma RemoveLags(d: Fabric, live0: seq<bool>, live: seq<bool>, deg: seq<int>, parents: seq<seq<nat>>, id: nat)
    requires d.Valid() && Degrees(d, live0, live, deg) && ParentLists(d, live0, parents)
    requires id < d.N() && live[id] && deg[id] == 0
    ensures Lagging(d, live0, live[id := false], deg, parents[id], 0)
  {
    assert parents[id][0..] == parents[id];
    assert ParentsOf(d, live0, parents[id], id);
    forall u: nat | u < d.N()
      ensures deg[u] == (if live0[u] then LiveEdges(d, live[id := false], d.out[u]) else 0) + Count(parents[id], u)
    {
      LiveEdgesDrop(d, live, d.out[u], id);
    }
  }

  lemma {:induction false} CountTail(s: seq<nat>, j: nat, x: nat)
    requires j < |s|
    ensures Count(s[j..], x) == Count(s[j + 1..], x) + (if s[j] == x then 1 else 0)
  {
    assert s[j..] == [s[j]] + s[j + 1..];
    CountAppend([s[j]], s[j + 1..], x);
    assert [s[j]] == [] + [s[j]];
    CountSnoc([], s[j], x);
  }

  /** One parent visited: its degree falls by one, and it was in the graph. */
  lemma ParentStep(d: Fabric, live0: seq<bool>, live: seq<bool>, deg: seq<int>, parents: seq<nat>, j: nat)
    requires j < |parents| && Lagging(d, live0, live, deg, parents, j) && parents[j] < d.N()
    ensures deg[parents[j]] > 0 && live[parents[j]]
    ensures Lagging(d, live0, live, deg[parents[j] := deg[parents[j]] - 1], parents, j + 1)
  {
    forall u: nat ensures Count(parents[j..], u) == Count(parents[j + 1..], u) + (if parents[j] == u then 1 else 0) {
      CountTail(parents, j, u);
    }
  }

  lemma ParentsInRange(d: Fabric, live0: seq<bool>, parents: seq<seq<nat>>, id: nat)
    requires ParentLists(d, live0, parents) && id < d.N()
    ensures forall k :: 0 <= k < |parents[id]| ==> parents[id][k] < d.N()
  {
    assert ParentsOf(d, live0, parents[id], id);
    forall k | 0 <= k < |parents[id]| ensures parents[id][k] < d.N() {
      var u := parents[id][k];
      CountIn(parents[id], u);
      assert Count(parents[id], u) > 0;
    }
  }

  /** Take one dead end out of the graph and tell its parents. */
  method RemoveNode(d: Fabric, ghost live0: seq<bool>, live: seq<bool>, pin: seq<bool>, deg0: seq<int>,
                    parents: seq<seq<nat>>, id: nat, ghost rest: seq<nat>, fresh0: seq<nat>)
    returns (live': seq<bool>, deg: seq<int>, more: seq<nat>)
    requires d.Valid() && Degrees(d, live0, live, deg0) && ParentLists(d, live0, parents) && |pin| == d.N()
    requires id < d.N() && Pending(live, pin, deg0, [id] + (rest + fresh0))
    ensures live' == live[id := false] && Degrees(d, live0, live', deg)
    ensures Pending(live', pin, deg, rest + more)
  {
    var list := parents[id];
    assert id in [id] + (rest + fresh0);
    live', deg, more := live[id := false], deg0, fresh0;
    RemoveLags(d, live0, live, deg0, parents, id);
    ParentsInRange(d, live0, parents, id);
    assert Pending(live', pin, deg, rest + more) by { PendingDrops(live, pin, deg0, id, rest + fresh0); }
    for j := 0 to |list|
      invariant Lagging(d, live0, live', deg, list, j) && Pending(live', pin, deg, rest + more)
    {
      var pid := list[j];
      ParentStep(d, live0, live', deg, list, j);
      deg := deg[pid := deg[pid] - 1];
      if deg[pid] == 0 && !pin[pid] {
        more := more + [pid];
        assert rest + more == (rest + more[..|more| - 1]) + [pid];
      }
    }
    assert list[|list|..] == [];
  }

  lemma PendingDrops(live: seq<bool>, pin: seq<bool>, deg: seq<int>, id: nat, rest: seq<nat>)
    requires |live| == |pin| == |deg| && id < |live| && Pending(live, pin, deg, [id] + rest)
    ensures Pending(live[id := false], pin, deg, rest)
  {
    var all := [id] + rest;
    assert all[0] == id;
    forall i | 0 <= i < |rest| ensures rest[i] == all[i + 1] && rest[i] != id { }
    forall v: nat ensures v in all <==> v == id || v in rest { }
  }

  // What is left

  /** A set in which every node but the pins has a usable child of the set. */
  ghost predicate Supported(d: Fabric, live0: seq<bool>, pin: seq<bool>, nodes: set<nat>) {
    forall v :: v in nodes ==>
      && v < |live0| && v < |pin| && live0[v]
      && (pin[v] || exists w :: w in nodes && d.Edge(v, w) && d.Usable(w))
  }

  ghost predicate Within(nodes: set<nat>, live: seq<bool>) { forall v :: v in nodes ==> v < |live| && live[v] }

  /** Every supported set is still in the graph. */
  ghost predicate KeepsSupported(d: Fabric, live0: seq<bool>, pin: seq<bool>, live: seq<bool>) {
    forall nodes: set<nat> :: Supported(d, live0, pin, nodes) ==> Within(nodes, live)
  }

  lemma RemovalKeeps(d: Fabric, live0: seq<bool>, pin: seq<bool>, live: seq<bool>, deg: seq<int>, id: nat)
    requires Degrees(d, live0, live, deg) && |pin| == d.N() && KeepsSupported(d, live0, pin, live)
    requires id < d.N() && live[id] && deg[id] == 0 && !pin[id]
    ensures KeepsSupported(d, live0, pin, live[id := false])
  {
    forall nodes: set<nat> | Supported(d, live0, pin, nodes) ensures Within(nodes, live[id := false]) {
      assert Within(nodes, live);
      if id in nodes {
        var w :| w in nodes && d.Edge(id, w) && d.Usable(w);
        var k :| 0 <= k < |d.out[id]| && d.out[id][k] == w;
        LiveEdgesPositive(d, live, d.out[id]);
      }
    }
  }

  /** One round over the dead ends found so far; it collects the next ones. */
  method RemoveRound(d: Fabric, ghost live0: seq<bool>, live0': seq<bool>, pin: seq<bool>, deg0: seq<int>,
                     parents: seq<seq<nat>>, dead: seq<nat>)
    returns (live: seq<bool>, deg: seq<int>, more: seq<nat>)
    requires d.Valid() && Degrees(d, live0, live0', deg0) && ParentLists(d, live0, parents) && |pin| == d.N()
    requires Pending(live0', pin, deg0, dead) && KeepsSupported(d, live0, pin, live0')
    ensures Degrees(d, live0, live, deg) && Pending(live, pin, deg, more) && KeepsSupported(d, live0, pin, live)
    ensures Count(live, true) == Count(live0', true) - |dead|
  {
    live, deg, more := live0', deg0, [];
    assert dead[0..] + more == dead;
    for i := 0 to |dead|
      invariant Degrees(d, live0, live, deg) && KeepsSupported(d, live0, pin, live)
      invariant Pending(live, pin, deg, dead[i..] + more)
      invariant Count(live, true) == Count(live0', true) - i
    {
      var id := dead[i];
      assert dead[i..] + more == [id] + (dead[i + 1..] + more);
      assert id in [id] + (dead[i + 1..] + more);
      RemovalKeeps(d, live0, pin, live, deg, id);
      CountUpdate(live, id, false, true);
      live, deg, more := RemoveNode(d, live0, live, pin, deg, parents, id, dead[i + 1..], more);
    }
    assert dead[|dead|..] + more == more;
  }

  /** Every node of the graph but the pins has a way on. */
  ghost predicate NoDeadEnds(d: Fabric, pin: seq<bool>, live: seq<bool>)
    requires |live| == |pin| == d.N()
  {
    forall v: nat :: v < d.N() && live[v] && !pin[v] ==>
      exists k :: 0 <= k < |d.out[v]| && d.Usable(d.out[v][k]) && d.out[v][k] < d.N() && live[d.out[v][k]]
  }

  /**
   Remove dead ends until none is left. What remains is the greatest part of the graph in
   which every node but the pins has a usable child.
   */
  method ReduceRouteNode(d: Fabric, live0: seq<bool>, pin: seq<bool>) returns (live: seq<bool>)
    requires d.Valid() && |live0| == |pin| == d.N()
    ensures |live| == d.N() && (forall v :: 0 <= v < d.N() && live[v] ==> live0[v])
    ensures NoDeadEnds(d, pin, live)
    ensures KeepsSupported(d, live0, pin, live)
  {
    live := live0;
    var deg := GetOutDegrees(d, live);
    var parents := SetParents(d, live);
    var deadEndNodeIds := FindDeadEnds(live, pin, deg);
    while |deadEndNodeIds| > 0
      invariant Degrees(d, live0, live, deg) && Pending(live, pin, deg, deadEndNodeIds)
      invariant KeepsSupported(d, live0, pin, live)
      decreases Count(live, true)
    {
      live, deg, deadEndNodeIds := RemoveRound(d, live0, live, pin, deg, parents, deadEndNodeIds);
    }
    forall v: nat | v < d.N() && live[v] && !pin[v]
      ensures exists k :: 0 <= k < |d.out[v]| && d.Usable(d.out[v][k]) && d.out[v][k] < d.N() && live[d.out[v][k]]
    {
      assert v !in deadEndNodeIds;
      LiveEdgesPositive(d, live, d.out[v]);
    }
  }

  lemma RemainderIsSupported(d: Fabric, live0: seq<bool>, pin: seq<bool>, live: seq<bool>, nodes: set<nat>)
    requires d.Valid() && |live0| == |pin| == |live| == d.N() && NoDeadEnds(d, pin, live)
    requires forall v :: 0 <= v < d.N() && live[v] ==> live0[v]
    requires nodes == set v: nat | v < d.N() && live[v]
    ensures Supported(d, live0, pin, nodes)
  {
    forall v | v in nodes && !pin[v] ensures exists w :: w in nodes && d.Edge(v, w) && d.Usable(w) {
      var k :| 0 <= k < |d.out[v]| && d.Usable(d.out[v][k]) && d.out[v][k] < d.N() && live[d.out[v][k]];
      assert d.Edge(v, d.out[v][k]);
    }
  }

  // Children and routes

  function Chosen(d: Fabric, live: seq<bool>, list: seq<nat>): seq<nat> {
    if |list| == 0 then []
    else
      var v := list[|list| - 1];
      Chosen(d, live, list[..|list| - 1]) + (if d.Usable(v) && v < |live| && live[v] then [v] else [])
  }

  lemma {:induction false} ChosenHolds(d: Fabric, live: seq<bool>, list: seq<nat>, v: nat)
    ensures Count(Chosen(d, live, list), v) == if d.Usable(v) && v < |live| && live[v] then Count(list, v) else 0
  {
    if |list| > 0 {
      var front, last := list[..|list| - 1], list[|list| - 1];
      ChosenHolds(d, live, front, v);
      CountSnoc(Chosen(d, live, front), last, v);
      assert Chosen(d, live, front) + [] == Chosen(d, live, front);
    }
  }

  lemma ChildOf(d: Fabric, live: seq<bool>, u: nat, v: nat)
    requires u < d.N()
    ensures v in Chosen(d, live, d.out[u]) <==> d.Way(u, v) && v < |live| && live[v]
  {
    ChosenHolds(d, live, d.out[u], v);
    CountIn(d.out[u], v);
    CountIn(Chosen(d, live, d.out[u]), v);
  }

  /** Pins are the ends of connections. */
  method MarkPins(ends: seq<(nat, nat)>, n: nat) returns (pin: seq<bool>)
    requires forall c :: 0 <= c < |ends| ==> ends[c].0 < n && ends[c].1 < n
    ensures |pin| == n && forall v :: 0 <= v < n ==> (pin[v] <==> IsPin(ends, v))
  {
    pin := seq(n, _ => false);
    for c := 0 to |ends|
      invariant |pin| == n && forall v :: 0 <= v < n ==> (pin[v] <==> IsPin(ends[..c], v))
    {
      assert ends[..c + 1] == ends[..c] + [ends[c]];
      PinStep(ends[..c], ends[c]);
      pin := pin[ends[c].0 := true][ends[c].1 := true];
    }
    assert ends[..|ends|] == ends;
  }

  ghost predicate IsPin(ends: seq<(nat, nat)>, v: int) {
    exists c :: 0 <= c < |ends| && (ends[c].0 == v || ends[c].1 == v)
  }

  lemma PinStep(ends: seq<(nat, nat)>, last: (nat, nat))
    ensures forall v :: IsPin(ends + [last], v) <==> IsPin(ends, v) || last.0 == v || last.1 == v
  {
    var more := ends + [last];
    forall v ensures IsPin(more, v) <==> IsPin(ends, v) || last.0 == v || last.1 == v {
      if IsPin(ends, v) {
        var c :| 0 <= c < |ends| && (ends[c].0 == v || ends[c].1 == v);
        assert more[c] == ends[c];
      }
      assert more[|ends|] == last;
    }
  }

  /** A walk in the device through usable nodes. */
  ghost predicate FabricWalk(d: Fabric, p: seq<nat>) {
    |p| >= 2 && p[0] < d.N() && forall i :: 0 <= i < |p| - 1 ==> d.Way(p[i], p[i + 1])
  }

  /** A walk along the children of the routing graph. */
  ghost predicate GraphWalk(children: seq<seq<nat>>, p: seq<nat>) {
    |p| >= 2 && forall i :: 0 <= i < |p| - 1 ==> p[i] < |children| && p[i + 1] in children[p[i]]
  }

  /** The nodes of a walk between pins, after the first, form a supported set. */
  lemma WalkIsSupported(d: Fabric, live0: seq<bool>, pin: seq<bool>, p: seq<nat>, nodes: set<nat>)
    requires d.Valid() && |live0| == |pin| == d.N() && FabricWalk(d, p) && |p| >= 3 && p[|p| - 1] < d.N()
    requires pin[p[|p| - 1]]
    requires forall x: nat :: x < d.N() ==> (live0[x] <==> Marked(d, x))
    requires nodes == set i | 1 <= i < |p| :: p[i]
    ensures Supported(d, live0, pin, nodes)
  {
    forall i | 1 <= i < |p| ensures p[i] < d.N() && live0[p[i]] {
      var a := if i < |p| - 1 then i else i - 1;
      assert d.Way(p[a], p[a + 1]) && d.Way(p[a - 1], p[a - 1 + 1]);
      var j :| 0 <= j < |d.out[p[a]]| && d.out[p[a]][j] == p[a + 1];
      assert LinkAt(d, p[a], |d.out[p[a]]|, p[i]);
    }
    forall v | v in nodes && !pin[v] ensures exists w :: w in nodes && d.Edge(v, w) && d.Usable(w) {
      var i :| 1 <= i < |p| && p[i] == v;
      assert d.Way(p[i], p[i + 1]) && p[i + 1] in nodes;
    }
  }

  function KeptChildren(d: Fabric, inGraph: seq<bool>, u: nat): seq<nat>
    requires u < |inGraph| == d.N()
  {
    if inGraph[u] then Chosen(d, inGraph, d.out[u]) else []
  }

  /** Every node of the graph has its usable children in the graph, in the device's order. */
  predicate HasChildren(d: Fabric, inGraph: seq<bool>, children: seq<seq<nat>>) {
    && |inGraph| == |children| == d.N()
    && forall u :: 0 <= u < d.N() ==> children[u] == KeptChildren(d, inGraph, u)
  }

  /** Between any two pins, the routing graph and the device have the same walks through usable nodes. */
  ghost predicate SameRoutes(d: Fabric, ends: seq<(nat, nat)>, children: seq<seq<nat>>) {
    forall p :: |p| > 0 && IsPin(ends, p[0]) && IsPin(ends, p[|p| - 1]) ==>
      (FabricWalk(d, p) <==> GraphWalk(children, p))
  }

  method SetChildren(d: Fabric, inGraph: seq<bool>) returns (children: seq<seq<nat>>)
    requires d.Valid() && |inGraph| == d.N()
    ensures HasChildren(d, inGraph, children)
  {
    children := [];
    for u := 0 to d.N()
      invariant |children| == u
      invariant forall x :: 0 <= x < u ==> children[x] == KeptChildren(d, inGraph, x)
    {
      var mine: seq<nat> := [];
      if inGraph[u] { mine := ChildrenOf(d, inGraph, d.out[u]); }
      children := children + [mine];
    }
  }

  method ChildrenOf(d: Fabric, inGraph: seq<bool>, list: seq<nat>) returns (mine: seq<nat>)
    requires |d.allowed| == |d.preserved| == |inGraph| && forall k :: 0 <= k < |list| ==> list[k] < |inGraph|
    ensures mine == Chosen(d, inGraph, list)
  {
    mine := [];
    for k := 0 to |list|
      invariant mine == Chosen(d, inGraph, list[..k])
    {
      assert list[..k + 1][..k] == list[..k];
      if d.allowed[list[k]] && !d.preserved[list[k]] && inGraph[list[k]] { mine := mine + [list[k]]; }
    }
    assert list[..|list|] == list;
  }

  // Which edges are left, told from the device and the connections alone

  /** Every node of the set is an end of an edge between allowed nodes, and is a pin or has a way on in the set. */
  ghost predicate Sustained(d: Fabric, ends: seq<(nat, nat)>, nodes: set<nat>)
    requires d.Valid()
  {
    forall v :: v in nodes ==>
      && v < d.N() && Marked(d, v)
      && (IsPin(ends, v) || exists w :: w in nodes && d.Way(v, w))
  }

  /** Pins stay in the graph, and so does what some sustained set holds. */
  ghost predicate Stays(d: Fabric, ends: seq<(nat, nat)>, v: nat)
    requires d.Valid()
  {
    IsPin(ends, v) || exists nodes: set<nat> :: v in nodes && Sustained(d, ends, nodes)
  }

  /** The members of `part` stand in `list` at these rising positions. */
  ghost predicate StandsAt(part: seq<nat>, list: seq<nat>, at: seq<nat>) {
    && |at| == |part|
    && (forall i :: 0 <= i < |part| ==> at[i] < |list| && list[at[i]] == part[i])
    && (forall i, j :: 0 <= i < j < |part| ==> at[i] < at[j])
  }

  ghost predicate InOrder(part: seq<nat>, list: seq<nat>) { exists at: seq<nat> :: StandsAt(part, list, at) }

  /** One entry of the device's adjacency is copied, with its multiplicity, exactly if both ends stay. */
  ghost predicate CopiesEdge(d: Fabric, ends: seq<(nat, nat)>, children: seq<seq<nat>>, u: nat, v: nat)
    requires d.Valid() && u < |children| == d.N()
  {
    Count(children[u], v) ==
    if Stays(d, ends, u) && Stays(d, ends, v) && d.Usable(v) then Count(d.out[u], v) else 0
  }

  /** The children are the device's edges between nodes that stay, each list in the device's order. */
  ghost predicate IsCut(d: Fabric, ends: seq<(nat, nat)>, children: seq<seq<nat>>)
    requires d.Valid()
  {
    && |children| == d.N()
    && (forall u: nat, v: nat :: u < d.N() ==> CopiesEdge(d, ends, children, u, v))
    && (forall u: nat :: u < d.N() ==> InOrder(children[u], d.out[u]))
  }

  lemma StandsSnoc(part: seq<nat>, list: seq<nat>, v: nat)
    requires InOrder(part, list)
    ensures InOrder(part + [v], list + [v]) && InOrder(part, list + [v])
  {
    var at: seq<nat> :| StandsAt(part, list, at);
    assert StandsAt(part, list + [v], at);
    assert StandsAt(part + [v], list + [v], at + [|list|]);
  }

  lemma {:induction false} ChosenInOrder(d: Fabric, live: seq<bool>, list: seq<nat>)
    ensures InOrder(Chosen(d, live, list), list)
  {
    if |list| == 0 {
      assert StandsAt([], list, []);
    } else {
      var front, v := list[..|list| - 1], list[|list| - 1];
      ChosenInOrder(d, live, front);
      StandsSnoc(Chosen(d, live, front), front, v);
      assert list == front + [v];
      if !(d.Usable(v) && v < |live| && live[v]) { assert Chosen(d, live, list) == Chosen(d, live, front); }
    }
  }

  /** Two ways to tell a set in which nothing is a dead end. */
  lemma SustainedIsSupported(d: Fabric, ends: seq<(nat, nat)>, live0: seq<bool>, pin: seq<bool>, nodes: set<nat>)
    requires d.Valid() && |live0| == |pin| == d.N() && (forall v :: 0 <= v < d.N() ==> (pin[v] <==> IsPin(ends, v)))
    requires forall x: nat :: x < d.N() ==> (live0[x] <==> Marked(d, x))
    ensures Sustained(d, ends, nodes) <==> Supported(d, live0, pin, nodes)
  {
    if Sustained(d, ends, nodes) {
      forall v | v in nodes && !pin[v] ensures exists w :: w in nodes && d.Edge(v, w) && d.Usable(w) {
        var w :| w in nodes && d.Way(v, w);
      }
    }
    if Supported(d, live0, pin, nodes) {
      forall v | v in nodes && !IsPin(ends, v) ensures exists w :: w in nodes && d.Way(v, w) {
        var w :| w in nodes && d.Edge(v, w) && d.Usable(w);
        assert d.Way(v, w);
      }
    }
  }

  /** What the removal of dead ends leaves, with the pins put back, is what stays. */
  lemma RemainderStays(d: Fabric, ends: seq<(nat, nat)>, live0: seq<bool>, pin: seq<bool>, live: seq<bool>, v: nat)
    requires d.Valid() && |live0| == |pin| == |live| == d.N() && v < d.N()
    requires forall x :: 0 <= x < d.N() ==> (pin[x] <==> IsPin(ends, x))
    requires forall x: nat :: x < d.N() ==> (live0[x] <==> Marked(d, x))
    requires NoDeadEnds(d, pin, live) && KeepsSupported(d, live0, pin, live)
    requires forall x :: 0 <= x < d.N() && live[x] ==> live0[x]
    ensures live[v] || pin[v] <==> Stays(d, ends, v)
  {
    if live[v] {
      var nodes := set x: nat | x < d.N() && live[x];
      RemainderIsSupported(d, live0, pin, live, nodes);
      SustainedIsSupported(d, ends, live0, pin, nodes);
      assert v in nodes;
    }
    if Stays(d, ends, v) && !pin[v] {
      var nodes: set<nat> :| v in nodes && Sustained(d, ends, nodes);
      SustainedIsSupported(d, ends, live0, pin, nodes);
      assert Within(nodes, live);
    }
  }

  lemma ChildrenAreCut(d: Fabric, ends: seq<(nat, nat)>, inGraph: seq<bool>, children: seq<seq<nat>>)
    requires d.Valid() && HasChildren(d, inGraph, children)
    requires forall v: nat :: v < d.N() ==> (inGraph[v] <==> Stays(d, ends, v))
    ensures IsCut(d, ends, children)
  {
    forall u: nat, v: nat | u < d.N() ensures CopiesEdge(d, ends, children, u, v) {
      ChosenHolds(d, inGraph, d.out[u], v);
    }
    forall u: nat | u < d.N() ensures InOrder(children[u], d.out[u]) {
      ChosenInOrder(d, inGraph, d.out[u]);
      if !inGraph[u] { assert StandsAt(children[u], d.out[u], []); }
    }
  }

  /** In a cut graph the children are the ways between nodes that stay, and no listed node but a pin is a dead end. */
  lemma CutHasNoDeadEnds(d: Fabric, ends: seq<(nat, nat)>, children: seq<seq<nat>>, u: nat, v: nat)
    requires d.Valid() && IsCut(d, ends, children) && u < d.N()
    ensures v in children[u] <==> d.Way(u, v) && Stays(d, ends, u) && Stays(d, ends, v)
    ensures v in children[u] ==> v < d.N() && (IsPin(ends, v) || children[v] != [])
  {
    assert CopiesEdge(d, ends, children, u, v);
    CountIn(children[u], v);
    CountIn(d.out[u], v);
    if v in children[u] && !IsPin(ends, v) {
      var nodes: set<nat> :| v in nodes && Sustained(d, ends, nodes);
      var w :| w in nodes && d.Way(v, w);
      assert Stays(d, ends, w) && CopiesEdge(d, ends, children, v, w);
      CountIn(children[v], w);
      CountIn(d.out[v], w);
    }
  }

  /**
   The children of the routing graph, after pruning and with the pins put back: the device's
   usable edges between nodes that stay. Nothing listed but a pin is a dead end, and between
   any two pins exactly the walks of the device through usable nodes survive.
   */
  method SetRouteNodeChildren(d: Fabric, ends: seq<(nat, nat)>) returns (children: seq<seq<nat>>)
    requires d.Valid() && forall c :: 0 <= c < |ends| ==> ends[c].0 < d.N() && ends[c].1 < d.N()
    ensures IsCut(d, ends, children) && SameRoutes(d, ends, children)
    ensures forall u, k :: 0 <= u < d.N() && 0 <= k < |children[u]| ==>
      children[u][k] < d.N() && (IsPin(ends, children[u][k]) || children[children[u][k]] != [])
  {
    var live0 := MarkInGraph(d);
    var pin := MarkPins(ends, d.N());
    var live := ReduceRouteNode(d, live0, pin);
    var inGraph := seq(d.N(), v requires 0 <= v < d.N() => live[v] || pin[v]);
    children := SetChildren(d, inGraph);
    PruningKeepsRoutes(d, ends, live0, pin, live, inGraph, children);
    forall v: nat | v < d.N() ensures inGraph[v] <==> Stays(d, ends, v) {
      RemainderStays(d, ends, live0, pin, live, v);
    }
    ChildrenAreCut(d, ends, inGraph, children);
    forall u, k | 0 <= u < d.N() && 0 <= k < |children[u]|
      ensures children[u][k] < d.N() && (IsPin(ends, children[u][k]) || children[children[u][k]] != [])
    {
      CutHasNoDeadEnds(d, ends, children, u, children[u][k]);
    }
  }

  lemma PruningKeepsRoutes(d: Fabric, ends: seq<(nat, nat)>, live0: seq<bool>, pin: seq<bool>, live: seq<bool>,
                           inGraph: seq<bool>, children: seq<seq<nat>>)
    requires d.Valid() && (forall c :: 0 <= c < |ends| ==> ends[c].0 < d.N() && ends[c].1 < d.N())
    requires |live0| == |pin| == |live| == d.N() && (forall v :: 0 <= v < d.N() ==> (pin[v] <==> IsPin(ends, v)))
    requires forall x: nat :: x < d.N() ==> (live0[x] <==> Marked(d, x))
    requires KeepsSupported(d, live0, pin, live) && HasChildren(d, inGraph, children)
    requires forall v :: 0 <= v < d.N() ==> (inGraph[v] <==> live[v] || pin[v])
    ensures SameRoutes(d, ends, children)
  {
    forall p | |p| > 0 && IsPin(ends, p[0]) && IsPin(ends, p[|p| - 1])
      ensures FabricWalk(d, p) <==> GraphWalk(children, p)
    {
      if FabricWalk(d, p) { WalkSurvives(d, live0, pin, live, inGraph, children, p); }
      if GraphWalk(children, p) { WalkExisted(d, inGraph, children, p); }
    }
  }

  lemma WalkSurvives(d: Fabric, live0: seq<bool>, pin: seq<bool>, live: seq<bool>, inGraph: seq<bool>,
                     children: seq<seq<nat>>, p: seq<nat>)
    requires d.Valid() && |live0| == |pin| == |live| == d.N() && HasChildren(d, inGraph, children) && FabricWalk(d, p)
    requires p[0] < d.N() && pin[p[0]] && p[|p| - 1] < d.N() && pin[p[|p| - 1]]
    requires forall x: nat :: x < d.N() ==> (live0[x] <==> Marked(d, x))
    requires KeepsSupported(d, live0, pin, live)
    requires forall v :: 0 <= v < d.N() ==> (inGraph[v] <==> live[v] || pin[v])
    ensures GraphWalk(children, p)
  {
    var nodes := set i | 1 <= i < |p| :: p[i];
    if |p| >= 3 {
      WalkIsSupported(d, live0, pin, p, nodes);
      assert Within(nodes, live);
    }
    forall i | 0 <= i < |p| ensures p[i] < d.N() && inGraph[p[i]] {
      if 1 <= i < |p| - 1 { assert p[i] in nodes; }
    }
    forall i | 0 <= i < |p| - 1 ensures p[i + 1] in children[p[i]] {
      assert d.Way(p[i], p[i + 1]);
      ChildOf(d, inGraph, p[i], p[i + 1]);
    }
  }

  lemma WalkExisted(d: Fabric, inGraph: seq<bool>, children: seq<seq<nat>>, p: seq<nat>)
    requires d.Valid() && HasChildren(d, inGraph, children) && GraphWalk(children, p)
    ensures FabricWalk(d, p)
  {
    assert p[0] < |children|;
    forall i | 0 <= i < |p| - 1 ensures d.Way(p[i], p[i + 1]) {
      assert p[i + 1] in children[p[i]];
      ChildOf(d, inGraph, p[i], p[i + 1]);
    }
  }
}
