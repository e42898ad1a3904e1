/**
 From the wires and PIPs of the device to the graph that is searched: adjacency
 (src/db/device.cpp, lines 9-38), pruning and children (src/db/database.cpp, lines 209-329).
 */
module DeviceGraph {
  import opened Counting
  import opened RoutingGraph
  import opened Search
  import Device
  import Pruning

  /** The device's adjacency as the pruning reads it. */
  function CutFrom(d: Device.Fabric, allowed: seq<bool>, preserved: seq<bool>): Pruning.Fabric {
    Pruning.Fabric(seq(|d.nodeWires|, u requires 0 <= u < |d.nodeWires| => Device.Outgoing(d, d.nodeWires[u])),
                   seq(|d.nodeWires|, u requires 0 <= u < |d.nodeWires| => Device.Incoming(d, d.nodeWires[u])),
                   allowed, preserved)
  }

  /** The wires of tiles are numbered with nodes of the device. */
  ghost predicate Numbered(d: Device.Fabric) {
    forall t: nat, c: nat :: t < |d.wireNode| && c < |d.wireNode[t]| && d.wireNode[t][c].Some? ==>
      d.wireNode[t][c].value < |d.nodeWires|
  }

  lemma {:induction false} NodesInRange(d: Device.Fabric, tile: nat, list: seq<nat>)
    requires Numbered(d)
    ensures forall k :: 0 <= k < |Device.NodesOf(d, tile, list)| ==> Device.NodesOf(d, tile, list)[k] < |d.nodeWires|
  {
    if |list| > 0 { NodesInRange(d, tile, list[..|list| - 1]); }
  }

  lemma {:induction false} NeighboursInRange(d: Device.Fabric, wires: seq<Device.Wire>)
    requires Numbered(d)
    ensures forall k :: 0 <= k < |Device.Outgoing(d, wires)| ==> Device.Outgoing(d, wires)[k] < |d.nodeWires|
    ensures forall k :: 0 <= k < |Device.Incoming(d, wires)| ==> Device.Incoming(d, wires)[k] < |d.nodeWires|
  {
    if |wires| > 0 {
      var x := wires[|wires| - 1];
      NeighboursInRange(d, wires[..|wires| - 1]);
      NodesInRange(d, x.tile, Device.WiresAfter(d, x));
      NodesInRange(d, x.tile, Device.WiresBefore(d, x));
    }
  }

  /** What the pruning relies on, the transposed incoming lists above all, holds of every device. */
  lemma CutIsValid(d: Device.Fabric, allowed: seq<bool>, preserved: seq<bool>)
    requires d.Valid() && d.OneNodePerWire() && Numbered(d) && |allowed| == |preserved| == |d.nodeWires|
    ensures CutFrom(d, allowed, preserved).Valid()
  {
    var f := CutFrom(d, allowed, preserved);
    forall u: nat | u < f.N()
      ensures forall k :: 0 <= k < |f.out[u]| ==> f.out[u][k] < f.N()
      ensures forall k :: 0 <= k < |f.incoming[u]| ==> f.incoming[u][k] < f.N()
    {
      NeighboursInRange(d, d.nodeWires[u]);
    }
    forall u: nat, v: nat | u < f.N() && v < f.N() ensures Count(f.incoming[v], u) == Count(f.out[u], v) {
      Device.AdjacencyTransposed(d, u, v);
    }
  }

  /** A walk from node to node over PIPs; every node after the first lies in an allowed tile and is not preserved. */
  ghost predicate PipWalk(d: Device.Fabric, allowed: seq<bool>, preserved: seq<bool>, p: seq<nat>)
    requires |allowed| == |preserved| == |d.nodeWires|
  {
    |p| >= 2 && p[0] < |d.nodeWires| && forall i :: 0 <= i < |p| - 1 ==> PipStep(d, allowed, preserved, p[i], p[i + 1])
  }

  ghost predicate PipStep(d: Device.Fabric, allowed: seq<bool>, preserved: seq<bool>, u: nat, v: nat)
    requires |allowed| == |preserved| == |d.nodeWires|
  {
    && u < |d.nodeWires| && v < |d.nodeWires| && allowed[v] && !preserved[v]
    && Device.SomePip(d, d.nodeWires[u], d.nodeWires[v])
  }

  lemma WayIsPip(d: Device.Fabric, allowed: seq<bool>, preserved: seq<bool>, u: nat, v: nat)
    requires d.Valid() && d.OneNodePerWire() && |allowed| == |preserved| == |d.nodeWires|
    ensures CutFrom(d, allowed, preserved).Way(u, v) <==> PipStep(d, allowed, preserved, u, v)
  {
    if u < |d.nodeWires| && v < |d.nodeWires| { Device.EdgeIsPip(d, u, v); }
  }

  /** The walks that the pruning keeps are those over PIPs. */
  lemma FabricWalkIsPipWalk(d: Device.Fabric, allowed: seq<bool>, preserved: seq<bool>, p: seq<nat>)
    requires d.Valid() && d.OneNodePerWire() && |allowed| == |preserved| == |d.nodeWires|
    ensures Pruning.FabricWalk(CutFrom(d, allowed, preserved), p) <==> PipWalk(d, allowed, preserved, p)
  {
    var f := CutFrom(d, allowed, preserved);
    forall i | 0 <= i < |p| - 1 ensures f.Way(p[i], p[i + 1]) <==> PipStep(d, allowed, preserved, p[i], p[i + 1]) {
      WayIsPip(d, allowed, preserved, p[i], p[i + 1]);
    }
  }

  // The graph

  /** The node with its child list filled in. */
  function WithChildren(n: Node, cs: seq<nat>): (r: Node)
    ensures r.Children() == cs
  {
    var k := if |cs| < INLINE_CAPACITY then |cs| else INLINE_CAPACITY;
    n.(inlineChildren := cs[..k], overflowChildren := cs[k..])
  }

  ghost predicate GraphPath(g: Graph, p: seq<nat>) {
    |p| >= 2 && forall i :: 0 <= i < |p| - 1 ==> Edge(g, p[i], p[i + 1])
  }

  /** Between pins, the graph has exactly the walks over PIPs. */
  ghost predicate FollowsDevice(d: Device.Fabric, allowed: seq<bool>, preserved: seq<bool>, ends: seq<(nat, nat)>,
                                g: Graph)
    requires |allowed| == |preserved| == |d.nodeWires|
  {
    forall p :: |p| > 0 && Pruning.IsPin(ends, p[0]) && Pruning.IsPin(ends, p[|p| - 1]) ==>
      (GraphPath(g, p) <==> PipWalk(d, allowed, preserved, p))
  }

  /**
   A node of the device survives the pruning: it is a pin, or lies in a set of nodes where each
   is a pin or has a PIP to a usable node of the set.
   */
  ghost predicate Survives(d: Device.Fabric, allowed: seq<bool>, preserved: seq<bool>, ends: seq<(nat, nat)>, v: nat)
    requires CutFrom(d, allowed, preserved).Valid()
  {
    Pruning.Stays(CutFrom(d, allowed, preserved), ends, v)
  }

  /** From u to v the graph has as many edges as the device has PIPs, if both survive, and else none. */
  ghost predicate EdgeIsPips(d: Device.Fabric, allowed: seq<bool>, preserved: seq<bool>, ends: seq<(nat, nat)>,
                             children: seq<nat>, u: nat, v: nat)
    requires CutFrom(d, allowed, preserved).Valid() && |allowed| == |preserved| == |d.nodeWires|
    requires u < |d.nodeWires| && v < |d.nodeWires|
  {
    Count(children, v) ==
    if Survives(d, allowed, preserved, ends, u) && Survives(d, allowed, preserved, ends, v) &&
       allowed[v] && !preserved[v]
    then Device.Rows(d, d.nodeWires[u], d.nodeWires[v])
    else 0
  }

  ghost predicate EdgesArePips(d: Device.Fabric, allowed: seq<bool>, preserved: seq<bool>, ends: seq<(nat, nat)>,
                               g: Graph)
    requires CutFrom(d, allowed, preserved).Valid() && |g| == |allowed| == |preserved| == |d.nodeWires|
  {
    forall u: nat, v: nat :: u < |g| && v < |g| ==>
      EdgeIsPips(d, allowed, preserved, ends, g[u].Children(), u, v)
  }

  /** Nothing but a pin is listed as a child without having children itself. */
  ghost predicate NoBlindChild(ends: seq<(nat, nat)>, g: Graph) {
    forall u, k :: 0 <= u < |g| && 0 <= k < |g[u].Children()| ==>
      && g[u].Children()[k] < |g|
      && (Pruning.IsPin(ends, g[u].Children()[k]) || g[g[u].Children()[k]].Children() != [])
  }

  lemma CutEdgesArePips(d: Device.Fabric, allowed: seq<bool>, preserved: seq<bool>, ends: seq<(nat, nat)>, g: Graph,
                        children: seq<seq<nat>>)
    requires d.Valid() && d.OneNodePerWire() && |g| == |children| == |allowed| == |preserved| == |d.nodeWires|
    requires CutFrom(d, allowed, preserved).Valid() && Pruning.IsCut(CutFrom(d, allowed, preserved), ends, children)
    requires forall u :: 0 <= u < |g| ==> g[u].Children() == children[u]
    ensures EdgesArePips(d, allowed, preserved, ends, g)
  {
    var f := CutFrom(d, allowed, preserved);
    forall u: nat, v: nat | u < |g| && v < |g|
      ensures EdgeIsPips(d, allowed, preserved, ends, g[u].Children(), u, v)
    {
      assert Pruning.CopiesEdge(f, ends, children, u, v);
      CutEdge(d, f, u, v);
    }
  }

  lemma CutEdge(d: Device.Fabric, f: Pruning.Fabric, u: nat, v: nat)
    requires d.Valid() && d.OneNodePerWire() && u < |d.nodeWires| && v < |d.nodeWires|
    requires f == CutFrom(d, f.allowed, f.preserved)
    ensures Count(f.out[u], v) == Device.Rows(d, d.nodeWires[u], d.nodeWires[v])
  {
    assert Device.AllKnown(d, d.nodeWires[u]);
    Device.OutgoingCount(d, d.nodeWires[u], v);
  }

  /**
   The graph for the given connections. It is well formed, its nodes are the given ones, its
   edges are the PIPs between surviving nodes, and between pins it has exactly the walks which
   PIPs of the device offer.
   */
  method BuildGraph(d: Device.Fabric, allowed: seq<bool>, preserved: seq<bool>, ends: seq<(nat, nat)>, nodes: seq<Node>)
    returns (g: Graph)
    requires d.Valid() && d.OneNodePerWire() && Numbered(d) && |allowed| == |preserved| == |nodes| == |d.nodeWires|
    requires forall c :: 0 <= c < |ends| ==> ends[c].0 < |nodes| && ends[c].1 < |nodes|
    ensures |g| == |nodes| && WellFormed(g) && FollowsDevice(d, allowed, preserved, ends, g)
    ensures CutFrom(d, allowed, preserved).Valid() && EdgesArePips(d, allowed, preserved, ends, g)
    ensures NoBlindChild(ends, g)
    ensures forall v :: 0 <= v < |g| ==> g[v] == WithChildren(nodes[v], g[v].Children())
  {
    CutIsValid(d, allowed, preserved);
    var f := ReadAdjacency(d, allowed, preserved);
    var children := Pruning.SetRouteNodeChildren(f, ends);
    g := seq(|nodes|, v requires 0 <= v < |nodes| => WithChildren(nodes[v], children[v]));
    CutEdgesArePips(d, allowed, preserved, ends, g, children);
    forall p | |p| > 0 && Pruning.IsPin(ends, p[0]) && Pruning.IsPin(ends, p[|p| - 1])
      ensures GraphPath(g, p) <==> PipWalk(d, allowed, preserved, p)
    {
      FabricWalkIsPipWalk(d, allowed, preserved, p);
      SamePaths(g, children, p);
    }
  }

  lemma SamePaths(g: Graph, children: seq<seq<nat>>, p: seq<nat>)
    requires |g| == |children| && forall u :: 0 <= u < |g| ==> g[u].Children() == children[u]
    requires forall u, k :: 0 <= u < |g| && 0 <= k < |children[u]| ==> children[u][k] < |g|
    ensures GraphPath(g, p) <==> Pruning.GraphWalk(children, p)
  {
    if GraphPath(g, p) {
      forall i | 0 <= i < |p| - 1
        ensures p[i] < |children| && p[i + 1] in children[p[i]]
      {
        assert Edge(g, p[i], p[i + 1]);
      }
    }
    if Pruning.GraphWalk(children, p) {
      forall i | 0 <= i < |p| - 1 ensures Edge(g, p[i], p[i + 1]) {
        assert p[i + 1] in children[p[i]];
        var k :| 0 <= k < |children[p[i]]| && children[p[i]][k] == p[i + 1];
      }
    }
  }

  method ReadAdjacency(d: Device.Fabric, allowed: seq<bool>, preserved: seq<bool>) returns (f: Pruning.Fabric)
    requires d.Valid()
    ensures f == CutFrom(d, allowed, preserved)
  {
    var out, incoming: seq<seq<nat>> := [], [];
    for u := 0 to |d.nodeWires|
      invariant |out| == |incoming| == u
      invariant forall x :: 0 <= x < u ==>
        out[x] == Device.Outgoing(d, d.nodeWires[x]) && incoming[x] == Device.Incoming(d, d.nodeWires[x])
    {
      var after := Device.GetOutgoingNodes(d, u);
      var before := Device.GetIncomingNodes(d, u);
      out, incoming := out + [after], incoming + [before];
    }
    f := Pruning.Fabric(out, incoming, allowed, preserved);
    ghost var cut := CutFrom(d, allowed, preserved);
    assert f.out == cut.out;
    assert f.incoming == cut.incoming;
  }

  /** The device offers the connection a walk over PIPs through passable nodes. */
  ghost predicate Offers(d: Device.Fabric, allowed: seq<bool>, preserved: seq<bool>, g: Graph, c: Terminal,
                         counts: map<nat, int>)
    requires |allowed| == |preserved| == |d.nodeWires| == |g| && c.sink < |g|
  {
    exists p :: PipRoute(d, allowed, preserved, g, c, counts, p)
  }

  ghost predicate PipRoute(d: Device.Fabric, allowed: seq<bool>, preserved: seq<bool>, g: Graph, c: Terminal,
                           counts: map<nat, int>, p: seq<nat>)
    requires |allowed| == |preserved| == |d.nodeWires| == |g| && c.sink < |g|
  {
    && PipWalk(d, allowed, preserved, p) && p[0] == c.source && p[|p| - 1] == c.sink
    && forall i :: 1 <= i < |p| - 1 ==> Passable(g, c, counts, p[i])
  }

  /**
   A connection can be routed in the pruned graph exactly if the device offers it a route:
   the pruning takes no route away and adds none.
   */
  lemma RoutableInDevice(d: Device.Fabric, allowed: seq<bool>, preserved: seq<bool>, ends: seq<(nat, nat)>, g: Graph,
                         c: Terminal, counts: map<nat, int>)
    requires |allowed| == |preserved| == |d.nodeWires| == |g| && WellFormed(g) && ValidTerminal(g, c)
    requires FollowsDevice(d, allowed, preserved, ends, g) && Pruning.IsPin(ends, c.source)
    requires Pruning.IsPin(ends, c.sink)
    ensures SinkConnected(g, c, counts) <==> Offers(d, allowed, preserved, g, c, counts)
  {
    if SinkConnected(g, c, counts) {
      var p :| PassableWalk(g, c, counts, p) && p[|p| - 1] == c.sink;
      assert GraphPath(g, p);
      assert PipRoute(d, allowed, preserved, g, c, counts, p);
    }
    if Offers(d, allowed, preserved, g, c, counts) {
      var p :| PipRoute(d, allowed, preserved, g, c, counts, p);
      assert GraphPath(g, p);
      assert PassableWalk(g, c, counts, p);
    }
  }
}
