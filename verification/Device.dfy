/**
 Node adjacency of the device, derived from the wires of its tiles, and the programmable
 interconnect points (PIPs) between wires: get_outgoing_nodes, get_incoming_nodes,
 add_tile_type_pip and getTileTypePIP (src/db/device.cpp), ints2long (src/utils/utils.cpp).
 */
module Device {
  import opened Counting
  import opened Options

  const WORD: nat := 0x1_0000_0000
  const NULL_TILE: nat := 35

  /** A wire of a tile, with the type of its tile. */
  datatype Wire = Wire(tile: nat, tileType: nat, index: nat)

  /** A PIP from wire0 to wire1, or, if not forward, its use from wire1 to wire0. */
  datatype Pip = Pip(wire0: nat, wire1: nat, forward: bool)

  predicate Joins(p: Pip, a: nat, b: nat) {
    if p.forward then p.wire0 == a && p.wire1 == b else p.wire0 == b && p.wire1 == a
  }

  /** The key of a pair of wires, for 32-bit numbers. */
  function Ints2Long(a: nat, b: nat): nat { a * WORD + b }

  lemma KeyIsUnique(a: nat, b: nat, c: nat, d: nat)
    requires b < WORD && d < WORD
    ensures Ints2Long(a, b) == Ints2Long(c, d) <==> a == c && b == d
  {
    if a < c {
      assert c * WORD >= (a + 1) * WORD;
    } else if c < a {
      assert a * WORD >= (c + 1) * WORD;
    }
  }

  /** What is kept for one tile type. */
  datatype Tables = Tables(outgoing: seq<seq<nat>>, incoming: seq<seq<nat>>, pips: seq<Pip>, pairs: map<nat, nat>)

  /** The pair of wires is listed in both directions, and found in the index with a PIP that joins them. */
  ghost predicate PairOk(t: Tables, a: nat, b: nat)
    requires a < |t.outgoing| == |t.incoming| && b < |t.outgoing|
  {
    && Count(t.outgoing[a], b) == Count(t.incoming[b], a) == (if Ints2Long(a, b) in t.pairs then 1 else 0)
    && (Ints2Long(a, b) in t.pairs ==>
          t.pairs[Ints2Long(a, b)] < |t.pips| && Joins(t.pips[t.pairs[Ints2Long(a, b)]], a, b))
  }

  ghost predicate TablesOk(t: Tables) {
    && |t.outgoing| == |t.incoming| <= WORD
    && (forall a, k :: 0 <= a < |t.outgoing| && 0 <= k < |t.outgoing[a]| ==> t.outgoing[a][k] < |t.outgoing|)
    && (forall a, k :: 0 <= a < |t.incoming| && 0 <= k < |t.incoming[a]| ==> t.incoming[a][k] < |t.outgoing|)
    && (forall a: nat, b: nat :: a < |t.outgoing| && b < |t.outgoing| ==> PairOk(t, a, b))
  }

  /** One direction of a PIP entered into all tables. */
  function Entered(t: Tables, a: nat, b: nat, p: Pip): Tables
    requires a < |t.outgoing| == |t.incoming| && b < |t.outgoing|
  {
    Tables(t.outgoing[a := t.outgoing[a] + [b]], t.incoming[b := t.incoming[b] + [a]], t.pips + [p],
           t.pairs[Ints2Long(a, b) := |t.pips|])
  }

  function PipEntered(t: Tables, w0: nat, w1: nat, directional: bool): Tables
    requires w0 < |t.outgoing| == |t.incoming| && w1 < |t.outgoing|
  {
    var r := Entered(t, w0, w1, Pip(w0, w1, true));
    if directional then r else Entered(r, w1, w0, Pip(w0, w1, false))
  }

  lemma EnteredOk(t: Tables, a: nat, b: nat, p: Pip)
    requires TablesOk(t) && a < |t.outgoing| && b < |t.outgoing| && Ints2Long(a, b) !in t.pairs && Joins(p, a, b)
    ensures TablesOk(Entered(t, a, b, p))
  {
    var r := Entered(t, a, b, p);
    forall x: nat, y: nat | x < |t.outgoing| && y < |t.outgoing| ensures PairOk(r, x, y) {
      assert PairOk(t, x, y);
      KeyIsUnique(x, y, a, b);
      CountSnoc(t.outgoing[a], b, y);
      CountSnoc(t.incoming[b], a, x);
    }
  }

  class TileTypes {
    var types: seq<Tables>

    /**
     Enter a PIP, and its reverse unless it is directional. The program stops if the pair is
     known already; otherwise the tables stay in order.
     */
    method AddTileTypePip(tileType: nat, w0: nat, w1: nat, directional: bool) returns (ok: bool)
      requires tileType < |types| && TablesOk(types[tileType]) && w0 < |types[tileType].outgoing|
      requires w1 < |types[tileType].outgoing|
      modifies this
      ensures ok <==> Ints2Long(w0, w1) !in old(types[tileType].pairs) &&
                      (!directional ==> w0 != w1 && Ints2Long(w1, w0) !in old(types[tileType].pairs))
      ensures |types| == old(|types|) && forall x :: 0 <= x < |types| && x != tileType ==> types[x] == old(types[x])
      ensures ok ==> TablesOk(types[tileType])
      ensures ok ==> types[tileType] == PipEntered(old(types[tileType]), w0, w1, directional)
    {
      var t := types[tileType];
      KeyIsUnique(w0, w1, w1, w0);
      ok := Ints2Long(w0, w1) !in t.pairs;
      if !ok { return; }
      EnteredOk(t, w0, w1, Pip(w0, w1, true));
      t := Entered(t, w0, w1, Pip(w0, w1, true));
      if !directional {
        ok := Ints2Long(w1, w0) !in t.pairs;
        if !ok { return; }
        EnteredOk(t, w1, w0, Pip(w0, w1, false));
        t := Entered(t, w1, w0, Pip(w0, w1, false));
      }
      types := types[tileType := t];
    }
  }

  // Adjacency

  /** Tables per tile type, type of every tile, wires of every node, and node of every wire of every tile. */
  datatype Fabric = Fabric(types: seq<Tables>, tileToType: seq<nat>, nodeWires: seq<seq<Wire>>,
                           wireNode: seq<seq<Option<nat>>>)
  {
    /** The wire exists, in a tile that is not of the null type. */
    ghost predicate Placed(x: Wire) {
      && x.tile < |wireNode| == |tileToType| && x.tileType == tileToType[x.tile] < |types| && x.tileType != NULL_TILE
      && x.index < |types[x.tileType].outgoing| && |wireNode[x.tile]| == |types[x.tileType].outgoing|
    }

    /** A wire of a null tile, of which nothing else is known. */
    ghost predicate Unplaced(x: Wire) {
      x.tile < |wireNode| == |tileToType| && x.tileType == tileToType[x.tile] == NULL_TILE < |types|
    }

    ghost predicate Known(x: Wire) { Placed(x) || Unplaced(x) }

    /** No PIP is ever entered for the null type, whose tables stay empty. */
    ghost predicate Valid() {
      && (forall y :: 0 <= y < |types| ==> TablesOk(types[y]))
      && (NULL_TILE < |types| ==> types[NULL_TILE] == Tables([], [], [], map[]))
      && (forall n, k :: 0 <= n < |nodeWires| && 0 <= k < |nodeWires[n]| ==> Known(nodeWires[n][k]))
    }

    /** Each wire belongs to the node recorded for it, once, and to no other. */
    ghost predicate OneNodePerWire() {
      forall n: nat, x: Wire :: n < |nodeWires| && Placed(x) ==>
        Count(nodeWires[n], x) == if wireNode[x.tile][x.index] == Some(n) then 1 else 0
    }
  }

  /** The nodes of the listed wires of a tile, where they have one. */
  function NodesOf(d: Fabric, tile: nat, list: seq<nat>): seq<nat> {
    if |list| == 0 then []
    else
      var c := list[|list| - 1];
      NodesOf(d, tile, list[..|list| - 1]) +
      (if tile < |d.wireNode| && c < |d.wireNode[tile]| && d.wireNode[tile][c].Some? then [d.wireNode[tile][c].value]
       else [])
  }

  /** The wires to which PIPs lead from x; wires of null tiles are passed over. */
  function WiresAfter(d: Fabric, x: Wire): seq<nat> {
    if x.tileType != NULL_TILE && x.tileType < |d.types| && x.index < |d.types[x.tileType].outgoing|
    then d.types[x.tileType].outgoing[x.index]
    else []
  }

  /** The wires from which PIPs lead to x; a row that the tables do not have is empty. */
  function WiresBefore(d: Fabric, x: Wire): seq<nat> {
    if x.tileType < |d.types| && x.index < |d.types[x.tileType].incoming| then d.types[x.tileType].incoming[x.index]
    else []
  }

  function Outgoing(d: Fabric, wires: seq<Wire>): seq<nat> {
    if |wires| == 0 then []
    else
      var x := wires[|wires| - 1];
      Outgoing(d, wires[..|wires| - 1]) + NodesOf(d, x.tile, WiresAfter(d, x))
  }

  function Incoming(d: Fabric, wires: seq<Wire>): seq<nat> {
    if |wires| == 0 then []
    else
      var x := wires[|wires| - 1];
      Incoming(d, wires[..|wires| - 1]) + NodesOf(d, x.tile, WiresBefore(d, x))
  }

  method CollectNodes(d: Fabric, tile: nat, list: seq<nat>, before: seq<nat>) returns (nodes: seq<nat>)
    requires tile < |d.wireNode| && forall k :: 0 <= k < |list| ==> list[k] < |d.wireNode[tile]|
    ensures nodes == before + NodesOf(d, tile, list)
  {
    nodes := before;
    for k := 0 to |list|
      invariant nodes == before + NodesOf(d, tile, list[..k])
    {
      assert list[..k + 1][..k] == list[..k];
      var node := d.wireNode[tile][list[k]];
      if node != None { nodes := nodes + [node.value]; }
    }
    assert list[..|list|] == list;
  }

  lemma RowsInRange(d: Fabric, x: Wire)
    requires d.Valid() && d.Known(x)
    ensures x.tile < |d.wireNode|
    ensures forall k :: 0 <= k < |WiresAfter(d, x)| ==> WiresAfter(d, x)[k] < |d.wireNode[x.tile]|
    ensures forall k :: 0 <= k < |WiresBefore(d, x)| ==> WiresBefore(d, x)[k] < |d.wireNode[x.tile]|
  {
    assert d.Placed(x) ==> TablesOk(d.types[x.tileType]);
  }

  /** The nodes that can be entered from a node. A wire of a null tile leads nowhere. */
  method GetOutgoingNodes(d: Fabric, node: nat) returns (outgoing: seq<nat>)
    requires d.Valid() && node < |d.nodeWires|
    ensures outgoing == Outgoing(d, d.nodeWires[node])
  {
    outgoing := [];
    var wires := d.nodeWires[node];
    for k := 0 to |wires|
      invariant outgoing == Outgoing(d, wires[..k])
    {
      assert wires[..k + 1][..k] == wires[..k];
      var wire := wires[k];
      RowsInRange(d, wire);
      if wire.tileType != NULL_TILE {
        assert d.Placed(wire);
        outgoing := CollectNodes(d, wire.tile, d.types[wire.tileType].outgoing[wire.index], outgoing);
      }
    }
    assert wires[..|wires|] == wires;
  }

  method GetIncomingNodes(d: Fabric, node: nat) returns (incoming: seq<nat>)
    requires d.Valid() && node < |d.nodeWires|
    ensures incoming == Incoming(d, d.nodeWires[node])
  {
    incoming := [];
    var wires := d.nodeWires[node];
    for k := 0 to |wires|
      invariant incoming == Incoming(d, wires[..k])
    {
      assert wires[..k + 1][..k] == wires[..k];
      RowsInRange(d, wires[k]);
      incoming := CollectNodes(d, wires[k].tile, WiresBefore(d, wires[k]), incoming);
    }
    assert wires[..|wires|] == wires;
  }

  // Transposition

  ghost predicate AllKnown(d: Fabric, wires: seq<Wire>) { forall k :: 0 <= k < |wires| ==> d.Known(wires[k]) }

  /** How often the listed wires of a tile occur among the given wires. */
  function Matches(tile: nat, list: seq<nat>, ys: seq<Wire>): nat {
    if |ys| == 0 then 0
    else
      var y := ys[|ys| - 1];
      Matches(tile, list, ys[..|ys| - 1]) + (if y.tile == tile then Count(list, y.index) else 0)
  }

  lemma {:induction false} OneMoreMatch(d: Fabric, x: Wire, list: seq<nat>, ys: seq<Wire>)
    requires d.Placed(x) && AllKnown(d, ys)
    ensures Matches(x.tile, list + [x.index], ys) == Matches(x.tile, list, ys) + Count(ys, x)
  {
    if |ys| > 0 {
      OneMoreMatch(d, x, list, ys[..|ys| - 1]);
      CountSnoc(list, x.index, ys[|ys| - 1].index);
      assert d.Known(ys[|ys| - 1]);
    }
  }

  lemma {:induction false} NoMatch(tile: nat, ys: seq<Wire>)
    ensures Matches(tile, [], ys) == 0
  {
    if |ys| > 0 { NoMatch(tile, ys[..|ys| - 1]); }
  }

  /** A node appears as often as the listed wires are wires of it. */
  lemma {:induction false} NodesCount(d: Fabric, x: Wire, list: seq<nat>, v: nat)
    requires d.Valid() && d.OneNodePerWire() && d.Placed(x) && v < |d.nodeWires|
    requires forall k :: 0 <= k < |list| ==> list[k] < |d.wireNode[x.tile]|
    ensures Count(NodesOf(d, x.tile, list), v) == Matches(x.tile, list, d.nodeWires[v])
  {
    if |list| == 0 {
      NoMatch(x.tile, d.nodeWires[v]);
    } else {
      var front, c := list[..|list| - 1], list[|list| - 1];
      var y := x.(index := c);
      NodesCount(d, x, front, v);
      assert list == front + [c];
      OneMoreMatch(d, y, front, d.nodeWires[v]);
      assert d.Placed(y) && Count(d.nodeWires[v], y) == if d.wireNode[x.tile][c] == Some(v) then 1 else 0;
      if d.wireNode[x.tile][c].Some? {
        CountSnoc(NodesOf(d, x.tile, front), d.wireNode[x.tile][c].value, v);
      } else {
        assert NodesOf(d, x.tile, list) == NodesOf(d, x.tile, front);
      }
    }
  }

  /** A PIP leads from wire x to wire y. */
  predicate PipFrom(d: Fabric, x: Wire, y: Wire) {
    x.tile == y.tile && x.tileType < |d.types| && Ints2Long(x.index, y.index) in d.types[x.tileType].pairs
  }

  function PipCount(d: Fabric, x: Wire, y: Wire): nat { if PipFrom(d, x, y) then 1 else 0 }

  function Row(d: Fabric, x: Wire, ys: seq<Wire>): nat {
    if |ys| == 0 then 0 else Row(d, x, ys[..|ys| - 1]) + PipCount(d, x, ys[|ys| - 1])
  }

  function Col(d: Fabric, xs: seq<Wire>, y: Wire): nat {
    if |xs| == 0 then 0 else Col(d, xs[..|xs| - 1], y) + PipCount(d, xs[|xs| - 1], y)
  }

  /** PIPs from one group of wires to another, counted by their start and by their end. */
  function Rows(d: Fabric, xs: seq<Wire>, ys: seq<Wire>): nat {
    if |xs| == 0 then 0 else Rows(d, xs[..|xs| - 1], ys) + Row(d, xs[|xs| - 1], ys)
  }

  function Cols(d: Fabric, xs: seq<Wire>, ys: seq<Wire>): nat {
    if |ys| == 0 then 0 else Cols(d, xs, ys[..|ys| - 1]) + Col(d, xs, ys[|ys| - 1])
  }

  lemma {:induction false} RowsAreCols(d: Fabric, xs: seq<Wire>, ys: seq<Wire>)
    ensures Rows(d, xs, ys) == Cols(d, xs, ys)
  {
    if |xs| == 0 {
      NoCols(d, ys);
    } else {
      RowsAreCols(d, xs[..|xs| - 1], ys);
      OneMoreRow(d, xs, ys);
    }
  }

  lemma {:induction false} NoCols(d: Fabric, ys: seq<Wire>)
    ensures Cols(d, [], ys) == 0
  {
    if |ys| > 0 { NoCols(d, ys[..|ys| - 1]); }
  }

  lemma {:induction false} OneMoreRow(d: Fabric, xs: seq<Wire>, ys: seq<Wire>)
    requires |xs| > 0
    ensures Cols(d, xs, ys) == Cols(d, xs[..|xs| - 1], ys) + Row(d, xs[|xs| - 1], ys)
  {
    if |ys| > 0 { OneMoreRow(d, xs, ys[..|ys| - 1]); }
  }

  lemma {:induction false} MatchesAreRow(d: Fabric, x: Wire, ys: seq<Wire>)
    requires d.Valid() && d.Placed(x) && AllKnown(d, ys)
    ensures Matches(x.tile, WiresAfter(d, x), ys) == Row(d, x, ys)
  {
    if |ys| > 0 {
      MatchesAreRow(d, x, ys[..|ys| - 1]);
      var y := ys[|ys| - 1];
      assert d.Known(y) && TablesOk(d.types[x.tileType]);
      if y.tile == x.tile { assert PairOk(d.types[x.tileType], x.index, y.index); }
    }
  }

  lemma {:induction false} MatchesAreCol(d: Fabric, xs: seq<Wire>, y: Wire)
    requires d.Valid() && d.Placed(y) && AllKnown(d, xs)
    ensures Matches(y.tile, WiresBefore(d, y), xs) == Col(d, xs, y)
  {
    assert TablesOk(d.types[y.tileType]);
    if |xs| > 0 {
      MatchesAreCol(d, xs[..|xs| - 1], y);
      var x := xs[|xs| - 1];
      assert d.Known(x);
      if y.tile == x.tile { assert PairOk(d.types[y.tileType], x.index, y.index); }
    }
  }

  /** No PIP leads from a wire of a null tile, and none to it. */
  lemma {:induction false} NothingUnplaced(d: Fabric, x: Wire, others: seq<Wire>)
    requires d.Valid() && d.Unplaced(x) && AllKnown(d, others)
    ensures Row(d, x, others) == 0 && Col(d, others, x) == 0
  {
    if |others| > 0 {
      NothingUnplaced(d, x, others[..|others| - 1]);
      assert d.Known(others[|others| - 1]);
    }
  }

  lemma {:induction false} OutgoingCount(d: Fabric, xs: seq<Wire>, v: nat)
    requires d.Valid() && d.OneNodePerWire() && AllKnown(d, xs) && v < |d.nodeWires|
    ensures Count(Outgoing(d, xs), v) == Rows(d, xs, d.nodeWires[v])
  {
    if |xs| > 0 {
      var x := xs[|xs| - 1];
      assert d.Known(x) && AllKnown(d, d.nodeWires[v]);
      OutgoingCount(d, xs[..|xs| - 1], v);
      if d.Placed(x) {
        RowsInRange(d, x);
        NodesCount(d, x, WiresAfter(d, x), v);
        MatchesAreRow(d, x, d.nodeWires[v]);
      } else {
        NothingUnplaced(d, x, d.nodeWires[v]);
      }
      CountAppend(Outgoing(d, xs[..|xs| - 1]), NodesOf(d, x.tile, WiresAfter(d, x)), v);
    }
  }

  lemma {:induction false} IncomingCount(d: Fabric, ys: seq<Wire>, u: nat)
    requires d.Valid() && d.OneNodePerWire() && AllKnown(d, ys) && u < |d.nodeWires|
    ensures Count(Incoming(d, ys), u) == Cols(d, d.nodeWires[u], ys)
  {
    if |ys| > 0 {
      var y := ys[|ys| - 1];
      assert d.Known(y) && AllKnown(d, d.nodeWires[u]);
      IncomingCount(d, ys[..|ys| - 1], u);
      if d.Placed(y) {
        RowsInRange(d, y);
        NodesCount(d, y, WiresBefore(d, y), u);
        MatchesAreCol(d, d.nodeWires[u], y);
      } else {
        NothingUnplaced(d, y, d.nodeWires[u]);
      }
      CountAppend(Incoming(d, ys[..|ys| - 1]), NodesOf(d, y.tile, WiresBefore(d, y)), u);
    }
  }

  /** Incoming adjacency is the transpose of outgoing adjacency, multiplicities included. */
  lemma AdjacencyTransposed(d: Fabric, u: nat, v: nat)
    requires d.Valid() && d.OneNodePerWire() && u < |d.nodeWires| && v < |d.nodeWires|
    ensures Count(Outgoing(d, d.nodeWires[u]), v) == Count(Incoming(d, d.nodeWires[v]), u)
  {
    assert AllKnown(d, d.nodeWires[u]) && AllKnown(d, d.nodeWires[v]);
    OutgoingCount(d, d.nodeWires[u], v);
    IncomingCount(d, d.nodeWires[v], u);
    RowsAreCols(d, d.nodeWires[u], d.nodeWires[v]);
  }

  // Lookup

  lemma {:induction false} RowPositive(d: Fabric, x: Wire, ys: seq<Wire>)
    ensures Row(d, x, ys) > 0 <==> exists k :: 0 <= k < |ys| && PipFrom(d, x, ys[k])
  {
    if |ys| > 0 {
      var front := ys[..|ys| - 1];
      RowPositive(d, x, front);
      if k :| 0 <= k < |front| && PipFrom(d, x, front[k]) { assert ys[k] == front[k]; }
      if k :| 0 <= k < |ys| && PipFrom(d, x, ys[k]) { assert k < |front| ==> front[k] == ys[k]; }
    }
  }

  /** A PIP leads from one of the wires xs to one of the wires ys. */
  predicate SomePip(d: Fabric, xs: seq<Wire>, ys: seq<Wire>) {
    exists j, k :: 0 <= j < |xs| && 0 <= k < |ys| && PipFrom(d, xs[j], ys[k])
  }

  lemma {:induction false} RowsPositive(d: Fabric, xs: seq<Wire>, ys: seq<Wire>)
    ensures Rows(d, xs, ys) > 0 <==> SomePip(d, xs, ys)
  {
    if |xs| > 0 {
      var front, last := xs[..|xs| - 1], |xs| - 1;
      RowsPositive(d, front, ys);
      RowPositive(d, xs[last], ys);
      if j, k :| 0 <= j < |front| && 0 <= k < |ys| && PipFrom(d, front[j], ys[k]) { assert PipFrom(d, xs[j], ys[k]); }
      if j, k :| 0 <= j < |xs| && 0 <= k < |ys| && PipFrom(d, xs[j], ys[k]) {
        assert j < last ==> PipFrom(d, front[j], ys[k]);
      }
      if k :| 0 <= k < |ys| && PipFrom(d, xs[last], ys[k]) { assert SomePip(d, xs, ys); }
    }
  }

  /** There is an edge exactly where a PIP leads from a wire of one node to a wire of the other. */
  lemma EdgeIsPip(d: Fabric, u: nat, v: nat)
    requires d.Valid() && d.OneNodePerWire() && u < |d.nodeWires| && v < |d.nodeWires|
    ensures v in Outgoing(d, d.nodeWires[u]) <==> SomePip(d, d.nodeWires[u], d.nodeWires[v])
  {
    assert AllKnown(d, d.nodeWires[u]);
    OutgoingCount(d, d.nodeWires[u], v);
    RowsPositive(d, d.nodeWires[u], d.nodeWires[v]);
    CountIn(Outgoing(d, d.nodeWires[u]), v);
  }

  /** The PIP leads from a wire of node0 to a wire of node1 in a tile they share. */
  ghost predicate JoinsNodes(d: Fabric, node0: nat, node1: nat, pip: Pip)
    requires node0 < |d.nodeWires| && node1 < |d.nodeWires|
  {
    exists x, y ::
      x in d.nodeWires[node0] && y in d.nodeWires[node1] && x.tile == y.tile && Joins(pip, x.index, y.index)
  }

  /**
   Find a PIP from node0 to node1. It succeeds exactly for the edges of the graph, and the
   PIP joins a wire of each node in a tile they share, in the right direction.
   */
  method GetTileTypePIP(d: Fabric, node0: nat, node1: nat) returns (found: bool, pip: Pip)
    requires d.Valid() && d.OneNodePerWire() && node0 < |d.nodeWires| && node1 < |d.nodeWires|
    ensures found <==> node1 in Outgoing(d, d.nodeWires[node0])
    ensures found ==> JoinsNodes(d, node0, node1, pip)
  {
    var xs, ys := d.nodeWires[node0], d.nodeWires[node1];
    EdgeIsPip(d, node0, node1);
    found := false;
    var w0, w1 := Wire(0, 0, 0), Wire(0, 0, 0);
    for k := 0 to |ys|
      invariant found <==> SomePip(d, xs, ys[..k])
      invariant found ==> w0 in xs && w1 in ys && PipFrom(d, w0, w1)
    {
      var here, x := FindStart(d, xs, ys[k]);
      SomePipStep(d, xs, ys, k);
      if here { found, w0, w1 := true, x, ys[k]; }
    }
    assert ys[..|ys|] == ys;
    pip := Pip(0, 0, true);
    if found {
      assert d.Known(w0) && d.Known(w1) && d.Placed(w0) && d.Placed(w1) && TablesOk(d.types[w1.tileType]);
      assert PairOk(d.types[w1.tileType], w0.index, w1.index);
      pip := d.types[w1.tileType].pips[d.types[w1.tileType].pairs[Ints2Long(w0.index, w1.index)]];
    }
  }

  lemma SomePipStep(d: Fabric, xs: seq<Wire>, ys: seq<Wire>, k: nat)
    requires k < |ys|
    ensures SomePip(d, xs, ys[..k + 1]) <==>
            SomePip(d, xs, ys[..k]) || exists j :: 0 <= j < |xs| && PipFrom(d, xs[j], ys[k])
  {
    var more, front := ys[..k + 1], ys[..k];
    if j, i :| 0 <= j < |xs| && 0 <= i < |front| && PipFrom(d, xs[j], front[i]) { assert PipFrom(d, xs[j], more[i]); }
    if j, i :| 0 <= j < |xs| && 0 <= i < |more| && PipFrom(d, xs[j], more[i]) {
      assert i < k ==> PipFrom(d, xs[j], front[i]);
    }
    if j :| 0 <= j < |xs| && PipFrom(d, xs[j], ys[k]) { assert PipFrom(d, xs[j], more[k]); }
  }

  /** The first of the wires xs, if any, from which a PIP leads to y. */
  method FindStart(d: Fabric, xs: seq<Wire>, y: Wire) returns (found: bool, x: Wire)
    requires y.tileType < |d.types|
    requires forall j :: 0 <= j < |xs| && xs[j].tile == y.tile ==> xs[j].tileType == y.tileType
    ensures found <==> exists j :: 0 <= j < |xs| && PipFrom(d, xs[j], y)
    ensures found ==> x in xs && PipFrom(d, x, y)
  {
    x := y;
    for j := 0 to |xs|
      invariant forall i :: 0 <= i < j ==> !PipFrom(d, xs[i], y)
    {
      if xs[j].tile == y.tile && Ints2Long(xs[j].index, y.index) in d.types[y.tileType].pairs {
        assert PipFrom(d, xs[j], y);
        return true, xs[j];
      }
    }
    found := false;
  }
}
