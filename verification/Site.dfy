/**
 What a search is given by the router: graph, connections, boxes and cost figures, the costs
 and assertions of aStarRoute::getNodeCost (src/route/aStarRoute.cpp, lines 566-590 and
 751-779), and what the router may expect of the answer.
 */
module Site {
  import opened Geometry
  import opened RoutingGraph
  import opened Search
  import opened Ledger
  import opened Congestion
  import opened Convergence
  import opened Exclusive
  import opened OccChange
  import Cost

  /** Which nodes are of type PINFEED_I. */
  function Pinfeeds(g: Graph): (p: seq<bool>)
    ensures |p| == |g| && forall v :: 0 <= v < |g| ==> p[v] == g[v].kind.PINFEED_I?
  {
    seq(|g|, v requires 0 <= v < |g| => g[v].kind.PINFEED_I?)
  }

  /** Number of connections, centre and half-perimeter figure of a net. */
  datatype NetShape = NetShape(connections: nat, xCenter: real, yCenter: real, doubleHpwl: real)

  /** What does not change during an iteration. */
  datatype Site = Site(
    g: Graph, conns: seq<Conn>, boxes: seq<Box>, nets: nat, shapes: seq<NetShape>, historical: seq<real>,
    connectionIdBase: nat)
  {
    function D(): Design { Design(conns, nets, |g|, Pinfeeds(g)) }

    function Uid(c: nat): nat { c + connectionIdBase }

    function Term(c: nat): Terminal
      requires c < |conns| == |boxes|
    {
      Terminal(conns[c].source, conns[c].sink, boxes[c])
    }

    ghost predicate Valid() {
      && WellFormed(g) && ValidDesign(D()) && |boxes| == |conns| && |shapes| == nets && |historical| == |g|
      && (forall c :: 0 <= c < |conns| ==> conns[c].source != conns[c].sink)
      && (forall c :: 0 <= c < |conns| ==> ShapeOk(shapes[conns[c].net]))
    }
  }

  predicate ShapeOk(shape: NetShape) { shape.connections > 0 && shape.doubleHpwl > 0.0 }

  function FiguresOf(site: Site, b: Books, v: nat): Cost.Figures
    requires v < |site.g| == |site.historical| == |b.occ| == |b.present|
  {
    Cost.Figures(site.g[v].baseCost, site.historical[v], b.present[v], b.occ[v], site.g[v].length)
  }

  function BiasOf(site: Site, n: nat, v: nat, targeted: bool): real
    requires v < |site.g| && n < |site.shapes| && ShapeOk(site.shapes[n])
  {
    var shape := site.shapes[n];
    if targeted then 0.0
    else
      Cost.BiasCost(site.g[v].baseCost, shape.connections, site.g[v].endX as real - shape.xCenter,
                    site.g[v].endY as real - shape.yCenter, shape.doubleHpwl)
  }

  /** The figures of node v and net n are at hand. */
  predicate Priceable(site: Site, n: nat, b: Books, v: nat) {
    v < |site.g| == |site.historical| == |b.occ| == |b.present| && n < |site.shapes| && ShapeOk(site.shapes[n])
  }

  /** One of the two assertions about a child fails: a negative count, or a negative node cost. */
  predicate Alarmed(site: Site, n: nat, b: Books, u: Cost.NetUse, factor: real, v: nat, targeted: bool) {
    && Priceable(site, n, b, v)
    && (u.count < 0 || Cost.NodeCost(FiguresOf(site, b, v), u, factor, BiasOf(site, n, v, targeted)) < 0.0)
  }

  /** What the search adds for entering node v, for a net that uses it so often. */
  function EntryCost(site: Site, n: nat, b: Books, u: Cost.NetUse, factor: real, v: nat, targeted: bool): real {
    if Priceable(site, n, b, v) && u.count >= 0 then
      Cost.StepCost(FiguresOf(site, b, v), u, factor, BiasOf(site, n, v, targeted))
    else 0.0
  }

  function EstimateOf(g: Graph, count: int, sink: nat, v: nat): real {
    if v < |g| && sink < |g| && count >= 0 then
      0.8 * (Cost.Abs((g[v].endX - g[sink].beginX) as real) + Cost.Abs((g[v].endY - g[sink].beginY) as real))
      / Cost.SharingFactor(count)
    else 0.0
  }

  /** The search of connection c in the books b, with the net's use of each node. */
  function MakeQuery(site: Site, c: nat, b: Books, factor: real, use: nat -> Cost.NetUse): (q: Query)
    requires c < |site.conns| == |site.boxes|
    ensures q.g == site.g && q.c == site.Term(c) && q.uid == site.Uid(c) && q.counts == b.users
    ensures forall v: nat, targeted ::
              q.alarm(v, targeted) == Alarmed(site, site.conns[c].net, b, use(v), factor, v, targeted)
  {
    var n, sink := site.conns[c].net, site.conns[c].sink;
    Query(site.g, site.Term(c), site.Uid(c), b.users,
          (v: nat, targeted: bool) => EntryCost(site, n, b, use(v), factor, v, targeted),
          (v: nat) => EstimateOf(site.g, use(v).count, sink, v),
          (v: nat, targeted: bool) => Alarmed(site, n, b, use(v), factor, v, targeted))
  }

  /** Without synchronisation the counts are those of the books. */
  function UseOf(b: Books, v: nat): Cost.NetUse { Cost.NetUse(Cnt(b.users, v), Cnt(b.users, v), 0) }

  function BooksQuery(site: Site, c: nat, b: Books, factor: real): (q: Query)
    requires c < |site.conns| == |site.boxes|
    ensures q.g == site.g && q.c == site.Term(c) && q.uid == site.Uid(c) && q.counts == b.users
    ensures forall v: nat, targeted ::
              q.alarm(v, targeted) == Alarmed(site, site.conns[c].net, b, UseOf(b, v), factor, v, targeted)
  {
    MakeQuery(site, c, b, factor, (v: nat) => UseOf(b, v))
  }

  /** The search of connection c in state s. */
  function PlainQuery(site: Site, s: State, c: nat): (q: Query)
    requires Shaped(site.D(), s) && c < |site.conns| == |site.boxes|
    ensures q.g == site.g && q.c == site.Term(c) && q.uid == site.Uid(c) && q.counts == s.users[site.conns[c].net]
  {
    BooksQuery(site, c, BooksOf(s, site.conns[c].net), s.factor)
  }

  /** Two states with the same net table and the same figures of v pose the same search as far as v goes. */
  lemma SameFigures(site: Site, s: State, s': State, c: nat, v: nat)
    requires Shaped(site.D(), s) && Shaped(site.D(), s') && c < |site.conns| == |site.boxes| && v < |site.g|
    requires s.factor == s'.factor
    requires s.users[site.conns[c].net] == s'.users[site.conns[c].net] && s.occ[v] == s'.occ[v]
    requires s.present[v] == s'.present[v]
    ensures var q, q' := PlainQuery(site, s, c), PlainQuery(site, s', c);
            && q.estimate(v) == q'.estimate(v)
            && (forall targeted :: q.nodeCost(v, targeted) == q'.nodeCost(v, targeted))
            && (forall targeted :: q.alarm(v, targeted) == q'.alarm(v, targeted))
  {
    var n := site.conns[c].net;
    var b, b' := BooksOf(s, n), BooksOf(s', n);
    assert UseOf(b, v) == UseOf(b', v);
    forall targeted: bool
      ensures EntryCost(site, n, b, UseOf(b, v), s.factor, v, targeted) ==
              EntryCost(site, n, b', UseOf(b', v), s.factor, v, targeted)
      ensures Alarmed(site, n, b, UseOf(b, v), s.factor, v, targeted) ==
              Alarmed(site, n, b', UseOf(b', v), s.factor, v, targeted)
    {
      if |site.historical| == |site.g| { assert FiguresOf(site, b, v) == FiguresOf(site, b', v); }
    }
  }

  /** The net's use of a node as a search inside a batch reckons it. */
  function SyncUse(users: Users, inc: Users, dec: Users, changes: seq<Change>, batch: int, v: nat): Cost.NetUse {
    Cost.NetUse(Cnt(users, v) - Cnt(dec, v) + Cnt(inc, v), Cnt(users, v),
                if v < |changes| then Get(changes[v], batch) else 0)
  }

  function SyncBooksQuery(site: Site, c: nat, b: Books, factor: real, inc: Users, dec: Users, changes: seq<Change>,
                          batch: int): (q: Query)
    requires c < |site.conns| == |site.boxes|
    ensures q.g == site.g && q.c == site.Term(c) && q.uid == site.Uid(c) && q.counts == b.users
    ensures forall v: nat, targeted ::
              q.alarm(v, targeted) ==
              Alarmed(site, site.conns[c].net, b, SyncUse(b.users, inc, dec, changes, batch, v), factor, v, targeted)
  {
    MakeQuery(site, c, b, factor, (v: nat) => SyncUse(b.users, inc, dec, changes, batch, v))
  }

  /** The search of connection c inside a batch that started in state s. */
  function SyncQuery(site: Site, s: State, c: nat, inc: Users, dec: Users, changes: seq<Change>, batch: int): (q: Query)
    requires Shaped(site.D(), s) && c < |site.conns| == |site.boxes|
    ensures q.g == site.g && q.c == site.Term(c) && q.uid == site.Uid(c) && q.counts == s.users[site.conns[c].net]
  {
    SyncBooksQuery(site, c, BooksOf(s, site.conns[c].net), s.factor, inc, dec, changes, batch)
  }

  // Answers

  /**
   What the router may expect of a search: it ends as Concluded says, and with an unused stamp
   its path keeps to the pins that its net may enter.
   */
  ghost predicate Answers(site: Site, q: Query, c: nat, table: seq<NodeInfo>, outcome: Outcome, path: seq<nat>)
    requires ValidDesign(site.D()) && c < |site.conns| && |table| == |q.g| && q.c.sink < |q.g|
  {
    && Concluded(q, table, outcome, path) && InNodes(path, |q.g|) && (outcome.Found? <==> path != [])
    && (Fresh(q, table) ==> RespectsPins(site.D(), q.counts, c, path))
  }

  lemma ConcludedAnswers(site: Site, q: Query, c: nat, table: seq<NodeInfo>, outcome: Outcome, path: seq<nat>)
    requires site.Valid() && c < |site.conns| && q.g == site.g && q.c == site.Term(c) && |table| == |q.g|
    requires Concluded(q, table, outcome, path)
    ensures Answers(site, q, c, table, outcome, path)
  {
    if Fresh(q, table) && outcome.Found? { FoundPathRespectsPins(q, table, site.D(), c, path); }
  }

  /** A path found with an unused stamp enters a PINFEED_I node only if the net counts it already. */
  lemma FoundPathRespectsPins(q: Query, table: seq<NodeInfo>, d: Design, c: nat, path: seq<nat>)
    requires ValidDesign(d) && c < |d.conns| && d.nodes == |q.g| && d.pinfeed == Pinfeeds(q.g)
    requires |table| == |q.g| && q.c.source == d.conns[c].source && q.c.sink == d.conns[c].sink
    requires Fresh(q, table) && SinkToSource(q, table, path)
    ensures RespectsPins(d, q.counts, c, path)
  {
    forall v | v in path
      ensures v < d.nodes && (v == d.conns[c].source || v == d.conns[c].sink || !d.pinfeed[v] || v in q.counts)
    {
      var i :| 0 <= i < |path| && path[i] == v;
      if 1 <= i < |path| - 1 { assert Enterable(q, table, path[i]); }
    }
  }

  // The assertions

  /** Base and historical costs and the factor are not negative. */
  predicate CostsOk(site: Site, factor: real) {
    && factor >= 0.0 && (forall v :: 0 <= v < |site.g| ==> site.g[v].baseCost >= 0.0)
    && (forall v :: 0 <= v < |site.historical| ==> site.historical[v] >= 0.0)
  }

  lemma BiasIsFine(site: Site, n: nat, v: nat, targeted: bool)
    requires v < |site.g| && n < |site.shapes| && ShapeOk(site.shapes[n]) && site.g[v].baseCost >= 0.0
    ensures BiasOf(site, n, v, targeted) >= 0.0
  {
    var shape := site.shapes[n];
    Cost.BiasNonNegative(site.g[v].baseCost, shape.connections, site.g[v].endX as real - shape.xCenter,
                         site.g[v].endY as real - shape.yCenter, shape.doubleHpwl);
  }

  /** Neither assertion fails where the count is not negative and the occupancy leaves room for the net. */
  lemma NoAlarm(site: Site, n: nat, b: Books, u: Cost.NetUse, factor: real, v: nat, targeted: bool)
    requires Priceable(site, n, b, v) && CostsOk(site, factor) && u.count >= 0 && b.present[v] >= 0.0
    requires u.count != 0 ==> Cost.OverOccupancy(FiguresOf(site, b, v), u) >= 0
    ensures !Alarmed(site, n, b, u, factor, v, targeted)
  {
    BiasIsFine(site, n, v, targeted);
    Cost.NodeCostNonNegative(FiguresOf(site, b, v), u, factor, BiasOf(site, n, v, targeted));
  }

  /** Where the books are tallied, neither assertion of getNodeCost can fail. */
  lemma TalliedNoAlarm(site: Site, s: State, n: nat, v: nat, targeted: bool)
    requires site.Valid() && Shaped(site.D(), s) && n < site.nets && v < |site.g| && TalliedAt(site.D(), s, v)
    requires CostsOk(site, s.factor)
    ensures !Alarmed(site, n, BooksOf(s, n), UseOf(BooksOf(s, n), v), s.factor, v, targeted)
  {
    var u := UseOf(BooksOf(s, n), v);
    if Priceable(site, n, BooksOf(s, n), v) {
      assert PositiveAt(s.users[n], v);
      if u.count != 0 { OneUsingNet(s.users, v, n); }
      if s.occ[v] >= 1 { Cost.ProductNonNegative(s.occ[v] as real, s.factor); }
      NoAlarm(site, n, BooksOf(s, n), u, s.factor, v, targeted);
    }
  }
}
