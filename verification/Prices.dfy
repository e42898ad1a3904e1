/**
 What a search charges for a node and how far it takes the sink to be (src/route/aStarRoute.cpp,
 lines 566-590 and 751-779), told without quotients: by the net's own use of the node, by the
 congestion there, and by the geometry of node, sink and net.
 */
module Prices {
  import opened RoutingGraph
  import opened Search
  import opened Ledger
  import opened Site

  function Distance(x: real, y: real): real { (if x < y then y - x else x - y) }

  /** How far node v ends from the centre of the net. */
  function FromCenter(site: Site, n: nat, v: nat): real
    requires v < |site.g| && n < |site.shapes|
  {
    Distance(site.g[v].endX as real, site.shapes[n].xCenter) + Distance(site.g[v].endY as real, site.shapes[n].yCenter)
  }

  /** How far node v ends from where the sink begins. */
  function FromSink(g: Graph, sink: nat, v: nat): real
    requires v < |g| && sink < |g|
  {
    Distance(g[v].endX as real, g[sink].beginX as real) + Distance(g[v].endY as real, g[sink].beginY as real)
  }

  /** Connections of the net times its half-perimeter figure. */
  function Spread(shape: NetShape): real { shape.connections as real * shape.doubleHpwl }

  /** The cost of node v that the assertion is about, times the shares of the net's users and its spread. */
  function Toll(site: Site, n: nat, v: nat, targeted: bool, shares: real, congestion: real): real
    requires v < |site.g| == |site.historical| && n < |site.shapes|
  {
    var base := site.g[v].baseCost;
    base * site.historical[v] * congestion * Spread(site.shapes[n]) +
    shares * (if targeted then 0.0 else base * FromCenter(site, n, v))
  }

  /** The assertions fail at v exactly for a negative count or a negative toll. */
  ghost predicate Warns(site: Site, c: nat, q: Query, v: nat, targeted: bool, count: int, congestion: real)
    requires c < |site.conns| && v < |site.g| == |site.historical| && site.conns[c].net < |site.shapes|
  {
    q.alarm(v, targeted) <==>
    count < 0 || Toll(site, site.conns[c].net, v, targeted, 1.0 + count as real, congestion) < 0.0
  }

  /** Entering v adds the toll and a fifth of its length, both shared by all users of the net. */
  ghost predicate Costs(site: Site, c: nat, q: Query, v: nat, targeted: bool, count: int, congestion: real)
    requires c < |site.conns| && v < |site.g| == |site.historical| && site.conns[c].net < |site.shapes|
  {
    var n, shares := site.conns[c].net, 1.0 + count as real;
    q.nodeCost(v, targeted) * shares * Spread(site.shapes[n]) ==
    Toll(site, n, v, targeted, shares, congestion) + 0.2 * site.g[v].length as real * Spread(site.shapes[n])
  }

  /** The estimate is four fifths of the distance to the sink, shared likewise. */
  ghost predicate Foresees(site: Site, c: nat, q: Query, v: nat, count: int)
    requires c < |site.conns| && v < |site.g| && site.conns[c].sink < |site.g|
  {
    q.estimate(v) * (1.0 + count as real) == 0.8 * FromSink(site.g, site.conns[c].sink, v)
  }

  /**
   The search of connection c charges for node v as for a net that uses it count times, under
   the given congestion.
   */
  ghost predicate Charges(site: Site, c: nat, q: Query, v: nat, targeted: bool, count: int, congestion: real)
    requires c < |site.conns| && v < |site.g| == |site.historical|
    requires site.conns[c].sink < |site.g| && site.conns[c].net < |site.shapes|
  {
    && Warns(site, c, q, v, targeted, count, congestion)
    && (count >= 0 ==> Costs(site, c, q, v, targeted, count, congestion) && Foresees(site, c, q, v, count))
  }

  lemma QuotientTimes(x: real, y: real)
    requires y != 0.0
    ensures x / y * y == x
  {
  }

  lemma SharedTimes(x: real, k: real, z: real)
    requires k != 0.0
    ensures x / k * k * z == x * z
  {
    QuotientTimes(x, k);
  }

  lemma BiasTimes(base: real, m: real, far: real, h: real)
    requires m > 0.0 && h > 0.0
    ensures base / m * far / h * (m * h) == base * far
  {
    QuotientTimes(base / m * far, h);
    QuotientTimes(base, m);
    var y := base / m * far / h;
    assert y * (m * h) == y * h * m;
    assert base / m * far * m == base / m * m * far;
  }

  lemma Spread3(x: real, y: real, z: real, k: real, s: real)
    ensures (x + y + z) * k * s == x * k * s + k * (y * s) + z * k * s
  {
    assert (x + y + z) * k == x * k + y * k + z * k;
    assert y * k * s == k * (y * s);
  }

  lemma SignOf(x: real, p: real)
    requires p > 0.0
    ensures x * p < 0.0 <==> x < 0.0
  {
    if x < 0.0 { assert x * p < 0.0; } else { assert x * p >= 0.0; }
  }

  lemma SpreadPositive(shape: NetShape)
    requires ShapeOk(shape)
    ensures Spread(shape) > 0.0
  {
  }

  lemma BiasTold(site: Site, n: nat, v: nat, targeted: bool)
    requires v < |site.g| && n < |site.shapes| && ShapeOk(site.shapes[n])
    ensures BiasOf(site, n, v, targeted) * Spread(site.shapes[n]) ==
            if targeted then 0.0 else site.g[v].baseCost * FromCenter(site, n, v)
  {
    var shape := site.shapes[n];
    if !targeted {
      BiasTimes(site.g[v].baseCost, shape.connections as real, FromCenter(site, n, v), shape.doubleHpwl);
    }
  }

  /** Node cost and step cost, cleared of quotients. */
  lemma CostTold(f: Cost.Figures, u: Cost.NetUse, factor: real, bias: real, spread: real)
    requires u.count >= 0 && spread > 0.0
    ensures var k, p := 1.0 + u.count as real, Cost.PresentPart(f, u, factor);
      && Cost.StepCost(f, u, factor, bias) * k * spread ==
         f.base * f.historical * p * spread + k * (bias * spread) + 0.2 * f.length as real * spread
      && (Cost.NodeCost(f, u, factor, bias) < 0.0 <==> f.base * f.historical * p * spread + k * (bias * spread) < 0.0)
  {
    var k, p := 1.0 + u.count as real, Cost.PresentPart(f, u, factor);
    var a, w := f.base * f.historical * p, 0.2 * f.length as real;
    SharedTimes(a, k, spread);
    SharedTimes(w, k, spread);
    Spread3(a / k, bias, w / k, k, spread);
    Spread3(a / k, bias, 0.0, k, spread);
    SignOf((a / k + bias) * k, spread);
    SignOf(a / k + bias, k);
  }

  lemma TollTold(site: Site, n: nat, b: Books, v: nat, targeted: bool, shares: real, congestion: real)
    requires Priceable(site, n, b, v)
    ensures var f, spread := FiguresOf(site, b, v), Spread(site.shapes[n]);
      Toll(site, n, v, targeted, shares, congestion) ==
      f.base * f.historical * congestion * spread + shares * (BiasOf(site, n, v, targeted) * spread)
  {
    BiasTold(site, n, v, targeted);
  }

  lemma AlarmTold(site: Site, c: nat, q: Query, b: Books, u: Cost.NetUse, factor: real, v: nat, targeted: bool,
                  congestion: real)
    requires c < |site.conns| && Priceable(site, site.conns[c].net, b, v)
    requires q.alarm(v, targeted) == Alarmed(site, site.conns[c].net, b, u, factor, v, targeted)
    requires congestion == Cost.PresentPart(FiguresOf(site, b, v), u, factor)
    ensures Warns(site, c, q, v, targeted, u.count, congestion)
  {
    var n := site.conns[c].net;
    if u.count >= 0 {
      var f, bias, spread := FiguresOf(site, b, v), BiasOf(site, n, v, targeted), Spread(site.shapes[n]);
      var toll := Toll(site, n, v, targeted, 1.0 + u.count as real, congestion);
      assert Cost.NodeCost(f, u, factor, bias) < 0.0 <==> toll < 0.0 by {
        SpreadPositive(site.shapes[n]);
        TollTold(site, n, b, v, targeted, 1.0 + u.count as real, congestion);
        CostTold(f, u, factor, bias, spread);
      }
    }
  }

  lemma EntryTold(site: Site, c: nat, q: Query, b: Books, u: Cost.NetUse, factor: real, v: nat, targeted: bool,
                  congestion: real)
    requires c < |site.conns| && Priceable(site, site.conns[c].net, b, v) && u.count >= 0
    requires q.nodeCost(v, targeted) == EntryCost(site, site.conns[c].net, b, u, factor, v, targeted)
    requires congestion == Cost.PresentPart(FiguresOf(site, b, v), u, factor)
    ensures Costs(site, c, q, v, targeted, u.count, congestion)
  {
    var n := site.conns[c].net;
    SpreadPositive(site.shapes[n]);
    TollTold(site, n, b, v, targeted, 1.0 + u.count as real, congestion);
    CostTold(FiguresOf(site, b, v), u, factor, BiasOf(site, n, v, targeted), Spread(site.shapes[n]));
  }

  lemma EstimateTold(site: Site, c: nat, q: Query, v: nat, count: int)
    requires c < |site.conns| && v < |site.g| && site.conns[c].sink < |site.g| && count >= 0
    requires q.estimate(v) == EstimateOf(site.g, count, site.conns[c].sink, v)
    ensures Foresees(site, c, q, v, count)
  {
    QuotientTimes(0.8 * FromSink(site.g, site.conns[c].sink, v), 1.0 + count as real);
  }

  /** The query takes its figures for node v from the books and the net's use of the node. */
  ghost predicate FiguredBy(site: Site, c: nat, q: Query, b: Books, u: Cost.NetUse, factor: real, v: nat,
                            targeted: bool)
    requires c < |site.conns|
  {
    && q.nodeCost(v, targeted) == EntryCost(site, site.conns[c].net, b, u, factor, v, targeted)
    && q.estimate(v) == EstimateOf(site.g, u.count, site.conns[c].sink, v)
    && q.alarm(v, targeted) == Alarmed(site, site.conns[c].net, b, u, factor, v, targeted)
  }

  /** Such a query charges by that use. */
  lemma UseCharges(site: Site, c: nat, q: Query, b: Books, u: Cost.NetUse, factor: real, v: nat, targeted: bool,
                   congestion: real)
    requires site.Valid() && c < |site.conns| && v < |site.g| && Sized(b, |site.g|)
    requires FiguredBy(site, c, q, b, u, factor, v, targeted)
    requires congestion == Cost.PresentPart(FiguresOf(site, b, v), u, factor)
    ensures Charges(site, c, q, v, targeted, u.count, congestion)
  {
    AlarmTold(site, c, q, b, u, factor, v, targeted, congestion);
    if u.count >= 0 {
      EntryTold(site, c, q, b, u, factor, v, targeted, congestion);
      EstimateTold(site, c, q, v, u.count);
    }
  }
}
