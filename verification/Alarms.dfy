/**
 When the assertions inside the search stop the program (src/route/aStarRoute.cpp, lines 576,
 655 and 756): only at nodes that have lost a reservation, and for the count exactly when the
 net's other connections use the node less often than reservations were lost there.
 */
module Alarms {
  import opened Geometry
  import opened RoutingGraph
  import opened Search
  import opened Ledger
  import opened Congestion
  import opened Exclusive
  import opened Site

  /** What a search of connection c sees of its own net's counts. */
  lemma RippedCount(d: Design, s: State, c: nat, v: nat)
    requires CountLaw(d, s) && c < |d.conns|
    ensures var n := d.conns[c].net;
            Cnt(RipUp(d, s, c).users[n], v) == Uses(d, s, n, v) - Load(d, s, c, v) - LostBy(d, s, n, v)
  {
    DecAllCounts(BooksOf(s, d.conns[c].net), Held(d, s, c), s.factor, v);
  }

  /**
   The assertion on the count fails at child v if and only if the other connections of the net
   use v less often than failed searches have lost it.
   */
  lemma CountAssertionExactly(site: Site, s: State, c: nat, v: nat)
    requires site.Valid() && CountLaw(site.D(), s) && c < |site.conns|
    ensures var d, n, r := site.D(), site.conns[c].net, RipUp(site.D(), s, c);
            UseOf(BooksOf(r, n), v).count < 0 <==> Uses(d, s, n, v) - Load(d, s, c, v) < LostBy(d, s, n, v)
  {
    RippedCount(site.D(), s, c, v);
  }

  /** Where no search has failed, neither assertion can fail. */
  lemma NoLossNoAlarm(site: Site, s: State, c: nat, v: nat, targeted: bool)
    requires site.Valid() && Sound(site.D(), s) && c < |site.conns| && v < |site.g| && NoLossAt(site.D(), s, v)
    requires CostsOk(site, s.factor)
    ensures !PlainQuery(site, RipUp(site.D(), s, c), c).alarm(v, targeted)
  {
    assert TalliedAt(site.D(), s, v);
    HeldIsCounted(site.D(), s, c, v);
    RipUpKeepsTally(site.D(), s, c, v);
    TalliedNoAlarm(site, RipUp(site.D(), s, c), site.conns[c].net, v, targeted);
  }

  /** From exact books, with a fresh stamp, the program stops only at a source pin or a super long line. */
  lemma ExactStops(site: Site, s: State, c: nat, table: seq<NodeInfo>, v: nat)
    requires site.Valid() && Exact(site.D(), s) && c < |site.conns| && CostsOk(site, s.factor) && |table| == |site.g|
    requires var q := PlainQuery(site, RipUp(site.D(), s, c), c); Fresh(q, table) && Stops(q, table, v)
    ensures site.g[v].kind in {PINFEED_O, SUPER_LONG_LINE}
  {
    var q := PlainQuery(site, RipUp(site.D(), s, c), c);
    FreshStops(q, table, v);
    NoLossNoAlarm(site, s, c, v, false);
  }

  /** The graph has a node that must not be met as a child, or some search has failed. */
  ghost predicate MayStop(g: Graph, s: State) {
    || (exists v :: 0 <= v < |g| && g[v].kind in {PINFEED_O, SUPER_LONG_LINE})
    || exists c :: 0 <= c < |s.fails| && s.fails[c] > 0
  }

  /** Nothing else stops a search with an unused stamp. */
  lemma StopCause(site: Site, s: State, c: nat, table: seq<NodeInfo>)
    requires site.Valid() && Sound(site.D(), s) && c < |site.conns| && CostsOk(site, s.factor) && |table| == |site.g|
    requires var q := PlainQuery(site, RipUp(site.D(), s, c), c); Fresh(q, table) && StopInReach(q, table)
    ensures MayStop(site.g, RipUp(site.D(), s, c))
  {
    var q := PlainQuery(site, RipUp(site.D(), s, c), c);
    var p, v: nat :| Arrives(q, table, p) && Edge(q.g, p[|p| - 1], v) && Stops(q, table, v);
    if forall e :: 0 <= e < |s.fails| ==> s.fails[e] == 0 { ExactStops(site, s, c, table, v); }
  }

  /** A negative count stops the search that looks at it. */
  lemma NegativeCountAlarms(site: Site, s: State, c: nat, v: nat, targeted: bool)
    requires site.Valid() && Shaped(site.D(), s) && c < |site.conns| && v < |site.g|
    requires Cnt(s.users[site.conns[c].net], v) < 0
    ensures PlainQuery(site, s, c).alarm(v, targeted)
  {
    assert ShapeOk(site.shapes[site.conns[c].net]);
  }

  // A run that stops

  /** One net with two sinks; the way to the second leads through the first, by a wire that only the second may use. */
  function TwoSinks(): Site {
    var box := Box(Interval(-1, 1), Interval(-1, 1));
    var node := (kind, x: int, marked, bounce, children) =>
      Node(kind, x, 0, 0, 0, marked, bounce, 0.0, 1, children, []);
    Site([node(PINFEED_O, 0, false, false, [3]), node(PINFEED_I, 0, false, true, [2]),
          node(PINFEED_I, 5, false, false, []), node(WIRE, 5, true, false, [1])],
         [Conn(0, 0, 1), Conn(0, 0, 2)], [box, box], 1, [NetShape(2, 0.0, 0.0, 1.0)], [1.0, 1.0, 1.0, 1.0], 0)
  }

  /** This site, with the historical costs and the first stamp of any iteration. */
  ghost predicate IsTwoSinks(site: Site) {
    && |site.historical| == 4 && (forall v :: 0 <= v < 4 ==> site.historical[v] >= 0.0)
    && site == TwoSinks().(historical := site.historical, connectionIdBase := site.connectionIdBase)
  }

  lemma TwoSinksValid(site: Site)
    requires IsTwoSinks(site)
    ensures site.Valid() && ValidDesign(site.D()) && site.D() == TwoSinks().D()
    ensures forall factor :: factor >= 0.0 ==> CostsOk(site, factor)
  {
  }

  lemma ChildrenOfTwo()
    ensures var g := TwoSinks().g;
            g[0].Children() == [3] && g[1].Children() == [2] && g[2].Children() == [] && g[3].Children() == [1]
  {
  }

  /** The only walk there is. */
  lemma {:induction false} OnlyWalk(q: Query, table: seq<NodeInfo>, p: seq<nat>, i: nat)
    requires q.g == TwoSinks().g && q.c.source == 0 && q.c.sink < 4 && |table| == 4 && Walk(q, table, p) && i < |p|
    ensures i < 4 && p[i] == [0, 3, 1, 2][i]
  {
    ChildrenOfTwo();
    if i > 0 {
      OnlyWalk(q, table, p, i - 1);
      assert Edge(q.g, p[i - 1], p[i - 1 + 1]);
    }
  }

  /** The wire is closed to the first connection and open to the second. */
  lemma WireVerdict(q: Query)
    requires q.g == TwoSinks().g
    ensures q.c == TwoSinks().Term(0) ==> JudgeIn(q, false, 3) == Skip
    ensures q.c == TwoSinks().Term(1) && !q.alarm(3, false) ==> JudgeIn(q, false, 3) == Enter
    ensures q.c == TwoSinks().Term(1) && Cnt(q.counts, 1) == 0 ==> JudgeIn(q, false, 1) == Skip
    ensures q.c == TwoSinks().Term(1) && Cnt(q.counts, 1) != 0 && q.alarm(1, false) ==> JudgeIn(q, false, 1) == Stop
  {
  }

  /** If the first node of the only walk is neither entered nor stopped at, the search ends there. */
  lemma ShutIn(q: Query, table: seq<NodeInfo>)
    requires q.g == TwoSinks().g && q.c.source == 0 && q.c.sink in {1, 2} && |table| == 4
    requires !Enterable(q, table, 3) && !Stops(q, table, 3)
    ensures !Reachable(q, table) && !StopInReach(q, table)
  {
    forall p | Walk(q, table, p) ensures p[|p| - 1] != q.c.sink {
      OnlyWalk(q, table, p, |p| - 1);
      if |p| > 2 { OnlyWalk(q, table, p, 1); }
    }
    forall p, v: nat | Arrives(q, table, p) && Edge(q.g, p[|p| - 1], v) ensures !Stops(q, table, v) {
      OnlyWalk(q, table, p, |p| - 1);
      if |p| > 1 { OnlyWalk(q, table, p, 1); }
    }
  }

  /** If the wire can be entered, all depends on the pin behind it. */
  lemma OverWire(q: Query, table: seq<NodeInfo>)
    requires q.g == TwoSinks().g && q.c.source == 0 && q.c.sink == 2 && |table| == 4
    requires Enterable(q, table, 3) && !Enterable(q, table, 1)
    ensures !Reachable(q, table) && (StopInReach(q, table) <==> Stops(q, table, 1))
  {
    ChildrenOfTwo();
    forall p | Walk(q, table, p) ensures p[|p| - 1] != q.c.sink {
      OnlyWalk(q, table, p, |p| - 1);
      if |p| > 3 { OnlyWalk(q, table, p, 2); }
    }
    forall p, v: nat | Arrives(q, table, p) && Edge(q.g, p[|p| - 1], v) && Stops(q, table, v) ensures v == 1 {
      OnlyWalk(q, table, p, |p| - 1);
      if |p| > 2 { OnlyWalk(q, table, p, 2); }
    }
    var way: seq<nat> := [0, 3];
    assert Edge(q.g, way[0], way[1]) && Edge(q.g, 3, 1);
    assert Walk(q, table, way);
    assert Arrives(q, table, way);
  }

  /** A failed search of a connection without a path takes its sink's reservation once more. */
  lemma FailedCount(d: Design, s: State, c: nat, v: nat)
    requires Sound(d, s) && c < |d.conns| && s.paths[c] == []
    ensures var n, r := d.conns[c].net, Reroute(d, s, c, []);
            && Sound(d, r) && r.paths == s.paths && r.factor == s.factor
            && Cnt(r.users[n], v) == Cnt(s.users[n], v) - (if d.conns[c].sink == v then 1 else 0)
  {
    RerouteCount(d, s, c, [], v);
    PendingLoad(d, s, c, v);
    RerouteKeepsSound(d, s, c, []);
  }

  /** The search of connection c in state s. */
  function AttemptOf(site: Site, s: State, c: nat): Query
    requires IsTwoSinks(site) && Shaped(site.D(), s) && c < 2
  {
    PlainQuery(site, RipUp(site.D(), s, c), c)
  }

  /** However the search breaks its ties, it ends with this outcome. */
  ghost predicate EndsAs(q: Query, table: seq<NodeInfo>, outcome: Outcome)
    requires |table| == |q.g| && q.c.sink < |q.g|
  {
    forall o, path :: Concluded(q, table, o, path) ==> o == outcome
  }

  ghost predicate PinQuery(q: Query, count: int) {
    && q.g == TwoSinks().g && q.c == TwoSinks().Term(1)
    && Cnt(q.counts, 1) == count && !q.alarm(3, false) && (count < 0 ==> q.alarm(1, false))
  }

  lemma PinDecides(q: Query, table: seq<NodeInfo>, count: int)
    requires PinQuery(q, count) && |table| == 4 && Fresh(q, table) && count <= 0
    ensures EndsAs(q, table, if count < 0 then Stopped else NotFound)
  {
    WireVerdict(q);
    OverWire(q, table);
  }

  /** No path is stored, and net 0 counts the first sink so often. */
  ghost predicate Bare(site: Site, s: State, count: int) {
    && IsTwoSinks(site) && Sound(site.D(), s) && s.paths == [[], []] && Cnt(s.users[0], 1) == count
    && s.factor >= 0.0
  }

  lemma BareStart(site: Site, factor: real)
    requires IsTwoSinks(site) && factor >= 0.0
    ensures Bare(site, Reserved(site.D(), factor, |site.conns|), 1)
  {
    TwoSinksValid(site);
    var d := site.D();
    var s := Reserved(d, factor, 2);
    ReservedIsExact(d, factor);
    ReservedCounts(d, factor, 2, 0, 1);
    PendingLoad(d, s, 0, 1);
    PendingLoad(d, s, 1, 1);
    assert LoadSum(d, s, 0, 1, 1) == 1;
  }

  /** Each failed search of the first connection takes its sink's reservation once more. */
  lemma BareNext(site: Site, s: State, c: nat, count: int)
    requires Bare(site, s, count) && c < 2
    ensures Bare(site, Reroute(site.D(), s, c, []), if c == 0 then count - 1 else count)
  {
    TwoSinksValid(site);
    FailedCount(site.D(), s, c, 1);
  }

  lemma BareSeen(site: Site, s: State, count: int)
    requires Bare(site, s, count)
    ensures Cnt(RipUp(site.D(), s, 1).users[0], 1) == count
  {
    TwoSinksValid(site);
    DecAllCounts(BooksOf(s, 0), Held(site.D(), s, 1), s.factor, 1);
    PendingLoad(site.D(), s, 1, 1);
  }

  /** The wire carries no reservation, so that no assertion fails there. */
  lemma WireIsQuiet(site: Site, s: State, count: int)
    requires Bare(site, s, count)
    ensures !AttemptOf(site, s, 1).alarm(3, false)
  {
    TwoSinksValid(site);
    NoLossNoAlarm(site, s, 1, 3, false);
  }

  lemma PinSeen(site: Site, s: State, count: int)
    requires Bare(site, s, count)
    ensures Cnt(AttemptOf(site, s, 1).counts, 1) == count
    ensures count < 0 ==> AttemptOf(site, s, 1).alarm(1, false)
  {
    TwoSinksValid(site);
    BareSeen(site, s, count);
    if count < 0 { NegativeCountAlarms(site, RipUp(site.D(), s, 1), 1, 1, false); }
  }

  /** The search of the first connection finds nothing. */
  lemma FirstFails(site: Site, s: State, count: int, table: seq<NodeInfo>)
    requires Bare(site, s, count) && |table| == 4
    requires Fresh(AttemptOf(site, s, 0), table)
    ensures EndsAs(AttemptOf(site, s, 0), table, NotFound)
  {
    var q := AttemptOf(site, s, 0);
    WireVerdict(q);
    ShutIn(q, table);
  }

  lemma SeenQuery(site: Site, s: State, count: int, q: Query)
    requires Bare(site, s, count) && q == AttemptOf(site, s, 1)
    ensures PinQuery(q, count)
  {
    WireIsQuiet(site, s, count);
    PinSeen(site, s, count);
  }

  /** The search of the second finds nothing while the pin is not counted, and stops when its count is negative. */
  lemma SecondDepends(site: Site, s: State, count: int, q: Query, table: seq<NodeInfo>)
    requires Bare(site, s, count) && count <= 0 && q == AttemptOf(site, s, 1) && |table| == 4 && Fresh(q, table)
    ensures EndsAs(q, table, if count < 0 then Stopped else NotFound)
  {
    SeenQuery(site, s, count, q);
    PinDecides(q, table, count);
  }

  /** The factor update between two iterations changes no count, and the next iteration has its own costs and stamps. */
  lemma BareUpdate(site: Site, next: Site, s: State, count: int, factor: real)
    requires Bare(site, s, count) && IsTwoSinks(next) && factor >= 0.0
    ensures next.D() == site.D() && Bare(next, NewFactor(site.D(), s, factor), count)
  {
    TwoSinksValid(site);
    TwoSinksValid(next);
    NewFactorKeepsSound(site.D(), s, factor);
  }

  /**
   Two iterations in which all searches before the last one fail: states at their visits,
   and the factor update between.
   */
  ghost predicate TwoIterations(sites: seq<Site>, factors: seq<real>, s: seq<State>) {
    && |sites| == |factors| == 2 && |s| == 4 && (forall k :: 0 <= k < 2 ==> IsTwoSinks(sites[k]) && factors[k] >= 0.0)
    && var d := sites[0].D();
    && ValidDesign(d) && (forall k :: 0 <= k < 4 ==> Shaped(d, s[k])) && s[0] == Reserved(d, factors[0], |d.conns|)
    && s[1] == Reroute(d, s[0], 0, []) && s[2] == NewFactor(d, Reroute(d, s[1], 1, []), factors[1])
    && s[3] == Reroute(d, s[2], 0, [])
  }

  lemma AllBare(sites: seq<Site>, factors: seq<real>, s: seq<State>)
    requires TwoIterations(sites, factors, s)
    ensures Bare(sites[0], s[0], 1) && Bare(sites[0], s[1], 0) && Bare(sites[1], s[2], 0) && Bare(sites[1], s[3], -1)
  {
    BareStart(sites[0], factors[0]);
    BareNext(sites[0], s[0], 0, 1);
    BareNext(sites[0], s[1], 1, 0);
    BareUpdate(sites[0], sites[1], Reroute(sites[0].D(), s[1], 1, []), 0, factors[1]);
    BareNext(sites[1], s[2], 0, 0);
  }

  /**
   A run that stops at a lost pin. In the first iteration both searches fail: the first
   connection's wire is closed to it, and the second connection loses its way with the first
   one's reservation. After the factor update, when the first connection has failed again, the
   count is -1, the pin is open again, and the search of the second connection stops there.
   */
  lemma LostPinStops(sites: seq<Site>, factors: seq<real>, s: seq<State>, tables: seq<seq<NodeInfo>>)
    requires TwoIterations(sites, factors, s) && |tables| == 4
    requires forall k :: 0 <= k < 4 ==>
               && |tables[k]| == 4 && Shaped(sites[k / 2].D(), s[k])
               && Fresh(AttemptOf(sites[k / 2], s[k], k % 2), tables[k])
    ensures EndsAs(AttemptOf(sites[0], s[0], 0), tables[0], NotFound)
    ensures EndsAs(AttemptOf(sites[0], s[1], 1), tables[1], NotFound)
    ensures EndsAs(AttemptOf(sites[1], s[2], 0), tables[2], NotFound)
    ensures EndsAs(AttemptOf(sites[1], s[3], 1), tables[3], Stopped)
  {
    AllBare(sites, factors, s);
    FirstFails(sites[0], s[0], 1, tables[0]);
    SecondDepends(sites[0], s[1], 0, AttemptOf(sites[0], s[1], 1), tables[1]);
    FirstFails(sites[1], s[2], 0, tables[2]);
    SecondDepends(sites[1], s[3], -1, AttemptOf(sites[1], s[3], 1), tables[3]);
  }
}
