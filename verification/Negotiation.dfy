/**
 The router object and its state-changing operations (src/route/aStarRoute.cpp): each is
 proved against the state machine of module Congestion, and the search is the one of
 module Search.
 */
module Negotiation {
  import opened Geometry
  import opened Counting
  import opened RoutingGraph
  import opened Search
  import opened Ledger
  import opened Congestion
  import opened Convergence
  import opened Exclusive
  import opened Site
  import opened Answered
  import opened Alarms
  import opened Stamps
  import opened StampAccount
  import opened IterationLog
  import opened FactorUpdate
  import opened Strided

  /** The state after a search of connection c in state s. */
  function AfterSearch(d: Design, s: State, c: nat, outcome: Outcome, path: seq<nat>): (r: State)
    requires Shaped(d, s) && c < |d.conns| && InNodes(path, d.nodes)
    ensures Shaped(d, r)
  {
    match outcome
    case Found => Commit(d, s, c, path)
    case NotFound => s.(fails := s.fails[c := s.fails[c] + 1])
    case Stopped => s
  }

  lemma RipUpAndSearch(d: Design, s: State, c: nat, outcome: Outcome, path: seq<nat>)
    requires Shaped(d, s) && c < |d.conns| && InNodes(path, d.nodes) && (outcome.Found? <==> path != [])
    ensures AfterSearch(d, RipUp(d, s, c), c, outcome, path) ==
            if outcome.Stopped? then RipUp(d, s, c) else Reroute(d, s, c, path)
  {
  }

  /** Owners and presence of paths do not depend on the costs. */
  lemma UpdateLeaves(d: Design, s: State, t: State)
    requires Shaped(d, s) && Shaped(d, t) && t.users == s.users && t.paths == s.paths
    ensures (SinksOwned(d, s) ==> SinksOwned(d, t)) && (AllPathsPresent(d, s) ==> AllPathsPresent(d, t))
  {
  }

  class Router {
    const g: Graph
    const conns: seq<Conn>
    const boxes: seq<Box>
    const nets: nat
    const shapes: seq<NetShape>

    var users: seq<Users>
    var occ: seq<int>
    var present: seq<real>
    var historical: seq<real>
    var factor: real
    var multiplier: real
    var historicalFactor: real
    var congested: bool
    var paths: seq<seq<nat>>
    var routed: seq<bool>
    ghost var fails: seq<nat>

    function D(): Design { Design(conns, nets, |g|, Pinfeeds(g)) }

    ghost function View(): State
      reads this
    {
      State(users, occ, present, factor, paths, routed, fails)
    }

    ghost function Costs(): CostState
      reads this`congested, this`factor, this`multiplier, this`historicalFactor, this`historical
    {
      CostState(congested, factor, multiplier, historicalFactor, historical)
    }

    function SiteAt(base: nat): Site
      reads this`historical
    {
      Site(g, conns, boxes, nets, shapes, historical, base)
    }

    ghost predicate Valid()
      reads this
    {
      SiteAt(0).Valid() && Shaped(D(), View())
    }

    /** Every stored path joins the ends of its connection. */
    ghost predicate PathsJoin()
      reads this`paths
    {
      AllJoined(g, conns, boxes, paths)
    }

    /** Costs and factors are not negative. */
    ghost predicate CostsFine()
      reads this
    {
      CostsOk(SiteAt(0), factor) && multiplier >= 0.0 && historicalFactor >= 0.0
    }

    /** Net::decrementUser with the node's share of it. */
    method ReleaseNode(n: nat, v: nat)
      requires n < |users| && v < |occ| == |present|
      modifies this`users, this`occ, this`present
      ensures View() == WithBooks(old(View()), n, Dec(BooksOf(old(View()), n), v, factor))
    {
      var count := Cnt(users[n], v) - 1;
      if count == 0 {
        users := users[n := users[n] - {v}];
        occ := occ[v := occ[v] - 1];
      } else {
        var table: Users := users[n][v := count];
        users := users[n := table];
        assert occ == occ[v := occ[v]];
      }
      present := present[v := PresentCost(occ[v], factor)];
    }

    /** Net::incrementUser with the node's share of it. */
    method OccupyNode(n: nat, v: nat)
      requires n < |users| && v < |occ| == |present|
      modifies this`users, this`occ, this`present
      ensures View() == WithBooks(old(View()), n, Inc(BooksOf(old(View()), n), v, factor))
    {
      var newlyAdd := v !in users[n];
      var table: Users := users[n][v := if newlyAdd then 1 else users[n][v] + 1];
      users := users[n := table];
      if newlyAdd { occ := occ[v := occ[v] + 1]; } else { assert occ == occ[v := occ[v]]; }
      present := present[v := PresentCost(occ[v], factor)];
    }

    method ReleaseAll(n: nat, nodes: seq<nat>)
      requires n < |users| && |occ| == |present| && InNodes(nodes, |occ|)
      modifies this`users, this`occ, this`present
      ensures View() == WithBooks(old(View()), n, DecAll(BooksOf(old(View()), n), nodes, factor))
    {
      ghost var s := View();
      for i := 0 to |nodes|
        invariant View() == WithBooks(s, n, DecAll(BooksOf(s, n), nodes[..i], factor))
      {
        AllInPlace(BooksOf(s, n), nodes, i, factor);
        ReleaseNode(n, nodes[i]);
      }
      assert nodes[..|nodes|] == nodes;
    }

    method OccupyAll(n: nat, nodes: seq<nat>)
      requires n < |users| && |occ| == |present| && InNodes(nodes, |occ|)
      modifies this`users, this`occ, this`present
      ensures View() == WithBooks(old(View()), n, IncAll(BooksOf(old(View()), n), nodes, factor))
    {
      ghost var s := View();
      for i := 0 to |nodes|
        invariant View() == WithBooks(s, n, IncAll(BooksOf(s, n), nodes[..i], factor))
      {
        AllInPlace(BooksOf(s, n), nodes, i, factor);
        OccupyNode(n, nodes[i]);
      }
      assert nodes[..|nodes|] == nodes;
    }

    /** aStarRoute::ripup without synchronisation. */
    method Ripup(c: nat)
      requires Valid() && c < |conns|
      modifies this`users, this`occ, this`present, this`paths, this`routed
      ensures Valid() && View() == RipUp(D(), old(View()), c)
    {
      var nodes := paths[c];
      if |nodes| == 0 { nodes := [conns[c].sink]; }
      ReleaseAll(conns[c].net, nodes);
      paths := paths[c := []];
      routed := routed[c := false];
    }

    /** Store a found path and count it: setRouted and updateUsersAndPresentCongestionCost. */
    method CommitPath(c: nat, path: seq<nat>)
      requires Valid() && c < |conns| && InNodes(path, |g|)
      modifies this`users, this`occ, this`present, this`paths, this`routed
      ensures Valid() && View() == Commit(D(), old(View()), c, path)
    {
      paths := paths[c := path];
      routed := routed[c := true];
      OccupyAll(conns[c].net, path);
    }

    /**
     Reserve every sink. The program stops as soon as a sink turns out to be taken, which
     happens exactly when two connections share their sink.
     */
    method UpdateSinkNodeUsage() returns (ok: bool)
      requires Valid() && View() == Blank(D(), factor)
      modifies this`users, this`occ, this`present
      ensures ok <==> SinksDistinct(D())
      ensures ok ==> Valid() && View() == Reserved(D(), factor, |conns|)
    {
      ok := ReserveSinks();
    }

    method ReserveSinks() returns (ok: bool)
      requires ValidDesign(D()) && View() == Reserved(D(), factor, 0)
      modifies this`users, this`occ, this`present
      ensures ok <==> SinksDistinct(D())
      ensures ok ==> View() == Reserved(D(), factor, |conns|)
    {
      for k := 0 to |conns|
        invariant View() == Reserved(D(), factor, k)
        invariant !Repeated(D(), k)
      {
        var taken := ReserveSink(k);
        RepeatedStep(D(), k);
        if taken { return false; }
      }
      NoneRepeated(D());
      ok := true;
    }

    method ReserveSink(k: nat) returns (taken: bool)
      requires k < |conns| && ValidDesign(D()) && View() == Reserved(D(), factor, k)
      modifies this`users, this`occ, this`present
      ensures View() == Reserved(D(), factor, k + 1)
      ensures taken <==> SeenBefore(D(), k)
    {
      var c := conns[k];
      OccupyNode(c.net, c.sink);
      ReservationTaken(D(), factor, k);
      taken := occ[c.sink] > 1 || Cnt(users[c.net], c.sink) > 1;
    }

    /**
     Raise the present factor, refresh the nodes and count the overused ones. The threads,
     taken together, count every node exactly once.
     */
    method DynamicCostFactorUpdating(iter: nat, exp: real -> real, threads: nat, maxFactor: real)
      returns (overused: nat)
      requires Valid() && threads > 0 && Positive(exp)
      modifies this`factor, this`multiplier, this`historicalFactor, this`present, this`historical
      ensures Valid() && View() == NewFactor(D(), old(View()), factor)
      ensures factor == NextFactor(old(factor), multiplier, maxFactor)
      ensures FactorsSet(exp, iter, congested, old(multiplier), old(historicalFactor), multiplier, historicalFactor)
      ensures HistoryRaised(occ, old(historical), historical, historicalFactor)
      ensures overused == |Overused(occ)|
      ensures overused == 0 <==> NoOveruse(D(), View())
    {
      if congested {
        historicalFactor := CongestedHistorical(exp, iter);
        multiplier := CongestedMultiplier(exp, iter);
        FactorRanges(exp, iter);
      }
      factor := NextFactor(factor, multiplier, maxFactor);
      overused := RefreshNodes(threads, historicalFactor);
      assert present == NewFactor(D(), old(View()), factor).present;
      ZeroOverused(D(), View());
    }

    method RefreshNodes(threads: nat, historicalFactor: real) returns (overused: nat)
      requires threads > 0 && |historical| == |occ| == |present|
      modifies this`present, this`historical
      ensures |historical| == |occ| == |present|
      ensures forall v :: 0 <= v < |occ| ==> present[v] == Refreshed(occ[v], old(present[v]), factor)
      ensures HistoryRaised(occ, old(historical), historical, historicalFactor)
      ensures overused == |Overused(occ)|
    {
      overused := 0;
      ghost var before, beforeH := present, historical;
      assert OverusedAmong(occ, Before(threads, |occ|, 0)) == {};
      for tid := 0 to threads
        invariant PartlyRefreshed(occ, before, present, factor, Before(threads, |occ|, tid))
        invariant PartlyRaised(occ, beforeH, historical, historicalFactor, Before(threads, |occ|, tid))
        invariant overused == |OverusedAmong(occ, Before(threads, |occ|, tid))|
      {
        present, historical, overused :=
          RefreshStride(occ, present, historical, factor, historicalFactor, tid, threads, before, beforeH, overused);
      }
      RefreshedAll(occ, threads);
      RaisedAll(occ, beforeH, historical, historicalFactor, Before(threads, |occ|, threads));
    }

    /** Run the search of connection c in the present state of the books. */
    method SearchFor(c: nat, base: nat, info: array<NodeInfo>) returns (outcome: Outcome, path: seq<nat>)
      requires Valid() && c < |conns| && info.Length == |g|
      modifies info
      ensures Answers(SiteAt(base), PlainQuery(SiteAt(base), View(), c), c, old(info[..]), outcome, path)
      ensures Restamped(c + base, old(info[..]), info[..])
    {
      var n := conns[c].net;
      var q := BooksQuery(SiteAt(base), c, Books(users[n], occ, present), factor);
      ghost var pushed, turns, table := [], [], info[..];
      outcome, path, pushed, turns := RouteOneConnection(q, info);
      ConcludedAnswers(SiteAt(base), q, c, table, outcome, path);
    }

    /**
     Rip up connection c, search, and commit what was found: one step of the state machine.
     The answer is one to the query that the ripped-up books pose.
     */
    method RouteConnection(c: nat, base: nat, info: array<NodeInfo>) returns (outcome: Outcome, ghost answer: seq<nat>)
      requires Valid() && c < |conns| && info.Length == |g|
      modifies this`users, this`occ, this`present, this`paths, this`routed, this`fails, info
      ensures Valid() && InNodes(answer, |g|)
      ensures View() == if outcome.Stopped? then RipUp(D(), old(View()), c) else Reroute(D(), old(View()), c, answer)
      ensures Answers(SiteAt(base), PlainQuery(SiteAt(base), RipUp(D(), old(View()), c), c), c, old(info[..]), outcome,
                      answer)
      ensures Restamped(c + base, old(info[..]), info[..])
      ensures !outcome.Stopped? ==> FailedSince(old(fails), fails, if outcome.Found? then 0 else 1)
    {
      ghost var s := View();
      Ripup(c);
      var path;
      outcome, path := SearchFor(c, base, info);
      answer := path;
      Conclude(c, outcome, path);
      RipUpAndSearch(D(), s, c, outcome, path);
      if !outcome.Stopped? { RerouteFails(D(), s, c, path, View()); }
    }

    /** Store and count a found path; a failed search only leaves the connection without one. */
    method Conclude(c: nat, outcome: Outcome, path: seq<nat>)
      requires Valid() && c < |conns| && InNodes(path, |g|)
      modifies this`users, this`occ, this`present, this`paths, this`routed, this`fails
      ensures Valid() && View() == AfterSearch(D(), old(View()), c, outcome, path)
    {
      if outcome.Found? {
        CommitPath(c, path);
      } else if outcome.NotFound? {
        fails := fails[c := fails[c] + 1];
      }
    }

    /** The visit of a connection that needs routing. */
    method VisitNeeded(c: nat, base: nat, info: array<NodeInfo>) returns (outcome: Outcome, ghost answer: seq<nat>)
      requires Valid() && c < |conns| && info.Length == |g| && ShouldRoute(D(), View(), c)
      modifies this`users, this`occ, this`present, this`paths, this`routed, this`fails, info
      ensures Valid() && (outcome.Found? <==> answer != [])
      ensures !outcome.Stopped? ==> FailedSince(old(fails), fails, if outcome.Found? then 0 else 1)
      ensures !outcome.Stopped? ==>
                EntryOkAt(SiteAt(base))(c, old(View()), old(info[..]),
                                        Entry(c, old(View()), View(), old(info[..]), info[..], true, answer))
      ensures
        outcome.Stopped? && old(Unused(c + base, info[..])) && old(Sound(D(), View())) &&
        CostsOk(SiteAt(base), factor) ==>
          MayStop(g, View())
    {
      ghost var site, s, table := SiteAt(base), View(), info[..];
      outcome, answer := RouteConnection(c, base, info);
      assert SiteAt(base) == site;
      NeededVisit(site, s, c, table, info[..], outcome, answer, View());
    }

    /**
     Route the connection if it needs routing. If its stamp is unused, the search finds a path
     if and only if the sink is in reach, and only a pin or line that must not be met, or an
     earlier failed search, can make it stop.
     */
    method VisitConnection(c: nat, base: nat, info: array<NodeInfo>)
      returns (outcome: Outcome, needed: bool, ghost answer: seq<nat>)
      requires Valid() && c < |conns| && info.Length == |g|
      modifies this`users, this`occ, this`present, this`paths, this`routed, this`fails, info
      ensures Valid() && (outcome.Found? <==> answer != []) && (!needed ==> outcome.Found?)
      ensures !outcome.Stopped? ==> FailedSince(old(fails), fails, if outcome.Found? then 0 else 1)
      ensures !outcome.Stopped? ==>
                EntryOkAt(SiteAt(base))(c, old(View()), old(info[..]),
                                        Entry(c, old(View()), View(), old(info[..]), info[..], needed, answer))
      ensures
        outcome.Stopped? && old(Unused(c + base, info[..])) && old(Sound(D(), View())) &&
        CostsOk(SiteAt(base), factor) ==>
          MayStop(g, View())
    {
      ghost var site, s, table := SiteAt(base), View(), info[..];
      needed := NeedsRouting(routed[c], paths[c], occ);
      if needed {
        outcome, answer := VisitNeeded(c, base, info);
      } else {
        outcome, answer := Found, [conns[c].sink];
        QuietEntry(site, s, c, table, answer);
      }
    }

    /**
     The single-threaded loop over the connections. Unless the program stops, it performs an
     iteration of the state machine and counts its failed searches. If the table holds none of
     the iteration's stamps to begin with, every search meets an unused one.
     */
    method RouteIteration(order: seq<nat>, base: nat, info: array<NodeInfo>)
      returns (routedConnectionNum: nat, failRouteNum: nat, stopped: bool, ghost answers: seq<seq<nat>>,
               ghost tried: set<nat>)
      requires Valid() && info.Length == |g| && NoRepeat(order) && forall i :: 0 <= i < |order| ==> order[i] < |conns|
      modifies this`users, this`occ, this`present, this`paths, this`routed, this`fails, info
      ensures Valid()
      ensures !stopped ==> Visits(D(), order, answers) && View() == Iteration(D(), old(View()), order, answers)
      ensures !stopped ==> routedConnectionNum == Routings(D(), old(View()), order, answers)
      ensures !stopped ==> (failRouteNum == 0 <==> AllFound(answers)) && (old(PathsJoin()) ==> PathsJoin())
      ensures !stopped ==> FailedSince(old(fails), fails, failRouteNum)
      ensures !stopped && old(Spare(order, 0, base, info[..])) ==>
        IterationAnswered(SiteAt(base), old(View()), order, answers)
      ensures !stopped ==>
        RoutedSet(tried, routedConnectionNum, |conns|) && StampedBy(old(info[..]), info[..], base, tried)
      ensures
        stopped && old(Spare(order, 0, base, info[..])) && old(Sound(D(), View())) && CostsOk(SiteAt(base), factor) ==>
          MayStop(g, View())
    {
      ghost var s, table, log := View(), info[..], [];
      routedConnectionNum, failRouteNum, stopped, answers, tried := 0, 0, false, [], {};
      for k := 0 to |order|
        invariant Valid() && !stopped && |log| == k
        invariant Logged(SiteAt(base), order, s, table, log, View(), info[..], routedConnectionNum, failRouteNum)
      {
        ghost var t, now, site := View(), info[..], SiteAt(base);
        var outcome, needed; ghost var answer;
        outcome, needed, answer := VisitConnection(order[k], base, info);
        if outcome.Stopped? {
          stopped := true;
          BeforeStop(SiteAt(base), order, s, table, log);
          return;
        }
        assert SiteAt(base) == site;
        ghost var entry := Entry(order[k], t, View(), now, info[..], needed, answer);
        LoggedMore(site, order, s, table, log, t, now, routedConnectionNum, failRouteNum, entry, log + [entry]);
        log := log + [entry];
        if needed { routedConnectionNum := routedConnectionNum + 1; }
        if !outcome.Found? { failRouteNum := failRouteNum + 1; }
      }
      answers, tried := AnswersOf(log), Tried(log);
      LogSummary(SiteAt(base), order, s, table, log);
      if old(PathsJoin()) { LogJoins(SiteAt(base), order, s, table, log); }
    }

    /** Decide after the first iteration whether the design counts as congested. */
    method JudgeDesign(iter: nat, numConns: nat)
      modifies this`congested
      ensures congested <==> old(congested) || (iter == 1 && IsCongestedDesign(|Overused(occ)|, numConns))
    {
      if iter == 1 {
        var overUseCnt := CountOverused(occ);
        if overUseCnt as real > 0.45 * numConns as real { congested := true; }
      }
    }

    /** One iteration with its factor update. */
    method Negotiate(iter: nat, order: seq<nat>, base: nat, threads: nat, exp: real -> real, maxFactor: real,
                     numConns: nat, info: array<NodeInfo>)
      returns (converged: bool, stopped: bool, routedConnectionNum: nat, ghost tried: set<nat>)
      requires Valid() && Sound(D(), View()) && PinTypes(D()) && SinksDistinct(D()) && threads > 0 && info.Length == |g|
      requires Enumerates(order, |conns|) && Positive(exp) && maxFactor >= 0.0 && CostsFine()
      modifies this, info
      ensures converged ==> !stopped
      ensures Valid() && (!stopped ==> Sound(D(), View()) && CostsFine() && (old(PathsJoin()) ==> PathsJoin()))
      ensures !stopped ==>
        RoutedSet(tried, routedConnectionNum, |conns|) && StampedBy(old(info[..]), info[..], base, tried)
      ensures
        !stopped && old(SinksOwned(D(), View())) &&
        (routedConnectionNum == 0 || old(Spare(order, 0, base, info[..]))) ==>
          SinksOwned(D(), View())
      ensures stopped && old(Spare(order, 0, base, info[..])) ==> MayStop(g, View())
      ensures converged ==> AllPathsPresent(D(), View()) && NoOveruse(D(), View())
      ensures !stopped ==> RoundFrom(D(), order, old(View()), View(), routedConnectionNum, converged)
      ensures !stopped ==> Updated(exp, iter, numConns, maxFactor, occ, old(Costs()), Costs())
    {
      ghost var s, answers, spare := View(), [], Spare(order, 0, base, info[..]);
      var failRouteNum;
      routedConnectionNum, failRouteNum, stopped, answers, tried := RouteIteration(order, base, info);
      converged := false;
      if stopped { return; }
      RoundKeeps(SiteAt(base), s, order, answers, spare);
      ghost var t, table := View(), info[..];
      converged := CloseIteration(iter, exp, threads, maxFactor, numConns, failRouteNum);
      assert info[..] == table;
      UpdateLeaves(D(), t, View());
      SumMonotone(s.fails, fails);
    }

    /** What follows the visits of an iteration. */
    method CloseIteration(iter: nat, exp: real -> real, threads: nat, maxFactor: real, numConns: nat, failRouteNum: nat)
      returns (converged: bool)
      requires Valid() && Sound(D(), View()) && threads > 0 && Positive(exp) && maxFactor >= 0.0 && CostsFine()
      modifies this`factor, this`multiplier, this`historicalFactor, this`present, this`historical, this`congested
      ensures Valid() && Sound(D(), View()) && CostsFine()
      ensures View() == NewFactor(D(), old(View()), factor)
      ensures Updated(exp, iter, numConns, maxFactor, occ, old(Costs()), Costs())
      ensures converged <==> failRouteNum == 0 && NoOveruse(D(), View())
    {
      JudgeDesign(iter, numConns);
      var overused := UpdateCosts(iter, exp, threads, maxFactor);
      converged := overused == 0 && failRouteNum == 0;
    }

    /** The factor update keeps the books sound and costs non-negative. */
    method UpdateCosts(iter: nat, exp: real -> real, threads: nat, maxFactor: real) returns (overused: nat)
      requires Valid() && Sound(D(), View()) && threads > 0 && Positive(exp) && maxFactor >= 0.0 && CostsFine()
      modifies this`factor, this`multiplier, this`historicalFactor, this`present, this`historical
      ensures Valid() && Sound(D(), View()) && CostsFine()
      ensures View() == NewFactor(D(), old(View()), factor) && factor == NextFactor(old(factor), multiplier, maxFactor)
      ensures HistoryRaised(occ, old(historical), historical, historicalFactor)
      ensures FactorsSet(exp, iter, congested, old(multiplier), old(historicalFactor), multiplier, historicalFactor)
      ensures overused == 0 <==> NoOveruse(D(), View())
    {
      ghost var s, h := View(), historical;
      overused := DynamicCostFactorUpdating(iter, exp, threads, maxFactor);
      NewFactorKeepsSound(D(), s, factor);
      NextFactorNonNegative(s.factor, multiplier, maxFactor);
      forall v | 0 <= v < |historical| ensures historical[v] >= 0.0 {
        HistoryNonNegative(occ, h, historical, historicalFactor, v);
      }
    }

    /**
     The negotiation in single-threaded mode, from the reservation of the sinks to the last
     iteration; numbers lists how many connections each iteration routed. If it converges, and
     these numbers keep the stamps apart or no search ever failed, the result is legal: every
     connection has a path that joins its ends in the graph, and no two nets share a node. If it
     stops although the sinks are distinct, some search had failed before, or the graph offers
     a pin or line that must not be met.
     */
    method RouteIndirectConnections(order: seq<nat>, maxIter: nat, threads: nat, exp: real -> real, maxFactor: real,
                                    numConns: nat, info: array<NodeInfo>)
      returns (converged: bool, stopped: bool, ghost numbers: seq<nat>, ghost states: seq<State>)
      requires Valid() && View() == Blank(D(), factor) && PinTypes(D()) && threads > 0 && info.Length == |g|
      requires Enumerates(order, |conns|) && Positive(exp) && maxFactor >= 0.0 && CostsFine()
      requires forall v :: 0 <= v < info.Length ==> info[v].isVisited == -1 && info[v].isTarget == -1
      modifies this, info
      ensures !SinksDistinct(D()) ==> stopped
      ensures converged ==> !stopped
      ensures !stopped ==> Valid() && Sound(D(), View()) && PathsJoin()
      ensures !stopped && Spaced(1, numbers, |conns|) ==> SinksOwned(D(), View())
      ensures converged ==> AllPathsPresent(D(), View()) && NoOveruse(D(), View())
      ensures converged && (Spaced(1, numbers, |conns|) || forall c :: 0 <= c < |conns| ==> fails[c] == 0) ==>
                NodesDisjoint(D(), View())
      ensures stopped && SinksDistinct(D()) && NextSpaced(1, numbers, |conns|) ==> MayStop(g, View())
      ensures !stopped ==>
        Rounds(D(), order, states, numbers, converged) && states[0] == Reserved(D(), old(factor), |conns|)
      ensures !stopped ==> states[|numbers|] == View() && (!converged && maxIter > 0 ==> |numbers| == maxIter - 1)
    {
      converged, numbers, states := false, [], [];
      var ok := UpdateSinkNodeUsage();
      stopped := !ok;
      if stopped { return; }
      StartAccount(D(), factor, info[..]);
      ghost var sets;
      converged, stopped, numbers, sets, states :=
        NegotiateAll(order, maxIter, threads, exp, maxFactor, numConns, info);
      if converged { LegalWhenSettled(D(), View()); }
    }

    /** The loop of the negotiation. */
    method NegotiateAll(order: seq<nat>, maxIter: nat, threads: nat, exp: real -> real, maxFactor: real, numConns: nat,
                        info: array<NodeInfo>)
      returns (converged: bool, stopped: bool, ghost numbers: seq<nat>, ghost sets: seq<set<nat>>,
               ghost states: seq<State>)
      requires Valid() && PinTypes(D()) && SinksDistinct(D()) && threads > 0 && info.Length == |g|
      requires Enumerates(order, |conns|) && Positive(exp) && maxFactor >= 0.0 && CostsFine()
      requires Accounted(D(), [], [], View(), info[..]) && PathsJoin()
      modifies this, info
      ensures converged ==> !stopped
      ensures !stopped ==>
        Valid() && PathsJoin() && Between(D(), order, old(View()), numbers, sets, states, View(), info[..], converged)
      ensures converged ==> AllPathsPresent(D(), View()) && NoOveruse(D(), View())
      ensures stopped && NextSpaced(1, numbers, |conns|) ==> MayStop(g, View())
      ensures !stopped && !converged && maxIter > 0 ==> |numbers| == maxIter - 1
    {
      converged, stopped, numbers, sets, states := false, false, [], [], [View()];
      var iter, base, routedConnectionNum := 1, 0, 0;
      while iter < maxIter
        invariant Valid() && CostsFine() && !stopped && !converged && PathsJoin()
        invariant Between(D(), order, old(View()), numbers, sets, states, View(), info[..], false)
        invariant base + routedConnectionNum + 1 == Base(1, numbers, |numbers|)
        invariant iter == |numbers| + 1 && (iter == 1 || iter <= maxIter)
      {
        base := base + routedConnectionNum + 1;
        converged, stopped, routedConnectionNum, numbers, sets, states :=
          NegotiateNext(iter, order, base, threads, exp, maxFactor, numConns, info, old(View()), numbers, sets, states);
        if stopped || converged { return; }
        iter := iter + 1;
      }
    }

    /** One iteration, with the account of the stamps that it and the ones before it used. */
    method NegotiateNext(iter: nat, order: seq<nat>, base: nat, threads: nat, exp: real -> real, maxFactor: real,
                         numConns: nat, info: array<NodeInfo>, ghost start: State, ghost numbers0: seq<nat>,
                         ghost sets0: seq<set<nat>>, ghost states0: seq<State>)
      returns (converged: bool, stopped: bool, routedConnectionNum: nat, ghost numbers: seq<nat>,
               ghost sets: seq<set<nat>>, ghost states: seq<State>)
      requires Valid() && PinTypes(D()) && SinksDistinct(D()) && threads > 0 && info.Length == |g|
      requires Enumerates(order, |conns|) && Positive(exp) && maxFactor >= 0.0 && CostsFine()
      requires Between(D(), order, start, numbers0, sets0, states0, View(), info[..], false)
      requires PathsJoin() && base == Base(1, numbers0, |numbers0|)
      modifies this, info
      ensures converged ==> !stopped
      ensures !stopped ==> Valid() && CostsFine() && PathsJoin() && |numbers| == |numbers0| + 1
      ensures !stopped ==> base + routedConnectionNum + 1 == Base(1, numbers, |numbers|)
      ensures !stopped ==> Between(D(), order, start, numbers, sets, states, View(), info[..], converged)
      ensures stopped ==> numbers == numbers0
      ensures stopped && NextSpaced(1, numbers, |conns|) ==> MayStop(g, View())
      ensures converged ==> AllPathsPresent(D(), View()) && NoOveruse(D(), View())
    {
      ghost var s, table, tried := View(), info[..], {};
      if NextSpaced(1, numbers0, |conns|) { SpacedIsSpare(1, numbers0, sets0, |conns|, order, table); }
      converged, stopped, routedConnectionNum, tried :=
        Negotiate(iter, order, base, threads, exp, maxFactor, numConns, info);
      numbers, sets, states := numbers0, sets0, states0;
      if !stopped {
        numbers, sets, states := numbers0 + [routedConnectionNum], sets0 + [tried], states0 + [View()];
        BetweenMore(D(), order, start, numbers0, sets0, states0, s, table, tried, routedConnectionNum, View(), info[..],
                    numbers, sets, states, converged);
      }
    }
  }

  lemma NeededVisit(site: Site, s: State, c: nat, table: seq<NodeInfo>, after: seq<NodeInfo>, outcome: Outcome,
                    answer: seq<nat>, t: State)
    requires site.Valid() && Fitted(site, s) && c < |site.conns| && |table| == |site.g| && ShouldRoute(site.D(), s, c)
    requires Answers(site, PlainQuery(site, RipUp(site.D(), s, c), c), c, table, outcome, answer)
    requires Restamped(site.Uid(c), table, after) && InNodes(answer, |site.g|)
    requires t == if outcome.Stopped? then RipUp(site.D(), s, c) else Reroute(site.D(), s, c, answer)
    ensures !outcome.Stopped? ==> EntryOk(site, c, s, table, Entry(c, s, t, table, after, true, answer))
    ensures outcome.Stopped? && Unused(site.Uid(c), table) && Sound(site.D(), s) && CostsOk(site, s.factor) ==>
              MayStop(site.g, t)
  {
    if outcome.Stopped? {
      StoppedEntry(site, s, c, table, answer);
    } else {
      SearchedEntry(site, s, c, table, after, outcome, answer);
    }
  }

  /** Whether the design counts as congested, the factors, and the nodes' historical costs. */
  datatype CostState = CostState(congested: bool, factor: real, multiplier: real, historicalFactor: real,
                                 historical: seq<real>)

  /**
   The cost update that ends an iteration: a design may be found congested after the first
   one; factors, limits and historical costs follow.
   */
  ghost predicate Updated(exp: real -> real, iter: nat, numConns: nat, maxFactor: real, occ: seq<int>, a: CostState,
                          b: CostState)
    requires Positive(exp)
  {
    && (b.congested <==> a.congested || (iter == 1 && IsCongestedDesign(|Overused(occ)|, numConns)))
    && FactorsSet(exp, iter, b.congested, a.multiplier, a.historicalFactor, b.multiplier, b.historicalFactor)
    && b.factor == NextFactor(a.factor, b.multiplier, maxFactor)
    && HistoryRaised(occ, a.historical, b.historical, b.historicalFactor)
  }

  /** The visits so far, with the state and the table they led to, and how many searched and failed. */
  ghost predicate Logged(site: Site, order: seq<nat>, s: State, table: seq<NodeInfo>, log: seq<Entry>, now: State,
                         scratch: seq<NodeInfo>, routings: nat, failures: nat)
  {
    && Sequel(site, order, s, table, log) && now == LastState(s, log) && scratch == LastTable(table, log)
    && routings == Searches(log) && failures == Failures(log) && FailedSince(s.fails, now.fails, failures)
  }

  lemma LoggedMore(site: Site, order: seq<nat>, s: State, table: seq<NodeInfo>, log: seq<Entry>, now: State,
                   scratch: seq<NodeInfo>, routings: nat, failures: nat, e: Entry, more: seq<Entry>)
    requires Logged(site, order, s, table, log, now, scratch, routings, failures) && |log| < |order|
    requires EntryOkAt(site)(order[|log|], now, scratch, e) && more == log + [e]
    requires FailedSince(now.fails, e.t.fails, if e.answer == [] then 1 else 0)
    ensures Logged(site, order, s, table, more, e.t, e.after, routings + (if e.needed then 1 else 0),
                   failures + (if e.answer == [] then 1 else 0))
  {
    SequelMore(site, order, s, table, log, e);
    LogMore(log, e);
    FailedThen(s.fails, now.fails, e.t.fails, failures, if e.answer == [] then 1 else 0);
  }

  /**
   One iteration over the given order, with the given number of reroutings, and its factor
   update. It is clean if no search failed in it and it leaves no node overused.
   */
  ghost predicate RoundFrom(d: Design, order: seq<nat>, s: State, t: State, number: nat, clean: bool) {
    && Shaped(d, s) && Shaped(d, t)
    && (exists answers ::
          && Visits(d, order, answers) && number == Routings(d, s, order, answers)
          && t == NewFactor(d, Iteration(d, s, order, answers), t.factor))
    && (clean <==> t.fails == s.fails && NoOveruse(d, t))
  }

  /** The states between the iterations of a run; none but the last, if the run has converged, was clean. */
  ghost predicate Rounds(d: Design, order: seq<nat>, states: seq<State>, numbers: seq<nat>, converged: bool) {
    && |states| == |numbers| + 1 && (converged ==> numbers != [])
    && forall k {:trigger numbers[k]} :: 0 <= k < |numbers| ==>
         RoundFrom(d, order, states[k], states[k + 1], numbers[k], converged && k == |numbers| - 1)
  }

  lemma RoundsMore(d: Design, order: seq<nat>, states: seq<State>, numbers: seq<nat>, t: State, number: nat,
                   clean: bool)
    requires Rounds(d, order, states, numbers, false) && RoundFrom(d, order, states[|numbers|], t, number, clean)
    ensures Rounds(d, order, states + [t], numbers + [number], clean)
  {
  }

  /**
   Books and stamps after some iterations: the books are sound, every stamp in the table was
   used by one of them, and if their numbers keep stamps apart every sink is still its owner's.
   */
  ghost predicate Accounted(d: Design, numbers: seq<nat>, sets: seq<set<nat>>, s: State, table: seq<NodeInfo>) {
    && Sound(d, s) && RoutedSets(sets, numbers, |d.conns|) && Inscribed(1, numbers, sets, table)
    && (Spaced(1, numbers, |d.conns|) ==> SinksOwned(d, s))
  }

  /** Between two iterations of a run from the given state. */
  ghost predicate Between(d: Design, order: seq<nat>, start: State, numbers: seq<nat>, sets: seq<set<nat>>,
                          states: seq<State>, s: State, table: seq<NodeInfo>, converged: bool)
  {
    && Accounted(d, numbers, sets, s, table) && Rounds(d, order, states, numbers, converged)
    && states[0] == start && states[|numbers|] == s
  }

  lemma StartAccount(d: Design, factor: real, table: seq<NodeInfo>)
    requires ValidDesign(d) && SinksDistinct(d) && PinTypes(d)
    requires forall v :: 0 <= v < |table| ==> table[v].isVisited == -1 && table[v].isTarget == -1
    ensures Accounted(d, [], [], Reserved(d, factor, |d.conns|), table)
  {
    ReservedIsExact(d, factor);
    ReservedIsOwned(d, factor);
  }

  lemma AccountMore(d: Design, numbers: seq<nat>, sets: seq<set<nat>>, s: State, table: seq<NodeInfo>,
                    tried: set<nat>, count: nat, t: State, after: seq<NodeInfo>)
    requires Accounted(d, numbers, sets, s, table) && Sound(d, t) && RoutedSet(tried, count, |d.conns|)
    requires StampedBy(table, after, Base(1, numbers, |numbers|), tried)
    requires SinksOwned(d, s) && (count == 0 || NextSpaced(1, numbers, |d.conns|)) ==> SinksOwned(d, t)
    ensures Accounted(d, numbers + [count], sets + [tried], t, after)
    ensures Base(1, numbers + [count], |numbers| + 1) == Base(1, numbers, |numbers|) + count + 1
  {
    NextNumbers(1, numbers, sets, |d.conns|, tried, count, table, after);
  }

  lemma BetweenMore(d: Design, order: seq<nat>, start: State, numbers0: seq<nat>, sets0: seq<set<nat>>,
                    states0: seq<State>, s: State, table: seq<NodeInfo>, tried: set<nat>, count: nat, t: State,
                    after: seq<NodeInfo>, numbers: seq<nat>, sets: seq<set<nat>>, states: seq<State>, clean: bool)
    requires Between(d, order, start, numbers0, sets0, states0, s, table, false)
    requires RoundFrom(d, order, s, t, count, clean)
    requires Sound(d, t) && RoutedSet(tried, count, |d.conns|)
    requires StampedBy(table, after, Base(1, numbers0, |numbers0|), tried)
    requires SinksOwned(d, s) && (count == 0 || NextSpaced(1, numbers0, |d.conns|)) ==> SinksOwned(d, t)
    requires numbers == numbers0 + [count] && sets == sets0 + [tried] && states == states0 + [t]
    ensures Between(d, order, start, numbers, sets, states, t, after, clean)
    ensures Base(1, numbers, |numbers|) == Base(1, numbers0, |numbers0|) + count + 1
  {
    AccountMore(d, numbers0, sets0, s, table, tried, count, t, after);
    RoundsMore(d, order, states0, numbers0, t, count, clean);
  }

  /** Where all paths are present and nothing is overused, either guarantee makes the nets disjoint. */
  lemma LegalWhenSettled(d: Design, s: State)
    requires Sound(d, s) && AllPathsPresent(d, s) && NoOveruse(d, s)
    ensures SinksOwned(d, s) || (forall c :: 0 <= c < |d.conns| ==> s.fails[c] == 0) ==> NodesDisjoint(d, s)
  {
    if SinksOwned(d, s) { DisjointDespiteFailures(d, s); }
    if forall c :: 0 <= c < |d.conns| ==> s.fails[c] == 0 { OveruseIsSharing(d, s); }
  }

  /** An earlier connection ends at the same sink. */
  ghost predicate SeenBefore(d: Design, k: nat)
    requires k < |d.conns|
  {
    exists e :: 0 <= e < k && d.conns[e].sink == d.conns[k].sink
  }

  /** Two of the first k connections share their sink. */
  ghost predicate Repeated(d: Design, k: nat)
    requires k <= |d.conns|
  {
    exists e :: 0 <= e < k && SeenBefore(d, e)
  }

  lemma RepeatedStep(d: Design, k: nat)
    requires k < |d.conns|
    ensures Repeated(d, k + 1) <==> Repeated(d, k) || SeenBefore(d, k)
    ensures SeenBefore(d, k) ==> !SinksDistinct(d)
  {
  }

  lemma NoneRepeated(d: Design)
    requires !Repeated(d, |d.conns|)
    ensures SinksDistinct(d)
  {
    forall c, e | 0 <= c < e < |d.conns| ensures d.conns[c].sink != d.conns[e].sink { assert !SeenBefore(d, e); }
  }

  lemma ReservationTaken(d: Design, factor: real, k: nat)
    requires ValidDesign(d) && k < |d.conns|
    ensures var s, c := Reserved(d, factor, k + 1), d.conns[k];
            s.occ[c.sink] > 1 || Cnt(s.users[c.net], c.sink) > 1 <==> SeenBefore(d, k)
  {
    if e :| 0 <= e < k && d.conns[e].sink == d.conns[k].sink {
      TakenIsSeen(d, factor, k, e);
    } else {
      FreeIsSeen(d, factor, k);
    }
  }

  lemma TakenIsSeen(d: Design, factor: real, k: nat, e: nat)
    requires ValidDesign(d) && e < k < |d.conns| && d.conns[e].sink == d.conns[k].sink
    ensures var s, c := Reserved(d, factor, k + 1), d.conns[k];
            s.occ[c.sink] > 1 || Cnt(s.users[c.net], c.sink) > 1
  {
    var m, n, v := d.conns[e].net, d.conns[k].net, d.conns[k].sink;
    if m == n {
      ReservedTallied(d, factor, k, v);
      ReservedKeys(d, factor, k, n, v);
      IncCounts(BooksOf(Reserved(d, factor, k), n), v, factor, v);
    } else {
      SharedReservation(d, factor, k + 1, m, n, v);
    }
  }

  lemma SharedReservation(d: Design, factor: real, k: nat, m: nat, n: nat, v: nat)
    requires ValidDesign(d) && k <= |d.conns| && m < d.nets && n < d.nets && m != n && v < d.nodes
    requires exists c :: 0 <= c < k && d.conns[c].net == m && d.conns[c].sink == v
    requires exists c :: 0 <= c < k && d.conns[c].net == n && d.conns[c].sink == v
    ensures Reserved(d, factor, k).occ[v] > 1
  {
    ReservedTallied(d, factor, k, v);
    ReservedKeys(d, factor, k, m, v);
    ReservedKeys(d, factor, k, n, v);
    TwoUsingNets(Reserved(d, factor, k).users, v, if m < n then m else n, if m < n then n else m);
  }

  lemma FreeIsSeen(d: Design, factor: real, k: nat)
    requires ValidDesign(d) && k < |d.conns|
    requires forall e :: 0 <= e < k ==> d.conns[e].sink != d.conns[k].sink
    ensures var s, c := Reserved(d, factor, k + 1), d.conns[k];
            s.occ[c.sink] == 1 && Cnt(s.users[c.net], c.sink) == 1
  {
    var s, c := Reserved(d, factor, k), d.conns[k];
    ReservedTallied(d, factor, k, c.sink);
    IncCounts(BooksOf(s, c.net), c.sink, factor, c.sink);
    forall n | 0 <= n < d.nets ensures c.sink !in s.users[n] { ReservedKeys(d, factor, k, n, c.sink); }
    NoUser(s.users, c.sink);
  }
}
