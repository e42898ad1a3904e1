/**
 A partition-tree pass as a step of the parallel router (aStarRoute::routePartitionTree,
 src/route/aStarRoute.cpp, lines 926-954, on the table of thread 0).
 */
module ParallelPass {
  import opened Counting
  import opened Search
  import opened Congestion
  import opened Convergence
  import opened Exclusive
  import opened SyncBatch
  import opened BatchIteration
  import opened Site
  import opened Answered
  import opened IterationLog
  import opened TreePass
  import opened ParallelBatches

  /** The log tells of visits in the given order, on the table of thread 0, that lead from one desk to the other. */
  ghost predicate PassRuns(site: Site, x: Desk, order: seq<nat>, log: seq<Entry>, y: Desk) {
    && |x.tables| > 0 && NoRepeat(order) && |log| == |order| && Sequel(site, order, x.s, x.tables[0], log)
    && y == x.(s := LastState(x.s, log), tables := x.tables[0 := LastTable(x.tables[0], log)])
  }

  /** Every pass from a desk whose paths join their ends has such a log, whatever the interleavings of its levels. */
  lemma EveryPassRuns(site: Site, x: Desk, levels: seq<Level>) returns (log: seq<Entry>)
    requires levels != [] && Pass(levels) && NoRepeat(OrderOf(levels)) && |x.tables| > 0 && Fitted(site, x.s)
    requires Joined(site, x.s)
    requires levels[0].w.site == site && levels[0].m.s == x.s && levels[0].m.info == x.tables[0]
    ensures var last := EndOf(levels[|levels| - 1]);
            PassRuns(site, x, OrderOf(levels), log, x.(s := last.s, tables := x.tables[0 := last.info]))
  {
    JoinedIsNear(levels[0].w, x.s);
    log := PassIsIteration(levels);
  }

  lemma {:induction false} IterationKeepsCosts(d: Design, s: State, order: seq<nat>, answers: seq<seq<nat>>)
    requires Shaped(d, s) && CostsInStep(d, s) && Visits(d, order, answers)
    ensures CostsInStep(d, Iteration(d, s, order, answers)) && Iteration(d, s, order, answers).factor == s.factor
  {
    if |order| > 0 {
      var last := |order| - 1;
      IterationKeepsCosts(d, s, order[..last], answers[..last]);
      var t := Iteration(d, s, order[..last], answers[..last]);
      if ShouldRoute(d, t, order[last]) { RerouteKeepsCosts(d, t, order[last], answers[last]); }
    }
  }

  /** A pass leaves the tables of nets that it does not visit. */
  lemma {:induction false} UnvisitedTable(d: Design, s: State, order: seq<nat>, answers: seq<seq<nat>>, n: nat)
    requires Shaped(d, s) && Visits(d, order, answers) && n < d.nets
    requires forall i :: 0 <= i < |order| ==> d.conns[order[i]].net != n
    ensures Iteration(d, s, order, answers).users[n] == s.users[n]
  {
    if |order| > 0 { UnvisitedTable(d, s, order[..|order| - 1], answers[..|order| - 1], n); }
  }

  /** Books, paths and tables after a part of an iteration that searched for the tried connections. */
  ghost predicate Moved(site: Site, x: Desk, y: Desk, tried: set<nat>) {
    && Fitted(site, y.s) && Sound(site.D(), y.s) && CostsInStep(site.D(), y.s) && Joined(site, y.s)
    && y.s.factor == x.s.factor
    && TablesLeft(site.connectionIdBase, tried, x.tables, y.tables, x.changes, y.changes) && |y.stamp| == |x.stamp|
    && forall c :: c in tried ==> c < |site.conns|
  }

  /** In order, with paths that join their ends. */
  ghost predicate InOrder(site: Site, x: Desk) {
    && Fitted(site, x.s) && Sound(site.D(), x.s) && CostsInStep(site.D(), x.s) && Joined(site, x.s)
    && |x.tables| == |x.changes| > 0 && |x.stamp| == |site.g| && AllSized(x.tables, x.changes, |site.g|)
  }

  lemma NothingMoved(site: Site, x: Desk)
    requires InOrder(site, x)
    ensures Moved(site, x, x, {})
  {
    TablesSame(site.connectionIdBase, x.tables, x.changes);
  }

  /** Two parts of an iteration, one after the other. */
  lemma MovedOn(site: Site, x: Desk, y: Desk, z: Desk, a: set<nat>, b: set<nat>)
    requires Moved(site, x, y, a) && Moved(site, y, z, b)
    ensures Moved(site, x, z, a + b)
  {
    TablesOn(site.connectionIdBase, a, b, a + b, x.tables, y.tables, z.tables, x.changes, y.changes, z.changes);
  }

  lemma MovedSizes(site: Site, x: Desk, y: Desk, tried: set<nat>)
    requires InOrder(site, x) && Moved(site, x, y, tried)
    ensures InOrder(site, y)
  {
    forall u: nat | u < |x.tables| ensures |y.tables[u]| == |y.changes[u]| == |site.g| {
      assert StampedBy(x.tables[u], y.tables[u], site.connectionIdBase, tried);
    }
  }

  lemma TableZero(base: nat, tried: set<nat>, x: Desk, y: Desk, table: seq<NodeInfo>)
    requires |x.tables| == |x.changes| > 0 && y.tables == x.tables[0 := table] && y.changes == x.changes
    requires StampedBy(x.tables[0], table, base, tried)
    ensures TablesLeft(base, tried, x.tables, y.tables, x.changes, y.changes)
  {
  }

  /** What the log of a pass says about state and table. */
  lemma PassLog(site: Site, x: Desk, order: seq<nat>, log: seq<Entry>, y: Desk) returns (answers: seq<seq<nat>>)
    requires PassRuns(site, x, order, log, y) && InOrder(site, x)
    ensures Visits(site.D(), order, answers) && y.s == Iteration(site.D(), x.s, order, answers)
    ensures Routings(site.D(), x.s, order, answers) == Searches(log) == |Tried(log)|
    ensures Failures(log) == 0 <==> AllFound(answers)
    ensures Spare(order, 0, site.connectionIdBase, x.tables[0]) ==> IterationAnswered(site, x.s, order, answers)
    ensures StampedBy(x.tables[0], y.tables[0], site.connectionIdBase, Tried(log)) && Joined(site, y.s)
    ensures (forall c :: c in Tried(log) ==> c < |site.conns|) && forall c :: c in Tried(log) ==> c in order
  {
    answers := AnswersOf(log);
    LogSummary(site, order, x.s, x.tables[0], log);
    LogJoins(site, order, x.s, x.tables[0], log);
    SequelLength(site, order, x.s, x.tables[0], log);
    TriedInOrder(order, log);
  }

  lemma TriedInOrder(order: seq<nat>, log: seq<Entry>)
    requires |log| == |order| && forall i :: 0 <= i < |log| ==> log[i].c == order[i]
    ensures forall c :: c in Tried(log) ==> c in order
  {
    forall c | c in Tried(log) ensures c in order {
      var i :| 0 <= i < |log| && log[i].c == c;
      assert order[i] == c;
    }
  }

  /**
   A pass keeps everything in order, and sinks with their owners if its stamps were unused
   or nothing was searched for.
   */
  lemma PassLeads(site: Site, x: Desk, order: seq<nat>, log: seq<Entry>, y: Desk)
    requires PassRuns(site, x, order, log, y) && InOrder(site, x)
    requires SinksDistinct(site.D()) && PinTypes(site.D())
    ensures Moved(site, x, y, Tried(log)) && y.stamp == x.stamp && y.changes == x.changes
    ensures forall c :: c in Tried(log) ==> c in order
    ensures SinksOwned(site.D(), x.s) && (Tried(log) == {} || Spare(order, 0, site.connectionIdBase, x.tables[0])) ==>
              SinksOwned(site.D(), y.s)
    ensures Failures(log) == 0 && (forall c: nat :: c < |site.conns| ==> c in order) ==> AllPathsPresent(site.D(), y.s)
  {
    var answers := PassLog(site, x, order, log, y);
    RoundKeeps(site, x.s, order, answers, Spare(order, 0, site.connectionIdBase, x.tables[0]));
    IterationKeepsCosts(site.D(), x.s, order, answers);
    TableZero(site.connectionIdBase, Tried(log), x, y, y.tables[0]);
  }

  /** It leaves the tables of other nets alone. */
  lemma PassLeaves(site: Site, x: Desk, order: seq<nat>, log: seq<Entry>, y: Desk, n: nat)
    requires PassRuns(site, x, order, log, y) && InOrder(site, x) && n < site.nets
    requires forall c: nat :: c < |site.conns| && c in order ==> site.conns[c].net != n
    ensures |y.s.users| == site.nets && y.s.users[n] == x.s.users[n]
  {
    var answers := PassLog(site, x, order, log, y);
    UnvisitedTable(site.D(), x.s, order, answers, n);
  }
}
