/**
 One iteration of the negotiation in parallel mode (src/route/aStarRoute.cpp, lines 36-132,
 with useParallel set): the batches and a pass over the labelled nets, or a pass over the
 whole partition tree; every phase in any interleaving.
 */
module ParallelIteration {
  import opened Search
  import opened Congestion
  import opened Convergence
  import opened Exclusive
  import opened SyncBatch
  import opened BatchVisits
  import opened BatchIteration
  import opened Site
  import opened Answered
  import opened Stamps
  import opened IterationLog
  import opened StableOutcome
  import opened ParallelBatches
  import opened ParallelPass

  /**
   One iteration: its site, with the historical costs and the first stamp; whether it is
   batched; the desks before, between and after its batches; the pass with its log and the
   desk it leaves; the new factor.
   */
  datatype Round = Round(site: Site, batched: bool, desks: seq<Desk>, works: seq<Work>, order: seq<nat>,
                         log: seq<Entry>, passed: Desk, factor: real)

  /**
   The iteration comes through. A batched one leaves the labelled nets to its pass, any
   other leaves all nets to it.
   */
  ghost predicate RoundRuns(netConns: seq<seq<nat>>, batches: seq<seq<seq<nat>>>, iter: nat, r: Round) {
    && |r.desks| > 0
    && (if r.batched then BatchesRun(r.site, netConns, batches, iter, r.desks, r.works) else |r.desks| == 1)
    && PassRuns(r.site, r.desks[|r.desks| - 1], r.order, r.log, r.passed)
    && PassOver(r.site, r.order, if r.batched then FlatAll(batches) else [])
  }

  /** The pass visits the connections of all but the given nets. */
  ghost predicate PassOver(site: Site, order: seq<nat>, others: seq<nat>) {
    forall c: nat :: c < |site.conns| ==> (c in order <==> site.conns[c].net !in others)
  }

  /** The connections that the batches search for. */
  ghost function Searched(batches: seq<seq<seq<nat>>>, r: Round): set<nat> {
    if r.batched && |r.desks| == |batches| + 1 then SearchedBy(r.site.D(), batches, r.desks, |batches|) else {}
  }

  /** Tables, stamps and books after a part of an iteration. */
  ghost predicate Later(site: Site, x: Desk, y: Desk, tried: set<nat>, first: int, spare: bool) {
    && Shaped(site.D(), x.s) && Moved(site, x, y, tried) && Below(y.stamp, first) && AllEarlier(y.changes, first)
    && (SinksOwned(site.D(), x.s) && (tried == {} || spare) ==> SinksOwned(site.D(), y.s))
  }

  ghost predicate OfNets(site: Site, tried: set<nat>, nets: seq<nat>) {
    forall c: nat :: c in tried && c < |site.conns| ==> site.conns[c].net in nets
  }

  lemma AtBatchLater(site: Site, batches: seq<seq<seq<nat>>>, iter: nat, b: nat, x: Desk, y: Desk, searched: set<nat>,
                     events: seq<Event>, starts: map<nat, State>, spare: bool)
    requires InOrder(site, x) && b <= |batches| && SinksDistinct(site.D()) && PinTypes(site.D())
    requires AtBatch(site, batches, iter, b, x, y, searched, events, starts, spare)
    ensures Later(site, x, y, searched, BatchStamp(iter, |batches|, b), spare)
    ensures InStep(site.D(), y.s, FlatAll(batches)) && OfNets(site, searched, FlatAll(batches))
  {
    TriedInSize(site.D(), events);
    FlatAllPrefix(batches, b);
    TriedOfNets(site, events, FlatAll(batches[..b]), FlatAll(batches));
  }

  lemma TriedOfNets(site: Site, events: seq<Event>, some: seq<nat>, all: seq<nat>)
    requires Tries(site.D(), events) && OnlyOf(site.D(), events, some) && some <= all
    ensures OfNets(site, TriedIn(site.D(), events), all)
  {
    forall c: nat | c in TriedIn(site.D(), events) ensures site.conns[c].net in all {
      var i :| 0 <= i < |events| && events[i].Try? && events[i].conn == c;
      var j :| 0 <= j < |some| && some[j] == site.conns[c].net;
      assert all[j] == some[j];
    }
  }

  /** The batches keep everything in order. */
  lemma BatchesLater(site: Site, netConns: seq<seq<nat>>, batches: seq<seq<seq<nat>>>, iter: nat, desks: seq<Desk>,
                     works: seq<Work>, b: nat, spare: bool)
    requires BatchesRun(site, netConns, batches, iter, desks, works) && b <= |batches|
    requires InOrder(site, desks[0]) && Cleared(site, batches, iter, desks[0])
    requires Spread(batches, |desks[0].tables|, site.nets)
    requires SinksDistinct(site.D()) && PinTypes(site.D()) && (spare ==> AllSpare(site, desks[0].tables))
    ensures Later(site, desks[0], desks[b], SearchedBy(site.D(), batches, desks, b), BatchStamp(iter, |batches|, b),
                  spare)
    ensures InStep(site.D(), desks[b].s, FlatAll(batches))
    ensures OfNets(site, SearchedBy(site.D(), batches, desks, b), FlatAll(batches))
  {
    if spare { AllSpareLater(site, batches, desks[0].tables); }
    var events, starts := BatchesLead(site, netConns, batches, iter, desks, works, b, spare);
    AtBatchLater(site, batches, iter, b, desks[0], desks[b], SearchedBy(site.D(), batches, desks, b), events, starts,
                 spare);
  }

  lemma NextStamp(iter: nat, batches: nat, next: int)
    requires next == BatchStamp(iter + 1, batches, 0)
    ensures next == BatchStamp(iter, batches, batches) >= BatchStamp(iter, batches, 0)
  {
  }

  /** Where an iteration starts from. */
  ghost predicate Begins(batches: seq<seq<seq<nat>>>, iter: nat, r: Round, spare: bool) {
    |r.desks| > 0 &&
    var x := r.desks[0];
    && InOrder(r.site, x) && Spread(batches, |x.tables|, r.site.nets) && SinksDistinct(r.site.D())
    && PinTypes(r.site.D())
    && Below(x.stamp, BatchStamp(iter, |batches|, 0)) && AllEarlier(x.changes, BatchStamp(iter, |batches|, 0))
    && (r.batched ==> InStep(r.site.D(), x.s, FlatAll(batches))) && (spare ==> AllSpare(r.site, x.tables))
  }

  lemma StayedLater(site: Site, x: Desk, first: int, next: int, spare: bool)
    requires InOrder(site, x) && Below(x.stamp, first) && AllEarlier(x.changes, first) && first <= next
    ensures Later(site, x, x, {}, next, spare)
  {
    NothingMoved(site, x);
  }

  /** The batches of an iteration, if it has any. */
  lemma FirstPart(netConns: seq<seq<nat>>, batches: seq<seq<seq<nat>>>, iter: nat, next: int, r: Round, y: Desk,
                  spare: bool)
    requires RoundRuns(netConns, batches, iter, r) && Begins(batches, iter, r, spare)
    requires next == BatchStamp(iter + 1, |batches|, 0) && y == r.desks[|r.desks| - 1]
    ensures Later(r.site, r.desks[0], y, Searched(batches, r), next, spare)
    ensures r.batched ==> InStep(r.site.D(), y.s, FlatAll(batches))
    ensures OfNets(r.site, Searched(batches, r), if r.batched then FlatAll(batches) else [])
  {
    var first := BatchStamp(iter, |batches|, 0);
    NextStamp(iter, |batches|, next);
    if r.batched {
      BatchesLater(r.site, netConns, batches, iter, r.desks, r.works, |batches|, spare);
    } else {
      assert r.desks[0] == y;
      StayedLater(r.site, y, first, next, spare);
    }
  }

  /** The stamps of the connections that the pass visits are unused when it begins. */
  lemma PassSpare(site: Site, x: Desk, y: Desk, tried: set<nat>, others: seq<nat>, order: seq<nat>)
    requires |x.tables| > 0 && AllSpare(site, x.tables) && OfNets(site, tried, others)
    requires TablesLeft(site.connectionIdBase, tried, x.tables, y.tables, x.changes, y.changes)
    requires forall i :: 0 <= i < |order| ==> order[i] < |site.conns| && site.conns[order[i]].net !in others
    ensures Spare(order, 0, site.connectionIdBase, y.tables[0])
  {
    assert StampedBy(x.tables[0], y.tables[0], site.connectionIdBase, tried);
    forall j | 0 <= j < |order| ensures Unused(order[j] + site.connectionIdBase, y.tables[0]) {
      assert Unused(site.Uid(order[j]), x.tables[0]);
    }
  }

  lemma PassOrder(site: Site, y: Desk, order: seq<nat>, log: seq<Entry>, z: Desk, others: seq<nat>)
    requires PassRuns(site, y, order, log, z) && PassOver(site, order, others) && InOrder(site, y)
    ensures forall i :: 0 <= i < |order| ==> order[i] < |site.conns| && site.conns[order[i]].net !in others
  {
    var answers := PassLog(site, y, order, log, z);
    forall i | 0 <= i < |order| ensures site.conns[order[i]].net !in others { assert order[i] in order; }
  }

  /** The pass leaves the tables of the batches' nets alone. */
  lemma PassInStep(site: Site, y: Desk, order: seq<nat>, log: seq<Entry>, z: Desk, nets: seq<nat>)
    requires PassRuns(site, y, order, log, z) && PassOver(site, order, nets) && InOrder(site, y)
    requires InStep(site.D(), y.s, nets) && Fitted(site, z.s) && CostsInStep(site.D(), z.s)
    ensures InStep(site.D(), z.s, nets)
  {
    forall n: nat | n < site.nets && n in nets ensures z.s.users[n] == y.s.users[n] {
      PassLeaves(site, y, order, log, z, n);
    }
  }

  /** The pass as the second part of an iteration. */
  lemma SecondPart(site: Site, x: Desk, y: Desk, order: seq<nat>, log: seq<Entry>, z: Desk, tried: set<nat>,
                   others: seq<nat>, first: int, spare: bool)
    requires PassRuns(site, y, order, log, z) && PassOver(site, order, others) && InOrder(site, x)
    requires Later(site, x, y, tried, first, spare) && OfNets(site, tried, others)
    requires (spare ==> AllSpare(site, x.tables))
    requires SinksDistinct(site.D()) && PinTypes(site.D())
    ensures Later(site, x, z, tried + Tried(log), first, spare)
    ensures Failures(log) == 0 && others == [] ==> AllPathsPresent(site.D(), z.s)
  {
    MovedSizes(site, x, y, tried);
    PassOrder(site, y, order, log, z, others);
    if spare { PassSpare(site, x, y, tried, others, order); }
    PassLeads(site, y, order, log, z);
    MovedOn(site, x, y, z, tried, Tried(log));
  }

  /** What an iteration leaves before its factor update. */
  ghost predicate RoundDone(batches: seq<seq<seq<nat>>>, iter: nat, r: Round, spare: bool) {
    && |r.desks| > 0
    && Later(r.site, r.desks[0], r.passed, Searched(batches, r) + Tried(r.log), BatchStamp(iter + 1, |batches|, 0),
             spare)
    && (r.batched ==> InStep(r.site.D(), r.passed.s, FlatAll(batches)))
    && (!r.batched && Failures(r.log) == 0 ==> AllPathsPresent(r.site.D(), r.passed.s))
  }

  /**
   A whole iteration, up to its factor update: everything is in order again, sinks have their
   owners if nothing was searched for or the stamps were spare, and a pass over all nets
   without a failed search leaves every connection with a path.
   */
  lemma RoundLeads(netConns: seq<seq<nat>>, batches: seq<seq<seq<nat>>>, iter: nat, r: Round, spare: bool)
    requires RoundRuns(netConns, batches, iter, r) && Begins(batches, iter, r, spare)
    ensures RoundDone(batches, iter, r, spare)
  {
    var y, next := r.desks[|r.desks| - 1], BatchStamp(iter + 1, |batches|, 0);
    FirstPart(netConns, batches, iter, next, r, y, spare);
    SecondPart(r.site, r.desks[0], y, r.order, r.log, r.passed, Searched(batches, r),
               if r.batched then FlatAll(batches) else [],
               next, spare);
    if r.batched {
      MovedSizes(r.site, r.desks[0], y, Searched(batches, r));
      PassInStep(r.site, y, r.order, r.log, r.passed, FlatAll(batches));
    }
  }

  /** The desk before batch b, or after the last batch. */
  ghost predicate BatchLater(batches: seq<seq<seq<nat>>>, iter: nat, r: Round, b: nat, spare: bool)
    requires b <= |batches| < |r.desks|
  {
    && Later(r.site, r.desks[0], r.desks[b], SearchedBy(r.site.D(), batches, r.desks, b),
             BatchStamp(iter, |batches|, b), spare)
    && InStep(r.site.D(), r.desks[b].s, FlatAll(batches))
  }

  /** What is known before, between and after the batches of an iteration, if it has any. */
  ghost predicate BatchesDone(batches: seq<seq<seq<nat>>>, iter: nat, r: Round, spare: bool) {
    r.batched ==>
      |r.desks| == |batches| + 1 && forall b: nat :: b <= |batches| ==> BatchLater(batches, iter, r, b, spare)
  }

  lemma RoundBarriers(netConns: seq<seq<nat>>, batches: seq<seq<seq<nat>>>, iter: nat, r: Round, spare: bool)
    requires RoundRuns(netConns, batches, iter, r) && Begins(batches, iter, r, spare)
    ensures BatchesDone(batches, iter, r, spare)
  {
    if r.batched {
      forall b: nat | b <= |batches| ensures BatchLater(batches, iter, r, b, spare) {
        BatchesLater(r.site, netConns, batches, iter, r.desks, r.works, b, spare);
      }
    }
  }
}
