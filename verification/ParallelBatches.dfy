/**
 The batches of one iteration as the program runs them (src/route/stableFirstRouting.cpp,
 lines 17-46): threads in any interleaving, commits in any interleaving, batch after batch on
 the tables that the one before has left.
 */
module ParallelBatches {
  import opened Interleaving
  import opened Search
  import opened Ledger
  import opened Congestion
  import opened Convergence
  import opened SwiftSync
  import opened SyncBatch
  import opened OccChange
  import opened BatchCover
  import opened BatchOutcome
  import opened BatchVisits
  import opened BatchIteration
  import opened Site
  import opened Answered
  import opened BatchMachine
  import opened BatchConfluence
  import opened BatchTermination
  import opened BatchAnyOrder
  import opened Stamps

  /**
   Everything that one step of the program hands to the next: books and paths, the threads'
   tables, the nodes' stamps.
   */
  datatype Desk = Desk(s: State, tables: seq<seq<NodeInfo>>, changes: seq<seq<Change>>, stamp: seq<int>)

  /**
   How a batch runs: the notes it finds, the schedule of its threads, the tables they commit
   and the order of the commits.
   */
  datatype Work = Work(incs: seq<Users>, decs: seq<Users>, schedule: seq<nat>,
                       users: seq<Users>, acts: seq<seq<Act>>, commits: seq<nat>)

  ghost function MemoryOf(w: World, x: Desk, k: Work): Memory {
    Memory(x.s, k.incs, k.decs, x.tables, x.changes, seq(|w.lists|, _ => Control(0, Fetch)))
  }

  ghost function RoutedOf(w: World, x: Desk, k: Work): Memory { Play(StepIn(w), MemoryOf(w, x, k), k.schedule) }

  /** Counts and stamps after the commits, and the costs of the stamped nodes refreshed. */
  ghost function AfterCommits(x: Desk, r: Memory, users: seq<Users>, run: seq<Act>, batch: int): Desk
    requires |x.s.present| == |x.s.occ| == |x.stamp| && OnBoard(Board(x.s.occ, x.stamp), run)
  {
    var b := DoAll(Board(x.s.occ, x.stamp), run, batch);
    Desk(r.s.(users := users, occ := b.occ, present := RefreshStamped(b.occ, b.stamp, x.s.present, x.s.factor, batch)),
         r.tables, r.changes, b.stamp)
  }

  /** The batch comes through and leads from one desk to the other. */
  ghost predicate BatchRuns(w: World, x: Desk, k: Work, y: Desk) {
    && Fit(w, MemoryOf(w, x, k)) && |x.stamp| == |w.site.g| && Names(k.schedule, |w.lists|)
    && Through(w, RoutedOf(w, x, k))
    && Committed(w, x.s, RoutedOf(w, x, k), k.users)
    && AllTrack(x.s.users, k.users, k.acts, |w.site.g|) && Complete(k.acts, k.commits)
    && Interleaving.Fits(k.acts, k.commits) && OnBoard(Board(x.s.occ, x.stamp), Merge(k.acts, k.commits))
    && y == AfterCommits(x, RoutedOf(w, x, k), k.users, Merge(k.acts, k.commits), w.batch)
  }

  lemma ReadyBatch(w: World, x: Desk, k: Work, mine: seq<nat>)
    requires Fit(w, MemoryOf(w, x, k)) && Fitted(w.site, x.s) && InStep(w.D(), x.s, mine)
    requires forall n :: n in Flat(w.lists) ==> n in mine
    ensures Ready(w, MemoryOf(w, x, k))
  {
  }

  lemma CommittedState(d: Design, x: Desk, r: Memory, users: seq<Users>, run: seq<Act>, batch: int, tries: seq<Event>)
    requires Shaped(d, x.s) && Tries(d, tries) && r.s == Noted(d, x.s, tries)
    requires |x.stamp| == d.nodes && OnBoard(Board(x.s.occ, x.stamp), run)
    ensures var y := AfterCommits(x, r, users, run, batch);
            && y.s == AfterBatch(d, x.s, tries, users, run, x.stamp, batch) && y.tables == r.tables
            && y.changes == r.changes
            && StampedWith(x.stamp, y.stamp, batch)
  {
    StampsAfter(Board(x.s.occ, x.stamp), run, batch);
  }

  /** Where a batch leads to. */
  ghost predicate Leads(w: World, mine: seq<nat>, x: Desk, y: Desk, tries: seq<Event>) {
    && BatchDone(w.site, mine, x.s, w.lists, x.tables, y.tables, x.changes, y.changes, w.batch, tries)
    && y.s == Run(w.D(), x.s, tries) && StampedWith(x.stamp, y.stamp, w.batch)
  }

  /** Whatever its interleavings, a batch is what BatchDone says. */
  lemma BatchLeads(w: World, x: Desk, k: Work, y: Desk, mine: seq<nat>) returns (tries: seq<Event>)
    requires BatchRuns(w, x, k, y) && Fitted(w.site, x.s) && InStep(w.D(), x.s, mine) && NewBatch(x.stamp, w.batch)
    requires forall n :: n in Flat(w.lists) ==> n in mine
    ensures Leads(w, mine, x, y, tries)
  {
    ReadyBatch(w, x, k, mine);
    tries := BatchAnyInterleaving(w, MemoryOf(w, x, k), k.schedule, k.users, k.acts, k.commits, x.stamp, mine);
    CommittedState(w.D(), x, RoutedOf(w, x, k), k.users, Merge(k.acts, k.commits), w.batch, tries);
  }

  /**
   At a barrier in step, threads that all rest, none of them stopped inside a search, have come
   through exactly if none of the batch's nets is short; without a failed search they always do.
   */
  lemma BatchGoesOn(w: World, x: Desk, k: Work, mine: seq<nat>)
    requires Fit(w, MemoryOf(w, x, k)) && Fitted(w.site, x.s) && InStep(w.D(), x.s, mine)
    requires forall n :: n in Flat(w.lists) ==> n in mine
    requires Names(k.schedule, |w.lists|) && AllRest(w, RoutedOf(w, x, k))
    requires forall t: nat :: t < |w.lists| ==>
      var stage := RoutedOf(w, x, k).ctl[t].stage; stage.Halted? ==> stage.uncovered
    ensures Through(w, RoutedOf(w, x, k)) <==> NoneShort(w.D(), x.s, Flat(w.lists))
    ensures Exact(w.D(), x.s) ==> Through(w, RoutedOf(w, x, k))
  {
    ReadyBatch(w, x, k, mine);
    GoesOnExactly(w, MemoryOf(w, x, k), k.schedule);
    if Exact(w.D(), x.s) {
      forall n: nat | n < w.site.nets && n in Flat(w.lists)
        ensures !Short(w.D(), x.s, n)
      {
        NoLossNotShort(w.D(), x.s, n);
      }
    }
  }

  // The batches of an iteration

  /** The world of batch b. */
  function WorldOf(site: Site, netConns: seq<seq<nat>>, batches: seq<seq<seq<nat>>>, iter: nat, b: nat): World
    requires b < |batches|
  {
    World(site, netConns, batches[b], BatchStamp(iter, |batches|, b))
  }

  /** Batch after batch, each from the desk that the one before has left. */
  ghost predicate BatchesRun(site: Site, netConns: seq<seq<nat>>, batches: seq<seq<seq<nat>>>, iter: nat,
                             desks: seq<Desk>, works: seq<Work>) {
    && |works| == |batches| && |desks| == |batches| + 1
    && forall b {:trigger works[b]} :: 0 <= b < |batches| ==>
         BatchRuns(WorldOf(site, netConns, batches, iter, b), desks[b], works[b], desks[b + 1])
  }

  /** The connections of the nets that need routing. */
  ghost function Needy(d: Design, s: State, nets: seq<nat>): set<nat> {
    set c: nat | c < |d.conns| && d.conns[c].net in nets && Shaped(d, s) && ShouldRoute(d, s, c)
  }

  lemma TriedIsNeedy(d: Design, s: State, tries: seq<Event>, nets: seq<nat>)
    requires Shaped(d, s) && Tries(d, tries) && OnlyOf(d, tries, nets)
    requires AllVisited(d, s, tries, nets)
    ensures TriedIn(d, tries) == Needy(d, s, nets)
  {
    forall c: nat | c < |d.conns| ensures InTries(tries, c) <==> d.conns[c].net in nets && ShouldRoute(d, s, c) {
      if d.conns[c].net in nets { var i :| 0 <= i < |nets| && nets[i] == d.conns[c].net; }
    }
  }

  /** The connections that the first b batches search for: those that need routing when their batch begins. */
  ghost function SearchedBy(d: Design, batches: seq<seq<seq<nat>>>, desks: seq<Desk>, b: nat): set<nat>
    requires b <= |batches| && b < |desks|
  {
    if b == 0 then {} else SearchedBy(d, batches, desks, b - 1) + Needy(d, desks[b - 1].s, Flat(batches[b - 1]))
  }

  /** The iteration has come to batch b, on the given desk. */
  ghost predicate AtBatch(site: Site, batches: seq<seq<seq<nat>>>, iter: nat, b: nat, x: Desk, y: Desk,
                          searched: set<nat>, events: seq<Event>, starts: map<nat, State>, spare: bool)
  {
    && Arrived(site, batches, b, x.s, x.tables, x.changes, y.s, y.tables, y.changes, events, starts, spare)
    && |y.stamp| == |site.g| && Below(y.stamp, BatchStamp(iter, |batches|, b))
    && AllEarlier(y.changes, BatchStamp(iter, |batches|, b))
    && TriedIn(site.D(), events) == searched
  }

  /** What every iteration starts from. */
  ghost predicate Cleared(site: Site, batches: seq<seq<seq<nat>>>, iter: nat, x: Desk) {
    && Fitted(site, x.s) && Sound(site.D(), x.s) && InStep(site.D(), x.s, FlatAll(batches))
    && |x.tables| == |x.changes| && |x.stamp| == |site.g|
    && Below(x.stamp, BatchStamp(iter, |batches|, 0)) && AllEarlier(x.changes, BatchStamp(iter, |batches|, 0))
  }

  lemma FirstBatch(site: Site, batches: seq<seq<seq<nat>>>, iter: nat, x: Desk, spare: bool)
    requires Cleared(site, batches, iter, x)
    requires spare ==> SpareLater(site.D(), batches, 0, site.connectionIdBase, x.tables)
    ensures AtBatch(site, batches, iter, 0, x, x, {}, [], map[], spare)
  {
    ArrivedStart(site, batches, x.s, x.tables, x.changes, spare);
    assert TriedIn(site.D(), []) == {};
  }

  /** A batch that leads on takes the iteration to the next one. */
  lemma LeadsOn(site: Site, netConns: seq<seq<nat>>, batches: seq<seq<seq<nat>>>, iter: nat, b: nat, x: Desk, y: Desk,
                z: Desk, searched: set<nat>, events: seq<Event>, starts: map<nat, State>, spare: bool,
                tries: seq<Event>, w: World)
    requires b < |batches| && Spread(batches, |y.tables|, site.nets) && w == WorldOf(site, netConns, batches, iter, b)
    requires AtBatch(site, batches, iter, b, x, y, searched, events, starts, spare)
    requires Leads(w, FlatAll(batches), y, z, tries)
    ensures AtBatch(site, batches, iter, b + 1, x, z, searched + Needy(site.D(), y.s, Flat(batches[b])), events + tries,
                    StartsWith(starts, Flat(batches[b]), y.s), spare)
  {
    ArrivedNext(site, batches, b, x.s, x.tables, x.changes, y.s, y.tables, y.changes, events, starts, spare, z.tables,
                z.changes,
                w.batch, tries);
    TriedIsNeedy(site.D(), y.s, tries, Flat(batches[b]));
    TriedInAppend(site.D(), events, tries);
  }

  lemma NextBatch(site: Site, netConns: seq<seq<nat>>, batches: seq<seq<seq<nat>>>, iter: nat, b: nat, x: Desk, y: Desk,
                  k: Work, z: Desk, searched: set<nat>, events: seq<Event>, starts: map<nat, State>, spare: bool)
    returns (more: seq<Event>, begun: map<nat, State>)
    requires b < |batches| && Spread(batches, |y.tables|, site.nets)
    requires AtBatch(site, batches, iter, b, x, y, searched, events, starts, spare)
    requires BatchRuns(WorldOf(site, netConns, batches, iter, b), y, k, z)
    ensures AtBatch(site, batches, iter, b + 1, x, z, searched + Needy(site.D(), y.s, Flat(batches[b])), more, begun,
                    spare)
  {
    var w := WorldOf(site, netConns, batches, iter, b);
    BatchFits(batches, |y.tables|, site.nets, b, y.stamp, w.batch);
    var tries := BatchLeads(w, y, k, z, FlatAll(batches));
    more, begun := events + tries, StartsWith(starts, Flat(batches[b]), y.s);
    LeadsOn(site, netConns, batches, iter, b, x, y, z, searched, events, starts, spare, tries, w);
  }

  /** The iteration comes to each of its batches with books in order, and through all of them. */
  lemma {:induction false} BatchesLead(site: Site, netConns: seq<seq<nat>>, batches: seq<seq<seq<nat>>>, iter: nat,
                                       desks: seq<Desk>, works: seq<Work>, b: nat, spare: bool)
    returns (events: seq<Event>, starts: map<nat, State>)
    requires BatchesRun(site, netConns, batches, iter, desks, works) && b <= |batches|
    requires Cleared(site, batches, iter, desks[0]) && Spread(batches, |desks[0].tables|, site.nets)
    requires spare ==> SpareLater(site.D(), batches, 0, site.connectionIdBase, desks[0].tables)
    ensures AtBatch(site, batches, iter, b, desks[0], desks[b], SearchedBy(site.D(), batches, desks, b), events,
                    starts, spare)
  {
    if b == 0 {
      FirstBatch(site, batches, iter, desks[0], spare);
      events, starts := [], map[];
    } else {
      events, starts := BatchesLead(site, netConns, batches, iter, desks, works, b - 1, spare);
      assert BatchRuns(WorldOf(site, netConns, batches, iter, b - 1), desks[b - 1], works[b - 1], desks[b - 1 + 1]);
      events, starts := NextBatch(site, netConns, batches, iter, b - 1, desks[0], desks[b - 1], works[b - 1], desks[b],
                                  SearchedBy(site.D(), batches, desks, b - 1), events, starts, spare);
    }
  }
}
