/**
 The negotiation in parallel mode from the reserved sinks to its end (src/route/aStarRoute.cpp,
 lines 36-132, with useParallel set): batched iterations, then passes over the partition tree,
 a factor update after each.
 */
module ParallelRun {
  import opened Counting
  import opened Search
  import opened Ledger
  import opened Congestion
  import opened Convergence
  import opened Exclusive
  import opened SyncBatch
  import opened BatchVisits
  import opened BatchIteration
  import opened Site
  import opened Answered
  import opened Stamps
  import opened IterationLog
  import opened StampAccount
  import opened StableOutcome
  import opened ParallelBatches
  import opened ParallelPass
  import opened ParallelIteration

  /**
   What stays the same over all iterations: the site, the connections of each net, the nets
   of each batch and thread.
   */
  datatype Plan = Plan(site: Site, netConns: seq<seq<nat>>, batches: seq<seq<seq<nat>>>, threads: nat) {
    function D(): Design { site.D() }

    ghost predicate Valid() {
      ValidDesign(D()) && SinksDistinct(D()) && PinTypes(D()) && threads > 0 && Spread(batches, threads, site.nets)
    }
  }

  /** The site of an iteration: its own historical costs and first stamp, all else as planned. */
  ghost predicate SiteOf(p: Plan, base: nat, site: Site) {
    && |site.historical| == |site.g| && site == p.site.(connectionIdBase := base, historical := site.historical)
    && site.D() == p.D()
  }

  ghost function TriedBy(p: Plan, r: Round): set<nat> { Searched(p.batches, r) + Tried(r.log) }

  ghost function Sets(p: Plan, rounds: seq<Round>): seq<set<nat>> {
    if rounds == [] then [] else Sets(p, rounds[..|rounds| - 1]) + [TriedBy(p, rounds[|rounds| - 1])]
  }

  /** How many connections each iteration routes. */
  ghost function Numbers(p: Plan, rounds: seq<Round>): (r: seq<nat>)
    ensures |r| == |rounds|
  {
    if rounds == [] then [] else Numbers(p, rounds[..|rounds| - 1]) + [|TriedBy(p, rounds[|rounds| - 1])|]
  }

  /** What an iteration leaves after its factor update. */
  ghost function AfterRound(p: Plan, r: Round): Desk {
    if Shaped(p.D(), r.passed.s) then r.passed.(s := NewFactor(p.D(), r.passed.s, r.factor)) else r.passed
  }

  ghost function EndDesk(p: Plan, start: Desk, rounds: seq<Round>): Desk {
    if rounds == [] then start else AfterRound(p, rounds[|rounds| - 1])
  }

  lemma LastNumber(p: Plan, rounds: seq<Round>, prior: seq<Round>, r: Round)
    requires rounds != [] && prior == rounds[..|rounds| - 1] && r == rounds[|rounds| - 1]
    ensures Numbers(p, rounds) == Numbers(p, prior) + [|TriedBy(p, r)|]
    ensures Sets(p, rounds) == Sets(p, prior) + [TriedBy(p, r)]
  {
  }

  /** Only batched iterations so far: a pass over the tree switches the batches off for good. */
  ghost predicate Overlapping(rounds: seq<Round>) { forall k :: 0 <= k < |rounds| ==> rounds[k].batched }

  /** Iterations that come through, numbered from 1, each from the desk that the one before has left. */
  ghost predicate Runs(p: Plan, through: (nat, Round) -> bool, start: Desk, rounds: seq<Round>) {
    rounds != [] ==>
      var prior, r := rounds[..|rounds| - 1], rounds[|rounds| - 1];
      && Runs(p, through, start, prior) && SiteOf(p, Base(1, Numbers(p, prior), |prior|), r.site)
      && through(|rounds|, r) && |r.desks| > 0 && r.desks[0] == EndDesk(p, start, prior)
      && (r.batched ==> Overlapping(prior))
  }

  /** All that a run needs to know of its iterations: to begin in order is to end in order. */
  ghost predicate Leading(p: Plan, through: (nat, Round) -> bool) {
    forall iter: nat, r, spare :: through(iter, r) && Begins(p.batches, iter, r, spare) ==>
      RoundDone(p.batches, iter, r, spare) && BatchesDone(p.batches, iter, r, spare)
  }

  // What every iteration starts from and leaves

  /** The tables hold no stamps but those of the routed connections. */
  ghost predicate Accounted(numbers: seq<nat>, sets: seq<set<nat>>, n: nat, tables: seq<seq<NodeInfo>>) {
    RoutedSets(sets, numbers, n) && forall u: nat :: u < |tables| ==> Inscribed(1, numbers, sets, tables[u])
  }

  /**
   Books sound, costs in step with occupancies, paths that join their ends; tables with no
   stamps but those of the iterations before; stamps and numbers of earlier batches; while all
   iterations have been batched, positive counts for the nets that batches route; and sinks with
   their owners if the numbers of routed connections keep the stamps apart.
   */
  ghost predicate Kept(p: Plan, numbers: seq<nat>, sets: seq<set<nat>>, overlap: bool, x: Desk) {
    && InOrder(p.site, x) && |x.tables| == p.threads && Accounted(numbers, sets, |p.site.conns|, x.tables)
    && Below(x.stamp, BatchStamp(|numbers| + 1, |p.batches|, 0))
    && AllEarlier(x.changes, BatchStamp(|numbers| + 1, |p.batches|, 0))
    && (overlap ==> InStep(p.D(), x.s, FlatAll(p.batches)))
    && (Spaced(1, numbers, |p.site.conns|) ==> SinksOwned(p.D(), x.s))
  }

  /** Nothing is stamped yet. */
  ghost predicate Unstamped(p: Plan, x: Desk) {
    && |x.tables| == |x.changes| == p.threads && |x.stamp| == |p.site.g| && AllSized(x.tables, x.changes, |p.site.g|)
    && (forall u: nat, v: nat :: u < |x.tables| && v < |x.tables[u]| ==>
          x.tables[u][v].isVisited == -1 && x.tables[u][v].isTarget == -1)
    && (forall u: nat, v: nat :: u < |x.changes| && v < |x.changes[u]| ==> x.changes[u][v].stamp == -1)
    && forall v :: 0 <= v < |x.stamp| ==> x.stamp[v] == -1
  }

  /** The reserved sinks, before the first iteration. */
  ghost predicate Starts(p: Plan, factor: real, x: Desk) {
    p.Valid() && |p.site.boxes| == |p.site.conns| && Unstamped(p, x) && x.s == Reserved(p.D(), factor, |p.site.conns|)
  }

  /** Reserving the sinks leaves costs in step with occupancies and positive counts. */
  lemma ReservedInStep(d: Design, factor: real, nets: seq<nat>)
    requires ValidDesign(d)
    ensures InStep(d, Reserved(d, factor, |d.conns|), nets)
  {
    var s := Reserved(d, factor, |d.conns|);
    forall v: nat | v < d.nodes ensures s.present[v] == PresentCost(s.occ[v], s.factor) {
      ReservedTallied(d, factor, |d.conns|, v);
    }
    forall n: nat, v: nat | n < d.nets && v in s.users[n] ensures v < d.nodes && s.users[n][v] > 0 {
      ReservedKeys(d, factor, |d.conns|, n, v);
      ReservedTallied(d, factor, |d.conns|, v);
      assert PositiveAt(s.users[n], v);
    }
  }

  lemma KeptAtStart(p: Plan, factor: real, x: Desk)
    requires Starts(p, factor, x)
    ensures Kept(p, [], [], true, x)
  {
    ReservedIsExact(p.D(), factor);
    ReservedIsOwned(p.D(), factor);
    ReservedInStep(p.D(), factor, FlatAll(p.batches));
  }

  // From iteration to iteration

  lemma StillInOrder(p: Plan, base: nat, site: Site, x: Desk, y: Desk, tried: set<nat>)
    requires SiteOf(p, base, site) && InOrder(p.site, x) && Moved(site, x, y, tried)
    ensures InOrder(p.site, y)
  {
    MovedSizes(site, x, y, tried);
  }

  /** If the numbers keep the stamps apart, no table holds a stamp of the coming iteration. */
  lemma TablesSpare(site: Site, numbers: seq<nat>, sets: seq<set<nat>>, tables: seq<seq<NodeInfo>>)
    requires Accounted(numbers, sets, |site.conns|, tables) && NextSpaced(1, numbers, |site.conns|)
    requires site.connectionIdBase == Base(1, numbers, |numbers|)
    ensures AllSpare(site, tables)
  {
    forall u: nat, c: nat | u < |tables| && c < |site.conns| ensures Unused(site.Uid(c), tables[u]) {
      SpacedIsSpare(1, numbers, sets, |site.conns|, [c], tables[u]);
      assert Unused([c][0] + site.connectionIdBase, tables[u]);
    }
  }

  lemma KeptBegins(p: Plan, numbers: seq<nat>, sets: seq<set<nat>>, overlap: bool, r: Round)
    requires p.Valid() && |r.desks| > 0 && Kept(p, numbers, sets, overlap, r.desks[0]) && (r.batched ==> overlap)
    requires SiteOf(p, Base(1, numbers, |numbers|), r.site)
    ensures Begins(p.batches, |numbers| + 1, r, NextSpaced(1, numbers, |p.site.conns|))
  {
    if NextSpaced(1, numbers, |p.site.conns|) { TablesSpare(r.site, numbers, sets, r.desks[0].tables); }
  }

  lemma TablesNext(numbers: seq<nat>, sets: seq<set<nat>>, n: nat, x: Desk, y: Desk, tried: set<nat>)
    requires Accounted(numbers, sets, n, x.tables) && (forall c :: c in tried ==> c < n) && |x.tables| > 0
    requires TablesLeft(Base(1, numbers, |numbers|), tried, x.tables, y.tables, x.changes, y.changes)
    ensures Accounted(numbers + [|tried|], sets + [tried], n, y.tables)
    ensures Spaced(1, numbers + [|tried|], n) ==> Spaced(1, numbers, n) && (tried == {} || NextSpaced(1, numbers, n))
  {
    forall u: nat | u < |y.tables|
      ensures RoutedSets(sets + [tried], numbers + [|tried|], n)
      ensures Inscribed(1, numbers + [|tried|], sets + [tried], y.tables[u])
    {
      assert StampedBy(x.tables[u], y.tables[u], Base(1, numbers, |numbers|), tried);
      NextNumbers(1, numbers, sets, n, tried, |tried|, x.tables[u], y.tables[u]);
    }
    NextNumbers(1, numbers, sets, n, tried, |tried|, x.tables[0], y.tables[0]);
  }

  /** The factor update keeps everything in order. */
  lemma UpdateKeeps(site: Site, x: Desk, factor: real, nets: seq<nat>)
    requires InOrder(site, x)
    ensures var y := x.(s := NewFactor(site.D(), x.s, factor));
            && InOrder(site, y) && (InStep(site.D(), x.s, nets) ==> InStep(site.D(), y.s, nets))
            && (SinksOwned(site.D(), x.s) ==> SinksOwned(site.D(), y.s))
  {
    NewFactorKeepsSound(site.D(), x.s, factor);
    NewFactorKeepsCosts(site.D(), x.s, factor);
    if InStep(site.D(), x.s, nets) { NewFactorKeepsStep(site.D(), x.s, factor, nets); }
  }

  /** One iteration keeps what it starts from. */
  lemma KeptNext(p: Plan, numbers: seq<nat>, sets: seq<set<nat>>, overlap: bool, r: Round, more: seq<nat>,
                 others: seq<set<nat>>)
    requires p.Valid() && RoundDone(p.batches, |numbers| + 1, r, NextSpaced(1, numbers, |p.site.conns|))
    requires SiteOf(p, Base(1, numbers, |numbers|), r.site) && Kept(p, numbers, sets, overlap, r.desks[0])
    requires more == numbers + [|TriedBy(p, r)|] && others == sets + [TriedBy(p, r)]
    ensures Kept(p, more, others, r.batched, AfterRound(p, r))
  {
    var x, y, tried := r.desks[0], r.passed, TriedBy(p, r);
    StillInOrder(p, Base(1, numbers, |numbers|), r.site, x, y, tried);
    UpdateKeeps(p.site, y, r.factor, FlatAll(p.batches));
    TablesNext(numbers, sets, |p.site.conns|, x, y, tried);
  }

  lemma LastDone(p: Plan, through: (nat, Round) -> bool, start: Desk, rounds: seq<Round>, prior: seq<Round>, r: Round,
                 numbers: seq<nat>, sets: seq<set<nat>>)
    requires rounds != [] && prior == rounds[..|rounds| - 1] && r == rounds[|rounds| - 1]
    requires numbers == Numbers(p, prior)
    requires p.Valid() && Leading(p, through) && Runs(p, through, start, rounds)
    requires Kept(p, numbers, sets, Overlapping(prior), EndDesk(p, start, prior))
    ensures RoundDone(p.batches, |numbers| + 1, r, NextSpaced(1, numbers, |p.site.conns|))
  {
    KeptBegins(p, numbers, sets, Overlapping(prior), r);
  }

  lemma KeptStep(p: Plan, through: (nat, Round) -> bool, start: Desk, rounds: seq<Round>, prior: seq<Round>, r: Round,
                 numbers: seq<nat>, sets: seq<set<nat>>, more: seq<nat>, others: seq<set<nat>>)
    requires rounds != [] && prior == rounds[..|rounds| - 1] && r == rounds[|rounds| - 1]
    requires numbers == Numbers(p, prior)
    requires p.Valid() && Leading(p, through) && Runs(p, through, start, rounds)
    requires Kept(p, numbers, sets, Overlapping(prior), EndDesk(p, start, prior))
    requires more == numbers + [|TriedBy(p, r)|] && others == sets + [TriedBy(p, r)]
    ensures Kept(p, more, others, Overlapping(rounds), EndDesk(p, start, rounds))
  {
    LastDone(p, through, start, rounds, prior, r, numbers, sets);
    KeptNext(p, numbers, sets, Overlapping(prior), r, more, others);
  }

  /** Every run keeps it. */
  lemma {:induction false} RunKeeps(p: Plan, through: (nat, Round) -> bool, factor: real, start: Desk,
                                    rounds: seq<Round>)
    requires Starts(p, factor, start) && Leading(p, through) && Runs(p, through, start, rounds)
    ensures Kept(p, Numbers(p, rounds), Sets(p, rounds), Overlapping(rounds), EndDesk(p, start, rounds))
  {
    if rounds == [] {
      KeptAtStart(p, factor, start);
    } else {
      var prior, r := rounds[..|rounds| - 1], rounds[|rounds| - 1];
      RunKeeps(p, through, factor, start, prior);
      LastNumber(p, rounds, prior, r);
      KeptStep(p, through, start, rounds, prior, r, Numbers(p, prior), Sets(p, prior), Numbers(p, rounds),
               Sets(p, rounds));
    }
  }

  // Barriers

  /**
   A barrier of the run: books sound, every cached cost the image of its occupancy, paths that
   join their ends. If no search has failed the books are exact and every cached cost is one
   plus occupancy times factor. If the stamps were kept apart, sinks are their owners'.
   */
  ghost predicate Safe(p: Plan, x: Desk, apart: bool) {
    && Fitted(p.site, x.s) && Sound(p.D(), x.s) && CostsInStep(p.D(), x.s) && Joined(p.site, x.s)
    && (NoneFailed(p.D(), x.s) ==> Exact(p.D(), x.s) && CostFormula(p.D(), x.s)) && (apart ==> SinksOwned(p.D(), x.s))
  }

  ghost predicate NoneFailed(d: Design, s: State)
    requires Shaped(d, s)
  {
    forall c :: 0 <= c < |d.conns| ==> s.fails[c] == 0
  }

  ghost predicate CostFormula(d: Design, s: State)
    requires Shaped(d, s)
  {
    forall v: nat :: v < d.nodes ==> s.present[v] == 1.0 + s.occ[v] as real * s.factor
  }

  lemma InOrderIsSafe(p: Plan, x: Desk, apart: bool)
    requires InOrder(p.site, x) && (apart ==> SinksOwned(p.D(), x.s))
    ensures Safe(p, x, apart)
  {
    if NoneFailed(p.D(), x.s) {
      forall v: nat | v < p.D().nodes
        ensures x.s.present[v] == 1.0 + x.s.occ[v] as real * x.s.factor
      {
        CachedCost(p.D(), x.s, v);
      }
    }
  }

  lemma {:induction false} NumbersPrefix(p: Plan, rounds: seq<Round>, k: nat)
    requires k <= |rounds|
    ensures Numbers(p, rounds[..k]) == Numbers(p, rounds)[..k]
  {
    if k == |rounds| {
      assert rounds[..k] == rounds;
    } else {
      NumbersPrefix(p, rounds[..|rounds| - 1], k);
      TakeTake(rounds, |rounds| - 1, k);
    }
  }

  lemma SpacedPrefix(p: Plan, rounds: seq<Round>, k: nat)
    requires k <= |rounds| && Spaced(1, Numbers(p, rounds), |p.site.conns|)
    ensures Spaced(1, Numbers(p, rounds[..k]), |p.site.conns|)
  {
    NumbersPrefix(p, rounds, k);
    SpacedTake(1, Numbers(p, rounds), |p.site.conns|, k);
  }

  lemma {:induction false} RunsPrefix(p: Plan, through: (nat, Round) -> bool, start: Desk, rounds: seq<Round>, k: nat)
    requires Runs(p, through, start, rounds) && k <= |rounds|
    ensures Runs(p, through, start, rounds[..k])
  {
    if k == |rounds| {
      assert rounds[..k] == rounds;
    } else {
      RunsPrefix(p, through, start, rounds[..|rounds| - 1], k);
      TakeTake(rounds, |rounds| - 1, k);
    }
  }

  lemma {:induction false} SearchedMore(d: Design, batches: seq<seq<seq<nat>>>, desks: seq<Desk>, b: nat, e: nat)
    requires b <= e <= |batches| && e < |desks|
    ensures SearchedBy(d, batches, desks, b) <= SearchedBy(d, batches, desks, e)
  {
    if b < e { SearchedMore(d, batches, desks, b, e - 1); }
  }

  /** The desk before batch b, or after the last one. */
  lemma LastBatches(p: Plan, through: (nat, Round) -> bool, start: Desk, rounds: seq<Round>, prior: seq<Round>,
                    r: Round, numbers: seq<nat>, sets: seq<set<nat>>, b: nat)
    requires rounds != [] && prior == rounds[..|rounds| - 1] && r == rounds[|rounds| - 1]
    requires numbers == Numbers(p, prior)
    requires p.Valid() && Leading(p, through) && Runs(p, through, start, rounds)
    requires Kept(p, numbers, sets, Overlapping(prior), EndDesk(p, start, prior))
    requires r.batched && b <= |p.batches|
    ensures |r.desks| == |p.batches| + 1
    ensures Later(r.site, r.desks[0], r.desks[b], SearchedBy(r.site.D(), p.batches, r.desks, b),
                  BatchStamp(|rounds|, |p.batches|, b),
                  NextSpaced(1, numbers, |p.site.conns|))
    ensures InStep(r.site.D(), r.desks[b].s, FlatAll(p.batches))
  {
    KeptBegins(p, numbers, sets, Overlapping(prior), r);
    assert BatchesDone(p.batches, |rounds|, r, NextSpaced(1, numbers, |p.site.conns|));
    assert BatchLater(p.batches, |rounds|, r, b, NextSpaced(1, numbers, |p.site.conns|));
  }

  lemma LaterIsSafe(p: Plan, numbers: seq<nat>, sets: seq<set<nat>>, overlap: bool, r: Round, b: nat, more: seq<nat>,
                    stamp: int)
    requires r.batched && |r.desks| == |p.batches| + 1 && b <= |p.batches|
    requires SiteOf(p, Base(1, numbers, |numbers|), r.site)
    requires Kept(p, numbers, sets, overlap, r.desks[0]) && more == numbers + [|TriedBy(p, r)|]
    requires Later(r.site, r.desks[0], r.desks[b], SearchedBy(r.site.D(), p.batches, r.desks, b), stamp,
                   NextSpaced(1, numbers, |p.site.conns|))
    ensures Safe(p, r.desks[b], Spaced(1, more, |p.site.conns|))
  {
    var searched := SearchedBy(r.site.D(), p.batches, r.desks, b);
    StillInOrder(p, Base(1, numbers, |numbers|), r.site, r.desks[0], r.desks[b], searched);
    if Spaced(1, more, |p.site.conns|) {
      SpacedBefore(1, numbers, more, |p.site.conns|);
      SearchedMore(r.site.D(), p.batches, r.desks, b, |p.batches|);
      assert |TriedBy(p, r)| == 0 ==> TriedBy(p, r) == {};
    }
    InOrderIsSafe(p, r.desks[b], Spaced(1, more, |p.site.conns|));
  }

  /** The barriers inside the last iteration of a run. */
  lemma LastBarrier(p: Plan, through: (nat, Round) -> bool, factor: real, start: Desk, rounds: seq<Round>, b: nat)
    requires Starts(p, factor, start) && Leading(p, through) && Runs(p, through, start, rounds) && rounds != []
    requires rounds[|rounds| - 1].batched && b <= |p.batches|
    ensures b < |rounds[|rounds| - 1].desks|
    ensures Safe(p, rounds[|rounds| - 1].desks[b], Spaced(1, Numbers(p, rounds), |p.site.conns|))
    ensures InStep(p.D(), rounds[|rounds| - 1].desks[b].s, FlatAll(p.batches))
  {
    var prior, r := rounds[..|rounds| - 1], rounds[|rounds| - 1];
    RunKeeps(p, through, factor, start, prior);
    LastBatches(p, through, start, rounds, prior, r, Numbers(p, prior), Sets(p, prior), b);
    LastNumber(p, rounds, prior, r);
    LaterIsSafe(p, Numbers(p, prior), Sets(p, prior), Overlapping(prior), r, b, Numbers(p, rounds),
                BatchStamp(|rounds|, |p.batches|, b));
  }

  /** After every factor update the run is safe. */
  lemma EndIsSafe(p: Plan, through: (nat, Round) -> bool, factor: real, start: Desk, rounds: seq<Round>, k: nat)
    requires Starts(p, factor, start) && Leading(p, through) && Runs(p, through, start, rounds) && k <= |rounds|
    ensures Safe(p, EndDesk(p, start, rounds[..k]), Spaced(1, Numbers(p, rounds), |p.site.conns|))
  {
    var apart := Spaced(1, Numbers(p, rounds), |p.site.conns|);
    RunsPrefix(p, through, start, rounds, k);
    RunKeeps(p, through, factor, start, rounds[..k]);
    if apart { SpacedPrefix(p, rounds, k); }
    InOrderIsSafe(p, EndDesk(p, start, rounds[..k]), apart);
  }

  lemma SafeApart(p: Plan, rounds: seq<Round>, upto: seq<Round>, x: Desk)
    requires upto <= rounds && Safe(p, x, Spaced(1, Numbers(p, upto), |p.site.conns|))
    ensures Safe(p, x, Spaced(1, Numbers(p, rounds), |p.site.conns|))
  {
    assert rounds[..|upto|] == upto;
    if Spaced(1, Numbers(p, rounds), |p.site.conns|) { SpacedPrefix(p, rounds, |upto|); }
  }

  /** Safe, and in step for the nets of the batches, before batch b or after the last one. */
  ghost predicate SafeAt(p: Plan, r: Round, b: nat, apart: bool) {
    b < |r.desks| && Safe(p, r.desks[b], apart) && InStep(p.D(), r.desks[b].s, FlatAll(p.batches))
  }

  lemma BarrierIsSafe(p: Plan, through: (nat, Round) -> bool, factor: real, start: Desk, rounds: seq<Round>, k: nat,
                      b: nat)
    requires Starts(p, factor, start) && Leading(p, through) && Runs(p, through, start, rounds)
    requires k < |rounds| && rounds[k].batched && b <= |p.batches|
    ensures SafeAt(p, rounds[k], b, Spaced(1, Numbers(p, rounds), |p.site.conns|))
  {
    var upto := rounds[..k + 1];
    assert upto != [] && upto[|upto| - 1] == rounds[k];
    RunsPrefix(p, through, start, rounds, k + 1);
    LastBarrier(p, through, factor, start, upto, b);
    SafeApart(p, rounds, upto, rounds[k].desks[b]);
  }

  // The end of the run

  ghost predicate Legal(d: Design, s: State)
    requires Shaped(d, s)
  {
    AllPathsPresent(d, s) && NodesDisjoint(d, s)
  }

  /**
   What is known at the exit. Without overuse, and with the stamps kept apart or no failed
   search, the routing is legal exactly if every routed flag is set, and it is legal if it is
   served: if the last iteration was a tree pass without a failed search.
   */
  ghost predicate Ends(p: Plan, x: Desk, apart: bool, served: bool) {
    && Safe(p, x, apart) && (served ==> AllPathsPresent(p.D(), x.s))
    && (NoOveruse(p.D(), x.s) && (apart || NoneFailed(p.D(), x.s)) ==>
          && (Legal(p.D(), x.s) <==> forall c :: 0 <= c < |p.site.conns| ==> x.s.routed[c])
          && (served ==> Legal(p.D(), x.s)))
  }

  lemma SafeEnds(p: Plan, x: Desk, apart: bool, served: bool)
    requires Safe(p, x, apart) && (served ==> AllPathsPresent(p.D(), x.s))
    ensures Ends(p, x, apart, served)
  {
    if NoOveruse(p.D(), x.s) {
      if apart {
        LegalIffRouted(p.D(), x.s);
      } else if NoneFailed(p.D(), x.s) && AllPathsPresent(p.D(), x.s) {
        OveruseIsSharing(p.D(), x.s);
      }
    }
  }

  /** The last iteration was a pass over the whole tree, and none of its searches failed. */
  ghost predicate Served(rounds: seq<Round>) {
    rounds != [] && !rounds[|rounds| - 1].batched && Failures(rounds[|rounds| - 1].log) == 0
  }

  lemma LastPassServes(p: Plan, through: (nat, Round) -> bool, factor: real, start: Desk, rounds: seq<Round>)
    requires Starts(p, factor, start) && Leading(p, through) && Runs(p, through, start, rounds) && Served(rounds)
    ensures Shaped(p.D(), EndDesk(p, start, rounds).s) && AllPathsPresent(p.D(), EndDesk(p, start, rounds).s)
  {
    var prior, r := rounds[..|rounds| - 1], rounds[|rounds| - 1];
    RunKeeps(p, through, factor, start, prior);
    LastDone(p, through, start, rounds, prior, r, Numbers(p, prior), Sets(p, prior));
  }

  lemma RunEnds(p: Plan, through: (nat, Round) -> bool, factor: real, start: Desk, rounds: seq<Round>)
    requires Starts(p, factor, start) && Leading(p, through) && Runs(p, through, start, rounds)
    ensures Ends(p, EndDesk(p, start, rounds), Spaced(1, Numbers(p, rounds), |p.site.conns|), Served(rounds))
  {
    assert rounds[..|rounds|] == rounds;
    EndIsSafe(p, through, factor, start, rounds, |rounds|);
    if Served(rounds) { LastPassServes(p, through, factor, start, rounds); }
    SafeEnds(p, EndDesk(p, start, rounds), Spaced(1, Numbers(p, rounds), |p.site.conns|), Served(rounds));
  }

  /** Safe after every factor update. */
  ghost predicate SafeUpdates(p: Plan, start: Desk, rounds: seq<Round>, apart: bool) {
    forall k: nat :: k <= |rounds| ==> Safe(p, EndDesk(p, start, rounds[..k]), apart)
  }

  /** Safe before, between and after the batches of an iteration. */
  ghost predicate SafeBatches(p: Plan, r: Round, apart: bool) {
    forall b: nat :: b <= |p.batches| ==> SafeAt(p, r, b, apart)
  }

  ghost predicate SafeBarriers(p: Plan, rounds: seq<Round>, apart: bool) {
    forall k: nat :: k < |rounds| && rounds[k].batched ==> SafeBatches(p, rounds[k], apart)
  }

  lemma UpdatesAreSafe(p: Plan, through: (nat, Round) -> bool, factor: real, start: Desk, rounds: seq<Round>)
    requires Starts(p, factor, start) && Leading(p, through) && Runs(p, through, start, rounds)
    ensures SafeUpdates(p, start, rounds, Spaced(1, Numbers(p, rounds), |p.site.conns|))
  {
    forall k: nat | k <= |rounds| ensures Safe(p, EndDesk(p, start, rounds[..k]),
                                               Spaced(1, Numbers(p, rounds), |p.site.conns|)) {
      EndIsSafe(p, through, factor, start, rounds, k);
    }
  }

  lemma BatchesAreSafe(p: Plan, through: (nat, Round) -> bool, factor: real, start: Desk, rounds: seq<Round>, k: nat)
    requires Starts(p, factor, start) && Leading(p, through) && Runs(p, through, start, rounds)
    requires k < |rounds| && rounds[k].batched
    ensures SafeBatches(p, rounds[k], Spaced(1, Numbers(p, rounds), |p.site.conns|))
  {
    forall b: nat | b <= |p.batches|
      ensures SafeAt(p, rounds[k], b, Spaced(1, Numbers(p, rounds), |p.site.conns|))
    {
      BarrierIsSafe(p, through, factor, start, rounds, k, b);
    }
  }

  lemma BarriersAreSafe(p: Plan, through: (nat, Round) -> bool, factor: real, start: Desk, rounds: seq<Round>)
    requires Starts(p, factor, start) && Leading(p, through) && Runs(p, through, start, rounds)
    ensures SafeBarriers(p, rounds, Spaced(1, Numbers(p, rounds), |p.site.conns|))
  {
    forall k: nat | k < |rounds| && rounds[k].batched
      ensures SafeBatches(p, rounds[k], Spaced(1, Numbers(p, rounds), |p.site.conns|))
    {
      BatchesAreSafe(p, through, factor, start, rounds, k);
    }
  }

  /**
   A whole run from the reserved sinks, over any number of batched iterations and later tree
   passes: safe after every factor update and at every barrier between batches, and at the end
   as Ends says.
   */
  lemma RunIsSafe(p: Plan, through: (nat, Round) -> bool, factor: real, start: Desk, rounds: seq<Round>, apart: bool)
    requires Starts(p, factor, start) && Leading(p, through) && Runs(p, through, start, rounds)
    requires apart == Spaced(1, Numbers(p, rounds), |p.site.conns|)
    ensures SafeUpdates(p, start, rounds, apart) && SafeBarriers(p, rounds, apart)
    ensures Ends(p, EndDesk(p, start, rounds), apart, Served(rounds))
  {
    UpdatesAreSafe(p, through, factor, start, rounds);
    BarriersAreSafe(p, through, factor, start, rounds);
    RunEnds(p, through, factor, start, rounds);
  }

  // The program's own iterations

  /** Batches and passes as the program runs them, threads, commits and levels in any interleavings. */
  ghost function Interleaved(p: Plan): (nat, Round) -> bool {
    (iter: nat, r: Round) => RoundRuns(p.netConns, p.batches, iter, r)
  }

  lemma InterleavedLead(p: Plan)
    ensures Leading(p, Interleaved(p))
  {
    forall iter: nat, r, spare | Interleaved(p)(iter, r) && Begins(p.batches, iter, r, spare)
      ensures RoundDone(p.batches, iter, r, spare) && BatchesDone(p.batches, iter, r, spare)
    {
      RoundLeads(p.netConns, p.batches, iter, r, spare);
      RoundBarriers(p.netConns, p.batches, iter, r, spare);
    }
  }

  /**
   The negotiation in parallel mode: from the reserved sinks, over batched iterations, tree
   passes and factor updates, in any interleavings, the run is safe at every barrier and ends
   as Ends says.
   */
  lemma ParallelNegotiation(p: Plan, factor: real, start: Desk, rounds: seq<Round>, apart: bool)
    requires Starts(p, factor, start) && Runs(p, Interleaved(p), start, rounds)
    requires apart == Spaced(1, Numbers(p, rounds), |p.site.conns|)
    ensures SafeUpdates(p, start, rounds, apart) && SafeBarriers(p, rounds, apart)
    ensures Ends(p, EndDesk(p, start, rounds), apart, Served(rounds))
  {
    InterleavedLead(p);
    RunIsSafe(p, Interleaved(p), factor, start, rounds, apart);
  }
}
