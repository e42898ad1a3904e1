/**
 The threads of a batch come to an end: every step of an unfinished thread brings it nearer
 to its end, so that every schedule which goes on naming each thread reaches the barrier.
 */
module BatchTermination {
  import opened Counting
  import opened Interleaving
  import opened SearchMachine
  import opened SearchSteps
  import opened Ledger
  import opened Congestion
  import opened SyncBatch
  import opened Alarms
  import opened BatchCover
  import opened BatchNotes
  import opened BatchAnswers
  import opened BatchVisits
  import opened Answered
  import opened BatchMachine
  import opened BatchSolo
  import opened BatchThread
  import opened BatchConfluence

  // A thread alone

  /** Thread t has done nothing but work of its share since b. */
  ghost predicate AtWork(w: World, b: Origin, t: nat, x: Memory) {
    OriginOk(w, b, t) && exists trace :: Doing(w, b, x, t, trace)
  }

  ghost function AtWorkIn(w: World, b: Origin, t: nat): Memory -> bool { (x: Memory) => AtWork(w, b, t, x) }

  /** A thread before its first net. */
  ghost predicate Starts(w: World, b: Origin, m: Memory, t: nat) {
    && OriginOk(w, b, t) && Fit(w, m) && m.ctl[t] == Control(0, Fetch) && m.tables[t] == b.table
    && m.changes[t] == b.changes
    && m.s == Noted(w.D(), b.s, b.tries) && OnlyOf(w.D(), b.tries, b.done)
    && DoneNotes(w, b.s, b.tries, m.incs, m.decs, b.done)
  }

  lemma DoingStart(w: World, b: Origin, m: Memory, t: nat)
    requires Starts(w, b, m, t)
    ensures Doing(w, b, m, t, Trace(b.tries, b.tries, b.table, b.table, map[]))
  {
    ShareStart(w.site, b.s, b.table, b.tries);
    assert w.lists[t][..0] == [] && b.done + [] == b.done && ThreadFits(w, m, t);
    NotedFrozen(w.D(), b.s, b.tries);
  }

  lemma {:induction false} NotedFrozen(d: Design, s: State, tries: seq<Event>)
    requires Shaped(d, s) && Tries(d, tries)
    ensures Frozen(Noted(d, s, tries), s)
  {
    if |tries| > 0 { NotedFrozen(d, s, tries[..|tries| - 1]); }
  }

  lemma AloneDoing(w: World, b: Origin, m: Memory, t: nat, k: nat) returns (x: Trace)
    requires Starts(w, b, m, t)
    ensures Doing(w, b, Alone(StepIn(w), m, t, k), t, x)
  {
    DoingStart(w, b, m, t);
    forall y | AtWork(w, b, t, y) ensures AtWork(w, b, t, Step(w, y, t)) {
      var trace :| Doing(w, b, y, t, trace);
      var more := StepDoing(w, b, y, t, trace);
    }
    AloneKeeps(StepIn(w), m, t, k, AtWorkIn(w, b, t));
    x :| Doing(w, b, Alone(StepIn(w), m, t, k), t, x);
  }

  // Nearer with every step

  /** How far a thread is from its end: nets left, connections left, stage, work left in the stage. */
  datatype Distance = Distance(nets: nat, conns: nat, stage: nat, work: Rank)

  predicate Nearer(a: Distance, b: Distance) {
    a.nets < b.nets ||
    (a.nets == b.nets && (a.conns < b.conns ||
      (a.conns == b.conns && (a.stage < b.stage || (a.stage == b.stage && Less(a.work, b.work))))))
  }

  function Rest(n: nat, k: nat): nat { if k <= n then n - k else 0 }

  ghost function DistanceOf(w: World, ctl: Control, t: nat): Distance
    requires w.Valid() && t < |w.lists|
  {
    var nets := Rest(|w.lists[t]|, ctl.k);
    var conns := if ctl.k < |w.lists[t]| then |w.netConns[w.lists[t][ctl.k]]| else 0;
    match ctl.stage
    case Fetch => Distance(nets, conns + 1, 0, Rank(0, 0, 0))
    case Visit(_, j) => Distance(nets, Rest(conns, j), 2, Rank(0, 0, 0))
    case Searching(_, j, probe) => Distance(nets, Rest(conns, j), 1, RankOf(|w.site.g|, probe))
    case Halted(_) => Distance(nets, 0, 0, Rank(0, 0, 0))
  }

  /** The search goes on with less work left, or has ended with a path of nodes, with none, or stopped. */
  ghost predicate GoesOn(w: World, m: Memory, t: nat, c: nat, probe: Probe)
    requires Fit(w, m) && t < |w.lists| && c < |w.site.conns|
  {
    var q := QueryAt(w, m, t, c);
    if probe.phase.Ended? then probe.phase.outcome.Stopped? || InNodes(probe.phase.path, |w.site.g|)
    else
      InRange(q, m.tables[t], probe) && Less(RankOf(|w.site.g|, Next(q, m.tables[t], probe).probe),
                                             RankOf(|w.site.g|, probe))
  }

  lemma SearchGoesOn(w: World, s: State, n: nat, m: Memory, t: nat, x: Trace, before: seq<seq<nat>>, j: nat, c: nat,
                     probe: Probe)
    requires Fit(w, m) && t < |w.lists| && Fitted(w.site, s) && Tries(w.D(), x.tries) && Frozen(m.s, s)
    requires n < w.site.nets
    requires j < |w.netConns[n]| && c == w.netConns[n][j]
    requires Midway(w, s, n, x, m.s, m.incs[n], m.decs[n], m.tables[t], m.changes[t], Searching(before, j, probe))
    ensures c < |w.site.conns| && GoesOn(w, m, t, c, probe)
  {
    NotTriedYet(w, s, n, x, x.table, j);
    if probe.phase.Ended? {
      if !probe.phase.outcome.Stopped? {
        SearchAnswer(w, s, n, x, m.s, m.incs[n], m.decs[n], m.tables[t], m.changes[t], j, c, probe,
                     probe.phase.outcome, probe.phase.path);
      }
    } else {
      SameQuery(w, s, m, t, c);
      NextProgresses(QueryAt(w, m, t, c), x.table, m.tables[t], probe);
    }
  }

  lemma MoveNearer(w: World, n: nat, m: Memory, t: nat, before: seq<seq<nat>>, j: nat, c: nat, probe: Probe)
    requires Fit(w, m) && t < |w.lists| && m.ctl[t].k < |w.lists[t]| && n == w.lists[t][m.ctl[t].k] && n < w.site.nets
    requires j < |w.netConns[n]| && c == w.netConns[n][j] && m.ctl[t].stage == Searching(before, j, probe)
    requires c < |w.site.conns| && GoesOn(w, m, t, c, probe)
    ensures Nearer(DistanceOf(w, SearchStep(w, m, t, n, before, j, probe).ctl, t), DistanceOf(w, m.ctl[t], t))
  {
  }

  lemma SearchNearer(w: World, s: State, n: nat, m: Memory, t: nat, x: Trace, before: seq<seq<nat>>, j: nat,
                     probe: Probe)
    requires Fit(w, m) && t < |w.lists| && Fitted(w.site, s) && Tries(w.D(), x.tries) && Frozen(m.s, s)
    requires n < w.site.nets
    requires m.ctl[t].k < |w.lists[t]| && n == w.lists[t][m.ctl[t].k] && j < |w.netConns[n]|
    requires m.ctl[t].stage == Searching(before, j, probe)
    requires Midway(w, s, n, x, m.s, m.incs[n], m.decs[n], m.tables[t], m.changes[t], Searching(before, j, probe))
    ensures Nearer(DistanceOf(w, SearchStep(w, m, t, n, before, j, probe).ctl, t), DistanceOf(w, m.ctl[t], t))
  {
    SearchGoesOn(w, s, n, m, t, x, before, j, w.netConns[n][j], probe);
    MoveNearer(w, n, m, t, before, j, w.netConns[n][j], probe);
  }

  lemma OtherNearer(w: World, m: Memory, t: nat)
    requires Fit(w, m) && t < |w.lists| && ThreadFits(w, m, t) && !Resting(w, m, t) && !m.ctl[t].stage.Searching?
    ensures Nearer(DistanceOf(w, StepEffect(w, m, t).ctl, t), DistanceOf(w, m.ctl[t], t))
  {
  }

  lemma EffectNearer(w: World, b: Origin, m: Memory, t: nat, x: Trace)
    requires OriginOk(w, b, t) && Doing(w, b, m, t, x) && !Resting(w, m, t)
    ensures Nearer(DistanceOf(w, StepEffect(w, m, t).ctl, t), DistanceOf(w, m.ctl[t], t))
  {
    var n := w.lists[t][m.ctl[t].k];
    match m.ctl[t].stage
    case Searching(before, j, probe) => SearchNearer(w, b.s, n, m, t, x, before, j, probe);
    case _ => OtherNearer(w, m, t);
  }

  /** Every step of an unfinished thread brings it nearer to its end. */
  lemma StepNearer(w: World, b: Origin, m: Memory, t: nat, x: Trace)
    requires OriginOk(w, b, t) && Doing(w, b, m, t, x) && !Resting(w, m, t)
    ensures t < |Step(w, m, t).ctl| && Nearer(DistanceOf(w, Step(w, m, t).ctl[t], t), DistanceOf(w, m.ctl[t], t))
  {
    EffectIsOwn(w, m, t);
    EffectNearer(w, b, m, t, x);
  }

  /** Moving alone, a thread comes to rest. */
  lemma {:induction false} AloneEnds(w: World, b: Origin, m: Memory, t: nat, x: Trace) returns (k: nat)
    requires OriginOk(w, b, t) && Doing(w, b, m, t, x)
    ensures var r := Alone(StepIn(w), m, t, k); |r.ctl| == |w.lists| && Resting(w, r, t)
    decreases DistanceOf(w, m.ctl[t], t).nets, DistanceOf(w, m.ctl[t], t).conns, DistanceOf(w, m.ctl[t], t).stage,
              DistanceOf(w, m.ctl[t], t).work.phase, DistanceOf(w, m.ctl[t], t).work.queue,
              DistanceOf(w, m.ctl[t], t).work.rest
  {
    k := 0;
    if !Resting(w, m, t) {
      var more := StepDoing(w, b, m, t, x);
      StepNearer(w, b, m, t, x);
      k := AloneEnds(w, b, Step(w, m, t), t, more);
      AloneShift(StepIn(w), m, t, k);
      k := k + 1;
    }
  }

  // The batch

  /** Every thread stands before its first net. */
  ghost predicate Ready(w: World, m: Memory) {
    && Fit(w, m) && Fitted(w.site, m.s)
    && (forall n: nat :: n < w.site.nets && n in Flat(w.lists) ==> SwiftSync.Positive(m.s.users[n], |w.site.g|))
    && forall t: nat :: t < |w.lists| ==> m.ctl[t] == Control(0, Fetch)
  }

  /** Where thread t starts when it runs first. */
  function First(m: Memory, t: nat): Origin
    requires t < |m.tables| == |m.changes|
  {
    Origin(m.s, [], m.tables[t], m.changes[t], [])
  }

  lemma StartsFirst(w: World, m: Memory, t: nat)
    requires Ready(w, m) && t < |w.lists|
    ensures Starts(w, First(m, t), m, t)
  {
    FlatStep(w.lists, t);
    TailNoRepeat(Flat(w.lists[..t]), w.lists[t]);
    assert [] + w.lists[t] == w.lists[t] && ThreadFits(w, m, t);
    forall i | 0 <= i < |w.lists[t]|
      ensures SwiftSync.Positive(m.s.users[w.lists[t][i]], |w.site.g|)
    {
      assert w.lists[t][i] in Flat(w.lists);
    }
  }

  /** A thread that rests when it has moved so often alone rests in every schedule that names it at least as often. */
  lemma NamedEnough(w: World, m: Memory, a: seq<nat>, t: nat, k: nat)
    requires Fit(w, m) && Names(a, |w.lists|) && t < |w.lists| && k <= Count(a, t)
    requires var r := Alone(StepIn(w), m, t, k); |r.ctl| == |w.lists| && Resting(w, r, t)
    ensures var r := Play(StepIn(w), m, a); |r.ctl| == |w.lists| && Resting(w, r, t)
  {
    BatchIsSeparate(w);
    AsIfAlone(StepIn(w), FitIn(w), PartIn(w), |w.lists|, m, a, t);
    RestLasts(StepIn(w), m, t, k, Count(a, t));
  }

  lemma {:induction false} TurnsOf(w: World, m: Memory, n: nat) returns (turns: seq<nat>)
    requires Ready(w, m) && n <= |w.lists|
    ensures |turns| == n
    ensures forall t: nat :: t < n ==>
      (var r := Alone(StepIn(w), m, t, turns[t]); |r.ctl| == |w.lists| && Resting(w, r, t))
  {
    turns := [];
    if n > 0 {
      turns := TurnsOf(w, m, n - 1);
      var t: nat := n - 1;
      StartsFirst(w, m, t);
      DoingStart(w, First(m, t), m, t);
      var k := AloneEnds(w, First(m, t), m, t, Trace([], [], m.tables[t], m.tables[t], map[]));
      turns := turns + [k];
    }
  }

  /**
   A batch reaches its barrier: there is a number of turns for each thread such that every
   schedule which gives each thread at least so many brings all threads to rest.
   */
  lemma BatchEnds(w: World, m: Memory) returns (turns: seq<nat>)
    requires Ready(w, m)
    ensures |turns| == |w.lists|
    ensures forall a :: Names(a, |w.lists|) && (forall t: nat :: t < |w.lists| ==> turns[t] <= Count(a, t)) ==>
              AllRest(w, Play(StepIn(w), m, a))
  {
    turns := TurnsOf(w, m, |w.lists|);
    forall a | Names(a, |w.lists|) && (forall t: nat :: t < |w.lists| ==> turns[t] <= Count(a, t))
      ensures AllRest(w, Play(StepIn(w), m, a))
    {
      PlayUntouched(w, m, a);
      forall t: nat | t < |w.lists| ensures Resting(w, Play(StepIn(w), m, a), t) { NamedEnough(w, m, a, t, turns[t]); }
    }
  }

  // Why a batch stops

  /**
   A thread that has halted, in whatever schedule, met a net that was short at the last
   barrier, or, if the books and tables are in order, a pin or line that must not be met, or a
   search that failed before the batch.
   */
  lemma HaltCause(w: World, m: Memory, a: seq<nat>, t: nat)
    requires Ready(w, m) && Names(a, |w.lists|) && t < |w.lists|
    requires var r := Play(StepIn(w), m, a); t < |r.ctl| && r.ctl[t].stage.Halted?
    ensures Play(StepIn(w), m, a).ctl[t].stage.uncovered ==> !NoneShort(w.D(), m.s, w.lists[t])
    ensures
      !Play(StepIn(w), m, a).ctl[t].stage.uncovered && Orderly(w.site, m.s) && Earlier(m.changes[t], w.batch) &&
      SpareNets(w.D(), SetOf(w.lists[t]), w.site.connectionIdBase, m.tables[t]) ==>
        MayStop(w.site.g, m.s)
  {
    BatchIsSeparate(w);
    AsIfAlone(StepIn(w), FitIn(w), PartIn(w), |w.lists|, m, a, t);
    StartsFirst(w, m, t);
    var x := AloneDoing(w, First(m, t), m, t, Count(a, t));
    StopOf(w, First(m, t), Alone(StepIn(w), m, t, Count(a, t)), t, x);
  }

  lemma StopOf(w: World, b: Origin, m: Memory, t: nat, x: Trace)
    requires OriginOk(w, b, t) && Doing(w, b, m, t, x) && m.ctl[t].stage.Halted?
    ensures m.ctl[t].stage.uncovered ==> !NoneShort(w.D(), b.s, w.lists[t])
    ensures
      !m.ctl[t].stage.uncovered && Orderly(w.site, b.s) && Earlier(b.changes, w.batch) &&
      SpareNets(w.D(), SetOf(w.lists[t]), w.site.connectionIdBase, b.table) ==>
        MayStop(w.site.g, b.s)
  {
    if m.ctl[t].stage.uncovered {
      assert Short(w.D(), b.s, w.lists[t][m.ctl[t].k]);
    } else {
      TailNoRepeat(b.done, w.lists[t]);
      ShareStop(w.site, b.s, w.netConns, w.lists[t], m.ctl[t].k, b.table, x.netTable, b.changes, m.changes[t], w.batch,
                b.tries, x.netTries);
    }
  }
}
