/**
 The tasks of a level come to an end: every step of an unfinished task brings it nearer to
 its end, so that every schedule which goes on naming each task brings the level to rest.
 */
module LevelTermination {
  import opened Counting
  import opened Interleaving
  import opened Search
  import opened SearchMachine
  import opened SearchSteps
  import opened Congestion
  import opened Alarms
  import opened Site
  import opened IterationLog
  import opened LevelMachine
  import opened LevelSchedule
  import opened LevelConfluence
  import opened LevelOutcome

  /** How far a task is from its end: connections left, stage, work left in the stage. */
  datatype Distance = Distance(left: nat, stage: nat, work: Rank)

  predicate Nearer(a: Distance, b: Distance) {
    a.left < b.left || (a.left == b.left && (a.stage < b.stage || (a.stage == b.stage && Less(a.work, b.work))))
  }

  ghost function DistanceOf(w: World, m: Memory, t: nat): Distance
    requires Fit(w, m) && t < |w.tasks|
  {
    var p, n := m.ctl[t].next, |w.tasks[t]|;
    match m.ctl[t].stage
    case Idle => Distance(n - p, 4, Rank(0, 0, 0))
    case Releasing(nodes, i) => Distance(n - p, 3, Rank(0, 0, if i <= |nodes| then |nodes| - i else 0))
    case Searching(probe) => Distance(n - p, 2, RankOf(|w.site.g|, probe))
    case Claiming(path, j) => Distance(n - p, 1, Rank(0, 0, if j <= |path| then |path| - j else 0))
    case Halted => Distance(n - p, 0, Rank(0, 0, 0))
  }

  lemma SearchNearer(w: World, m: Memory, t: nat, s: State, table: seq<NodeInfo>, c: nat, probe: Probe)
    requires Fit(w, m) && Shaped(w.D(), s) && t < |w.tasks| && TaskOk(w, m, t) && !Resting(w, m, t)
    requires c == w.tasks[t][m.ctl[t].next] && m.ctl[t].stage == Searching(probe)
    requires AtSearch(w, s, table, m.s, m.info, c, probe)
    requires LeavesOk(w, m, t, c, StepEffect(w, m, t))
    ensures Nearer(DistanceOf(w, Write(m, t, StepEffect(w, m, t)), t), DistanceOf(w, m, t))
  {
    assert QueryAt(w, m, c) == Posed(w, s, c);
    if !probe.phase.Ended? {
      NextProgresses(Posed(w, s, c), table, m.info, probe);
    }
  }

  lemma OtherNearer(w: World, m: Memory, t: nat)
    requires Fit(w, m) && t < |w.tasks| && TaskOk(w, m, t) && !Resting(w, m, t) && !m.ctl[t].stage.Searching?
    requires LeavesOk(w, m, t, w.tasks[t][m.ctl[t].next], StepEffect(w, m, t))
    ensures Nearer(DistanceOf(w, Write(m, t, StepEffect(w, m, t)), t), DistanceOf(w, m, t))
  {
  }

  /** Every step of an unfinished task brings it nearer to its end. */
  lemma StepNearer(w: World, m0: Memory, m: Memory, t: nat, log: seq<Entry>)
    requires Independent(w) && Fit(w, m0) && Fine(w, m) && t < |w.tasks| && Doing(w, m0, m, t, log) && !Resting(w, m, t)
    ensures Fit(w, Step(w, m, t)) && Nearer(DistanceOf(w, Step(w, m, t), t), DistanceOf(w, m, t))
  {
    StepIsFine(w, m, t);
    if !m.ctl[t].stage.Searching? {
      OtherNearer(w, m, t);
    } else {
      SearchNearer(w, m, t, LastState(m0.s, log), LastTable(m0.info, log), w.tasks[t][m.ctl[t].next],
                   m.ctl[t].stage.probe);
    }
  }

  /** Moving alone, a task comes to rest. */
  lemma {:induction false} AloneEnds(w: World, m0: Memory, m: Memory, t: nat) returns (k: nat)
    requires Independent(w) && AtWork(w, m0, t, m)
    ensures var r := Alone(StepIn(w), m, t, k); |r.ctl| == |w.tasks| && Resting(w, r, t)
    decreases DistanceOf(w, m, t).left, DistanceOf(w, m, t).stage, DistanceOf(w, m, t).work.phase,
              DistanceOf(w, m, t).work.queue, DistanceOf(w, m, t).work.rest
  {
    k := 0;
    if !Resting(w, m, t) {
      var log :| Doing(w, m0, m, t, log);
      var more := StepDoing(w, m0, m, t, log);
      StepNearer(w, m0, m, t, log);
      k := AloneEnds(w, m0, Step(w, m, t), t);
      AloneShift(StepIn(w), m, t, k);
      k := k + 1;
    }
  }

  /** A task that rests when it has moved so often alone rests in every schedule that names it at least as often. */
  lemma NamedEnough(w: World, m: Memory, a: seq<nat>, t: nat, k: nat)
    requires Independent(w) && Fine(w, m) && Names(a, |w.tasks|) && t < |w.tasks| && k <= Count(a, t)
    requires var r := Alone(StepIn(w), m, t, k); |r.ctl| == |w.tasks| && Resting(w, r, t)
    ensures var r := Play(StepIn(w), m, a); |r.ctl| == |w.tasks| && Resting(w, r, t)
  {
    LevelIsSeparate(w);
    AsIfAlone(StepIn(w), FineIn(w), PartIn(w), |w.tasks|, m, a, t);
    RestLasts(StepIn(w), m, t, k, Count(a, t));
  }

  /**
   A level comes to an end: there is a number of turns for each task such that every schedule
   which gives each task at least so many brings all tasks to rest.
   */
  lemma LevelEnds(w: World, m: Memory) returns (turns: seq<nat>)
    requires Independent(w) && Fine(w, m) && Ready(w, m)
    ensures |turns| == |w.tasks|
    ensures forall a :: Names(a, |w.tasks|) && (forall t: nat :: t < |w.tasks| ==> turns[t] <= Count(a, t)) ==>
              AllRest(w, Play(StepIn(w), m, a))
  {
    turns := TurnsOf(w, m, |w.tasks|);
    forall a | Names(a, |w.tasks|) && (forall t: nat :: t < |w.tasks| ==> turns[t] <= Count(a, t))
      ensures AllRest(w, Play(StepIn(w), m, a))
    {
      PlayUntouched(w, m, a);
      forall t: nat | t < |w.tasks| ensures Resting(w, Play(StepIn(w), m, a), t) { NamedEnough(w, m, a, t, turns[t]); }
    }
  }

  lemma {:induction false} TurnsOf(w: World, m: Memory, n: nat) returns (turns: seq<nat>)
    requires Independent(w) && Fine(w, m) && Ready(w, m) && n <= |w.tasks|
    ensures |turns| == n
    ensures forall t: nat :: t < n ==>
      (var r := Alone(StepIn(w), m, t, turns[t]); |r.ctl| == |w.tasks| && Resting(w, r, t))
  {
    turns := [];
    if n > 0 {
      turns := TurnsOf(w, m, n - 1);
      DoingStart(w, m, n - 1);
      var k := AloneEnds(w, m, m, n - 1);
      turns := turns + [k];
    }
  }

  /**
   Why a level stops: a task that has halted met, after visits of its own connections, a pin
   or line that must not be met, or a search had failed before or in these visits.
   */
  lemma HaltCause(w: World, m: Memory, a: seq<nat>, t: nat) returns (log: seq<Entry>)
    requires Independent(w) && Fine(w, m) && Ready(w, m) && Names(a, |w.tasks|) && t < |w.tasks|
    requires Sound(w.D(), m.s) && CostsOk(w.site, w.factor) && Spare(w.tasks[t], 0, w.site.connectionIdBase, m.info)
    requires var r := Play(StepIn(w), m, a); t < |r.ctl| && r.ctl[t].stage.Halted?
    ensures |log| < |w.tasks[t]| && Sequel(w.site, w.tasks[t], m.s, m.info, log)
    ensures MayStop(w.site.g, LastState(m.s, log))
  {
    LevelIsSeparate(w);
    AsIfAlone(StepIn(w), FineIn(w), PartIn(w), |w.tasks|, m, a, t);
    log := AloneDoing(w, m, t, Count(a, t));
    StopAfter(w, m, Alone(StepIn(w), m, t, Count(a, t)), t, log);
  }

  lemma StopAfter(w: World, m: Memory, x: Memory, t: nat, log: seq<Entry>)
    requires w.Valid() && Fit(w, m) && Fit(w, x) && t < |w.tasks| && NoRepeat(w.tasks[t]) && Doing(w, m, x, t, log)
    requires x.ctl[t].stage.Halted?
    requires Sound(w.D(), m.s) && CostsOk(w.site, w.factor) && Spare(w.tasks[t], 0, w.site.connectionIdBase, m.info)
    ensures |log| < |w.tasks[t]| && MayStop(w.site.g, LastState(m.s, log))
  {
    BeforeStop(w.site, w.tasks[t], m.s, m.info, log);
    StopFactor(w.site, w.tasks[t], m.s, m.info, log);
    StopCause(w.site, LastState(m.s, log), w.tasks[t][|log|], LastTable(m.info, log));
  }

  lemma {:induction false} StopFactor(site: Site, order: seq<nat>, s: State, table: seq<NodeInfo>, log: seq<Entry>)
    requires |log| <= |order| && Sequel(site, order, s, table, log)
    ensures LastState(s, log).factor == s.factor
  {
    if log != [] { StopFactor(site, order, s, table, log[..|log| - 1]); }
  }
}
