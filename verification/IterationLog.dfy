/**
 The log of an iteration: which state and scratch table each visit of a connection met and
 left (src/route/aStarRoute.cpp, lines 95-107). What an iteration does is read off its log.
 */
module IterationLog {
  import opened Counting
  import opened Search
  import opened Ledger
  import opened Congestion
  import opened Convergence
  import opened Exclusive
  import opened Site
  import opened Answered
  import opened Stamps
  import opened Alarms

  /** The stamps of the connections from place k on are not in the table. */
  ghost predicate Spare(order: seq<nat>, k: nat, base: nat, table: seq<NodeInfo>) {
    forall j :: k <= j < |order| ==> Unused(order[j] + base, table)
  }

  /** A stamp is the old one, none, or that of one of the tried connections. */
  predicate StampOk(before: int, after: int, base: nat, tried: set<nat>) {
    after == before || after == -1 || (after >= base && after - base in tried)
  }

  ghost predicate StampedBy(before: seq<NodeInfo>, after: seq<NodeInfo>, base: nat, tried: set<nat>) {
    && |after| == |before|
    && forall v :: 0 <= v < |before| ==>
         && StampOk(before[v].isVisited, after[v].isVisited, base, tried)
         && StampOk(before[v].isTarget, after[v].isTarget, base, tried)
  }

  lemma StampMore(before: seq<NodeInfo>, now: seq<NodeInfo>, after: seq<NodeInfo>, base: nat, tried: set<nat>, c: nat)
    requires StampedBy(before, now, base, tried) && Restamped(c + base, now, after)
    ensures StampedBy(before, after, base, tried + {c})
  {
    forall v | 0 <= v < |before|
      ensures StampOk(before[v].isVisited, after[v].isVisited, base, tried + {c})
      ensures StampOk(before[v].isTarget, after[v].isTarget, base, tried + {c})
    {
      assert StampOk(before[v].isVisited, now[v].isVisited, base, tried);
      assert StampOk(before[v].isTarget, now[v].isTarget, base, tried);
    }
  }

  lemma SpareMore(order: seq<nat>, k: nat, base: nat, table: seq<NodeInfo>, after: seq<NodeInfo>)
    requires NoRepeat(order) && k < |order| && Spare(order, k, base, table) && Restamped(order[k] + base, table, after)
    ensures Spare(order, k + 1, base, after)
  {
    forall j | k + 1 <= j < |order| ensures Unused(order[j] + base, after) {
      assert Unused(order[j] + base, table);
    }
  }

  /** A visit that led from state s to t and from scratch table to after; needed says whether it searched. */
  datatype Entry = Entry(c: nat, s: State, t: State, table: seq<NodeInfo>, after: seq<NodeInfo>, needed: bool,
                         answer: seq<nat>)

  /** The visit reroutes its connection if it is congested or has no path. */
  ghost predicate Moves(site: Site, e: Entry) {
    && Fitted(site, e.s) && e.c < |site.conns| && InNodes(e.answer, |site.g|)
    && e.needed == ShouldRoute(site.D(), e.s, e.c) && e.t == Visit(site.D(), e.s, e.c, e.answer)
  }

  /** It uses no stamp but its own. */
  ghost predicate Marks(site: Site, e: Entry) {
    if e.needed then Restamped(site.Uid(e.c), e.table, e.after) else e.after == e.table
  }

  /** What it stores is the answer of a search that began with that table. */
  ghost predicate Replies(site: Site, e: Entry) {
    Moves(site, e) && |e.table| == |site.g| && e.needed ==>
      var q := PlainQuery(site, RipUp(site.D(), e.s, e.c), e.c);
      exists outcome: Outcome :: !outcome.Stopped? && Answers(site, q, e.c, e.table, outcome, e.answer)
  }

  /** An entry for connection c that starts where the log left off. */
  ghost predicate EntryOk(site: Site, c: nat, s: State, table: seq<NodeInfo>, e: Entry) {
    e.c == c && e.s == s && e.table == table && Moves(site, e) && Marks(site, e) && Replies(site, e)
  }

  function LastState(s: State, log: seq<Entry>): State { if log == [] then s else log[|log| - 1].t }

  function LastTable(table: seq<NodeInfo>, log: seq<Entry>): seq<NodeInfo> {
    if log == [] then table else log[|log| - 1].after
  }

  /** Each entry of the log is in order for its place in the list and starts where the one before it left off. */
  ghost predicate Chain(ok: (nat, State, seq<NodeInfo>, Entry) -> bool, order: seq<nat>, s: State, table: seq<NodeInfo>,
                        log: seq<Entry>) {
    log == [] ||
    (var k := |log| - 1;
     && k < |order| && Chain(ok, order, s, table, log[..k])
     && ok(order[k], LastState(s, log[..k]), LastTable(table, log[..k]), log[k]))
  }

  ghost function EntryOkAt(site: Site): (nat, State, seq<NodeInfo>, Entry) -> bool {
    (c: nat, s: State, table: seq<NodeInfo>, e: Entry) => EntryOk(site, c, s, table, e)
  }

  /** The log tells of visits in the given order, each where the one before it left off. */
  ghost predicate Sequel(site: Site, order: seq<nat>, s: State, table: seq<NodeInfo>, log: seq<Entry>) {
    Chain(EntryOkAt(site), order, s, table, log)
  }

  lemma ChainMore(ok: (nat, State, seq<NodeInfo>, Entry) -> bool, order: seq<nat>, s: State, table: seq<NodeInfo>,
                  log: seq<Entry>, e: Entry)
    requires Chain(ok, order, s, table, log) && |log| < |order|
    requires ok(order[|log|], LastState(s, log), LastTable(table, log), e)
    ensures Chain(ok, order, s, table, log + [e])
  {
    assert (log + [e])[..|log|] == log;
  }

  /** Two complete logs, the second of which starts where the first left off. */
  lemma {:induction false} ChainAppend(ok: (nat, State, seq<NodeInfo>, Entry) -> bool, a: seq<nat>, b: seq<nat>,
                                       s: State, table: seq<NodeInfo>, x: seq<Entry>, y: seq<Entry>)
    requires |x| == |a| && Chain(ok, a, s, table, x) && |y| <= |b|
    requires Chain(ok, b, LastState(s, x), LastTable(table, x), y)
    ensures Chain(ok, a + b, s, table, x + y)
    ensures LastState(s, x + y) == LastState(LastState(s, x), y)
    ensures LastTable(table, x + y) == LastTable(LastTable(table, x), y)
  {
    if y == [] {
      assert x + y == x;
      ChainLonger(ok, a, a + b, s, table, x);
    } else {
      var k := |y| - 1;
      ChainAppend(ok, a, b, s, table, x, y[..k]);
      assert (x + y)[..|x| + k] == x + y[..k];
    }
  }

  lemma {:induction false} ChainLonger(ok: (nat, State, seq<NodeInfo>, Entry) -> bool, order: seq<nat>,
                                       longer: seq<nat>, s: State, table: seq<NodeInfo>, log: seq<Entry>)
    requires Chain(ok, order, s, table, log) && order <= longer
    ensures Chain(ok, longer, s, table, log)
  {
    if log != [] { ChainLonger(ok, order, longer, s, table, log[..|log| - 1]); }
  }

  function AnswersOf(log: seq<Entry>): (r: seq<seq<nat>>)
    ensures |r| == |log|
  {
    if log == [] then [] else AnswersOf(log[..|log| - 1]) + [log[|log| - 1].answer]
  }

  function Tried(log: seq<Entry>): (r: set<nat>)
    ensures forall c :: c in r ==> exists i :: 0 <= i < |log| && log[i].c == c
  {
    if log == [] then {} else
      var last := log[|log| - 1];
      Tried(log[..|log| - 1]) + (if last.needed then {last.c} else {})
  }

  function Searches(log: seq<Entry>): nat {
    if log == [] then 0 else Searches(log[..|log| - 1]) + (if log[|log| - 1].needed then 1 else 0)
  }

  function Failures(log: seq<Entry>): nat {
    if log == [] then 0 else Failures(log[..|log| - 1]) + (if log[|log| - 1].answer == [] then 1 else 0)
  }

  lemma SequelMore(site: Site, order: seq<nat>, s: State, table: seq<NodeInfo>, log: seq<Entry>, e: Entry)
    requires Sequel(site, order, s, table, log) && |log| < |order|
    requires EntryOk(site, order[|log|], LastState(s, log), LastTable(table, log), e)
    ensures Sequel(site, order, s, table, log + [e])
  {
    ChainMore(EntryOkAt(site), order, s, table, log, e);
  }

  lemma {:induction false} SequelLength(site: Site, order: seq<nat>, s: State, table: seq<NodeInfo>, log: seq<Entry>)
    requires Sequel(site, order, s, table, log)
    ensures |log| <= |order| && forall i :: 0 <= i < |log| ==> log[i].c == order[i]
  {
    if log != [] { SequelLength(site, order, s, table, log[..|log| - 1]); }
  }

  lemma LogMore(log: seq<Entry>, e: Entry)
    ensures AnswersOf(log + [e]) == AnswersOf(log) + [e.answer]
    ensures Tried(log + [e]) == Tried(log) + (if e.needed then {e.c} else {})
    ensures Searches(log + [e]) == Searches(log) + (if e.needed then 1 else 0)
    ensures Failures(log + [e]) == Failures(log) + (if e.answer == [] then 1 else 0)
  {
    assert (log + [e])[..|log|] == log;
  }

  lemma VisitMore(d: Design, s: State, order: seq<nat>, k: nat, answers: seq<seq<nat>>, answer: seq<nat>)
    requires Shaped(d, s) && k < |order| && order[k] < |d.conns| && InNodes(answer, d.nodes)
    requires Visits(d, order[..k], answers)
    ensures Visits(d, order[..k + 1], answers + [answer])
    ensures Iteration(d, s, order[..k + 1], answers + [answer]) ==
            Visit(d, Iteration(d, s, order[..k], answers), order[k], answer)
    ensures var t := Iteration(d, s, order[..k], answers);
            IterationRespectsPins(d, s, order[..k + 1], answers + [answer]) <==>
            && IterationRespectsPins(d, s, order[..k], answers)
            && (ShouldRoute(d, t, order[k]) ==> VisitRespectsPins(d, t, order[k], answer))
    ensures Routings(d, s, order[..k + 1], answers + [answer]) == Routings(d, s, order[..k], answers) +
            if ShouldRoute(d, Iteration(d, s, order[..k], answers), order[k]) then 1 else 0
  {
    assert order[..k + 1] == order[..k] + [order[k]];
    assert order[..k + 1][..k] == order[..k] && (answers + [answer])[..k] == answers;
  }

  /** The log of an iteration of the state machine. */
  lemma {:induction false} LogPerforms(site: Site, order: seq<nat>, s: State, table: seq<NodeInfo>, log: seq<Entry>)
    requires |log| <= |order| && Sequel(site, order, s, table, log) && Fitted(site, s)
    ensures var answers := AnswersOf(log);
            && Visits(site.D(), order[..|log|], answers)
            && LastState(s, log) == Iteration(site.D(), s, order[..|log|], answers)
            && Fitted(site, LastState(s, log))
  {
    if |log| > 0 {
      var k := |log| - 1;
      LogPerforms(site, order, s, table, log[..k]);
      VisitMore(site.D(), s, order, k, AnswersOf(log[..k]), log[k].answer);
    }
  }

  /** The connections tried are as many as the visits that reroute. */
  lemma LogRoutings(site: Site, order: seq<nat>, s: State, table: seq<NodeInfo>, log: seq<Entry>)
    requires |log| <= |order| && Sequel(site, order, s, table, log) && Fitted(site, s) && NoRepeat(order)
    requires Visits(site.D(), order[..|log|], AnswersOf(log))
    ensures |Tried(log)| == Searches(log) == Routings(site.D(), s, order[..|log|], AnswersOf(log))
  {
    TriedCount(site, order, s, table, log);
    SearchCount(site, order, s, table, log);
  }

  lemma {:induction false} TriedCount(site: Site, order: seq<nat>, s: State, table: seq<NodeInfo>, log: seq<Entry>)
    requires |log| <= |order| && Sequel(site, order, s, table, log) && NoRepeat(order)
    ensures |Tried(log)| == Searches(log)
  {
    if |log| > 0 {
      TriedCount(site, order, s, table, log[..|log| - 1]);
      NewInLog(site, order, s, table, log);
    }
  }

  lemma {:induction false} SearchCount(site: Site, order: seq<nat>, s: State, table: seq<NodeInfo>, log: seq<Entry>)
    requires |log| <= |order| && Sequel(site, order, s, table, log) && Fitted(site, s)
    requires Visits(site.D(), order[..|log|], AnswersOf(log))
    ensures Searches(log) == Routings(site.D(), s, order[..|log|], AnswersOf(log))
  {
    if |log| > 0 {
      var k := |log| - 1;
      var front := log[..k];
      LogPerforms(site, order, s, table, front);
      SearchCount(site, order, s, table, front);
      OneMoreRouting(site, order, s, table, log, k, front);
    }
  }

  lemma OneMoreRouting(site: Site, order: seq<nat>, s: State, table: seq<NodeInfo>, log: seq<Entry>, k: nat,
                       front: seq<Entry>)
    requires k + 1 == |log| <= |order| && front == log[..k] && Sequel(site, order, s, table, log) && Fitted(site, s)
    requires Visits(site.D(), order[..k], AnswersOf(front)) && order[k] < |site.conns|
    requires LastState(s, front) == Iteration(site.D(), s, order[..k], AnswersOf(front))
    ensures Visits(site.D(), order[..k + 1], AnswersOf(log))
    ensures Routings(site.D(), s, order[..k + 1], AnswersOf(log)) ==
            Routings(site.D(), s, order[..k], AnswersOf(front)) + if log[k].needed then 1 else 0
  {
    VisitMore(site.D(), s, order, k, AnswersOf(front), log[k].answer);
  }

  lemma NewInLog(site: Site, order: seq<nat>, s: State, table: seq<NodeInfo>, log: seq<Entry>)
    requires 0 < |log| <= |order| && Sequel(site, order, s, table, log) && NoRepeat(order)
    ensures log[|log| - 1].c !in Tried(log[..|log| - 1])
  {
    SequelLength(site, order, s, table, log);
  }

  predicate AllFound(answers: seq<seq<nat>>) { forall i :: 0 <= i < |answers| ==> answers[i] != [] }

  lemma {:induction false} LogFailures(log: seq<Entry>)
    ensures Failures(log) == 0 <==> AllFound(AnswersOf(log))
  {
    if |log| > 0 {
      LogFailures(log[..|log| - 1]);
      AllMore(AnswersOf(log[..|log| - 1]), log[|log| - 1].answer);
    }
  }

  lemma AllMore(answers: seq<seq<nat>>, answer: seq<nat>)
    ensures AllFound(answers + [answer]) <==> AllFound(answers) && answer != []
  {
    var more := answers + [answer];
    if AllFound(more) {
      forall i | 0 <= i < |answers| ensures answers[i] != [] { assert more[i] != []; }
      assert more[|answers|] != [];
    }
  }

  /** Nothing is stamped but with stamps of tried connections, and those from place k on stay unused. */
  ghost predicate Marked(order: seq<nat>, k: nat, base: nat, table: seq<NodeInfo>, now: seq<NodeInfo>,
                         tried: set<nat>) {
    StampedBy(table, now, base, tried) && (Spare(order, 0, base, table) ==> Spare(order, k, base, now))
  }

  lemma MarkMore(site: Site, order: seq<nat>, k: nat, table: seq<NodeInfo>, tried: set<nat>, e: Entry)
    requires NoRepeat(order) && k < |order| && Marked(order, k, site.connectionIdBase, table, e.table, tried)
    requires e.c == order[k] && Marks(site, e)
    ensures Marked(order, k + 1, site.connectionIdBase, table, e.after, tried + (if e.needed then {e.c} else {}))
  {
    if e.needed {
      StampMore(table, e.table, e.after, site.connectionIdBase, tried, e.c);
      if Spare(order, 0, site.connectionIdBase, table) { SpareMore(order, k, site.connectionIdBase, e.table, e.after); }
    } else {
      assert tried + {} == tried;
    }
  }

  lemma {:induction false} LogMarks(site: Site, order: seq<nat>, s: State, table: seq<NodeInfo>, log: seq<Entry>)
    requires |log| <= |order| && Sequel(site, order, s, table, log) && NoRepeat(order)
    ensures Marked(order, |log|, site.connectionIdBase, table, LastTable(table, log), Tried(log))
  {
    if |log| > 0 {
      var k := |log| - 1;
      LogMarks(site, order, s, table, log[..k]);
      MarkMore(site, order, k, table, Tried(log[..k]), log[k]);
    }
  }

  lemma SpareReply(site: Site, order: seq<nat>, k: nat, e: Entry)
    requires k < |order| && e.c == order[k] && Spare(order, k, site.connectionIdBase, e.table) && |e.table| == |site.g|
    requires Moves(site, e) && Replies(site, e)
    ensures VisitAnswered(site, e.s, e.c, e.answer)
  {
    assert Unused(order[k] + site.connectionIdBase, e.table);
    if e.needed {
      var q := PlainQuery(site, RipUp(site.D(), e.s, e.c), e.c);
      var outcome: Outcome :| !outcome.Stopped? && Answers(site, q, e.c, e.table, outcome, e.answer);
      FreshAnswer(site, q, e.c, e.table, outcome, e.answer);
    }
  }

  /** If the table starts out without the iteration's stamps, every search of the iteration meets an unused one. */
  lemma {:induction false} LogReplies(site: Site, order: seq<nat>, s: State, table: seq<NodeInfo>, log: seq<Entry>)
    requires |log| <= |order| && Sequel(site, order, s, table, log) && Fitted(site, s) && NoRepeat(order)
    requires Spare(order, 0, site.connectionIdBase, table) && |table| == |site.g|
    requires Visits(site.D(), order[..|log|], AnswersOf(log))
    ensures IterationAnswered(site, s, order[..|log|], AnswersOf(log))
  {
    if |log| > 0 {
      var k := |log| - 1;
      LogPerforms(site, order, s, table, log[..k]);
      LogReplies(site, order, s, table, log[..k]);
      LogMarks(site, order, s, table, log[..k]);
      SpareReply(site, order, k, log[k]);
      TakeMore(order, k);
      AnswerMore(site, s, order[..|log|], AnswersOf(log), order[..k], AnswersOf(log[..k]));
    }
  }

  /** The entry of a visit that searched. */
  lemma SearchedEntry(site: Site, s: State, c: nat, table: seq<NodeInfo>, after: seq<NodeInfo>, outcome: Outcome,
                      answer: seq<nat>)
    requires Fitted(site, s) && c < |site.conns| && |table| == |site.g| && ShouldRoute(site.D(), s, c)
    requires Answers(site, PlainQuery(site, RipUp(site.D(), s, c), c), c, table, outcome, answer)
    requires !outcome.Stopped? && Restamped(site.Uid(c), table, after)
    ensures EntryOk(site, c, s, table, Entry(c, s, Reroute(site.D(), s, c, answer), table, after, true, answer))
  {
  }

  /** The entry of a visit that had nothing to do. */
  lemma QuietEntry(site: Site, s: State, c: nat, table: seq<NodeInfo>, answer: seq<nat>)
    requires Fitted(site, s) && c < |site.conns| && !ShouldRoute(site.D(), s, c) && InNodes(answer, |site.g|)
    ensures EntryOk(site, c, s, table, Entry(c, s, s, table, table, false, answer))
  {
  }

  /** What a complete log says. */
  lemma LogSummary(site: Site, order: seq<nat>, s: State, table: seq<NodeInfo>, log: seq<Entry>)
    requires |log| == |order| && NoRepeat(order) && Sequel(site, order, s, table, log) && Fitted(site, s)
    requires |table| == |site.g|
    ensures var answers := AnswersOf(log);
            && Visits(site.D(), order, answers) && LastState(s, log) == Iteration(site.D(), s, order, answers)
            && Searches(log) == Routings(site.D(), s, order, answers) && (Failures(log) == 0 <==> AllFound(answers))
            && (Spare(order, 0, site.connectionIdBase, table) ==> IterationAnswered(site, s, order, answers))
    ensures RoutedSet(Tried(log), Searches(log), |site.conns|)
    ensures StampedBy(table, LastTable(table, log), site.connectionIdBase, Tried(log))
  {
    assert order[..|order|] == order;
    LogPerforms(site, order, s, table, log);
    LogRoutings(site, order, s, table, log);
    LogFailures(log);
    LogMarks(site, order, s, table, log);
    SequelLength(site, order, s, table, log);
    if Spare(order, 0, site.connectionIdBase, table) { LogReplies(site, order, s, table, log); }
    forall c | c in Tried(log) ensures c < |site.conns| {
      var i :| 0 <= i < |log| && log[i].c == c;
      assert order[i] < |site.conns|;
    }
  }

  // What an iteration keeps

  /** Where an incomplete log leaves off: books still sound, the next stamp still unused. */
  lemma BeforeStop(site: Site, order: seq<nat>, s: State, table: seq<NodeInfo>, log: seq<Entry>)
    requires |log| < |order| && NoRepeat(order) && Sequel(site, order, s, table, log) && Fitted(site, s)
    ensures Sound(site.D(), s) ==> Sound(site.D(), LastState(s, log))
    ensures Spare(order, 0, site.connectionIdBase, table) ==> Unused(site.Uid(order[|log|]), LastTable(table, log))
  {
    LogPerforms(site, order, s, table, log);
    LogMarks(site, order, s, table, log);
    if Sound(site.D(), s) { IterationKeepsSound(site.D(), s, order[..|log|], AnswersOf(log)); }
  }

  /** Stored paths keep joining the ends of their connections. */
  lemma {:induction false} LogJoins(site: Site, order: seq<nat>, s: State, table: seq<NodeInfo>, log: seq<Entry>)
    requires |log| <= |order| && Sequel(site, order, s, table, log) && |table| == |site.g| && Joined(site, s)
    ensures |LastTable(table, log)| == |site.g| && Joined(site, LastState(s, log))
  {
    if |log| > 0 {
      var k := |log| - 1;
      LogJoins(site, order, s, table, log[..k]);
      EntryJoins(site, log[k]);
    }
  }

  lemma EntryJoins(site: Site, e: Entry)
    requires Moves(site, e) && Marks(site, e) && Replies(site, e) && |e.table| == |site.g| && Joined(site, e.s)
    ensures |e.after| == |site.g| && Joined(site, e.t)
  {
    if e.needed {
      var q := PlainQuery(site, RipUp(site.D(), e.s, e.c), e.c);
      var outcome: Outcome :| !outcome.Stopped? && Answers(site, q, e.c, e.table, outcome, e.answer);
      AnswerJoins(site, q, e.c, e.table, outcome, e.answer);
    }
  }

  /** Why a search stops. */
  lemma StoppedEntry(site: Site, s: State, c: nat, table: seq<NodeInfo>, answer: seq<nat>)
    requires site.Valid() && Shaped(site.D(), s) && c < |site.conns| && |table| == |site.g|
    requires Answers(site, PlainQuery(site, RipUp(site.D(), s, c), c), c, table, Stopped, answer)
    ensures Unused(site.Uid(c), table) && Sound(site.D(), s) && CostsOk(site, s.factor) ==>
              MayStop(site.g, RipUp(site.D(), s, c))
  {
    if Unused(site.Uid(c), table) && Sound(site.D(), s) && CostsOk(site, s.factor) { StopCause(site, s, c, table); }
  }

  /** An iteration that reroutes nothing has nothing to respect. */
  lemma {:induction false} NothingRouted(d: Design, s: State, order: seq<nat>, answers: seq<seq<nat>>)
    requires Shaped(d, s) && Visits(d, order, answers) && Routings(d, s, order, answers) == 0
    ensures IterationRespectsPins(d, s, order, answers)
  {
    if |order| > 0 { NothingRouted(d, s, order[..|order| - 1], answers[..|order| - 1]); }
  }

  /** What an iteration keeps; answered says whether its searches had unused stamps. */
  lemma RoundKeeps(site: Site, s: State, order: seq<nat>, answers: seq<seq<nat>>, answered: bool)
    requires Fitted(site, s) && Sound(site.D(), s) && PinTypes(site.D()) && SinksDistinct(site.D())
    requires Visits(site.D(), order, answers) && NoRepeat(order)
    requires answered ==> IterationAnswered(site, s, order, answers)
    ensures var d, t := site.D(), Iteration(site.D(), s, order, answers);
            && Sound(d, t)
            && (AllFound(answers) && (forall c :: 0 <= c < |site.conns| ==> c in order) ==> AllPathsPresent(d, t))
            && (SinksOwned(d, s) && (answered || Routings(d, s, order, answers) == 0) ==> SinksOwned(d, t))
  {
    var d := site.D();
    IterationKeepsSound(d, s, order, answers);
    if AllFound(answers) && forall c :: 0 <= c < |site.conns| ==> c in order {
      IterationComplete(d, s, order, answers);
    }
    if SinksOwned(d, s) && (answered || Routings(d, s, order, answers) == 0) {
      if answered { AnsweredRespectsPins(site, s, order, answers); } else { NothingRouted(d, s, order, answers); }
      IterationKeepsOwned(d, s, order, answers);
    }
  }
}
