/**
 One thread of a batch on its own: every step keeps what the routing phase promises, from the
 fetched net over its visits and searches to the noted changes.
 */
module BatchSolo {
  import opened Counting
  import opened Search
  import opened SearchMachine
  import opened SearchSteps
  import opened Ledger
  import opened Congestion
  import opened Convergence
  import opened SwiftSync
  import opened SyncBatch
  import opened OccChange
  import opened PendingChange
  import opened BatchCover
  import opened BatchNotes
  import opened BatchPrice
  import opened BatchAnswers
  import opened BatchVisits
  import opened Site
  import opened Answered
  import opened BatchMachine

  /**
   Where a thread's share starts: the state at the barrier, the tries before it, its own
   tables and the nets done before.
   */
  datatype Origin = Origin(s: State, tries: seq<Event>, table: seq<NodeInfo>, changes: seq<Change>, done: seq<nat>)

  /**
   What has happened since: the tries so far; tries and table when the current net was fetched;
   and, during a search, the table it began with and the net's decrements before the release.
   */
  datatype Trace = Trace(tries: seq<Event>, netTries: seq<Event>, netTable: seq<NodeInfo>, table: seq<NodeInfo>,
                         dec: Users)

  /** Paths and flags while connection c is ripped up. */
  function Ripped(s: State, c: nat): State
    requires c < |s.paths| == |s.routed|
  {
    s.(paths := s.paths[c := []], routed := s.routed[c := false])
  }

  /** Between two visits of net n. */
  ghost predicate InVisit(w: World, s: State, n: nat, x: Trace, now: State, inc: Users, dec: Users,
                          table: seq<NodeInfo>, j: nat)
    requires Fitted(w.site, s) && Tries(w.D(), x.tries) && n < w.site.nets == |w.netConns|
  {
    && ListVisit(w.site, s, n, w.netConns[n], j, x.netTable, table, x.netTries, x.tries)
    && now == Noted(w.D(), s, x.tries) && NetNotes(w.D(), s, x.tries, n, inc, dec)
  }

  /** During the search of connection c, which is the j-th of net n. */
  ghost predicate InSearch(w: World, s: State, n: nat, x: Trace, now: State, inc: Users, dec: Users,
                           table: seq<NodeInfo>, changes: seq<Change>, j: nat, c: nat, probe: Probe)
    requires Fitted(w.site, s) && Tries(w.D(), x.tries) && n < w.site.nets == |w.netConns|
  {
    && j < |w.netConns[n]| && c == w.netConns[n][j] && c < |w.site.conns| && ShouldRoute(w.D(), s, c)
    && !InTries(x.tries, c)
    && ListVisit(w.site, s, n, w.netConns[n], j, x.netTable, x.table, x.netTries, x.tries)
    && now == Ripped(Noted(w.D(), s, x.tries), c) && NetNotes(w.D(), s, x.tries, n, inc, x.dec)
    && SwiftSync.Positive(dec, |w.site.g|) && SwiftSync.Covered(s.users[n], dec) && Adds(x.dec, Held(w.D(), s, c), dec)
    && Good(SyncQuery(w.site, s, c, inc, dec, changes, w.batch), x.table, table, probe)
  }

  /** A stop for decrements that are not covered, or inside a search. */
  ghost predicate InHalt(w: World, s: State, n: nat, x: Trace, changes: seq<Change>, uncovered: bool)
    requires Fitted(w.site, s)
  {
    if uncovered then n < w.site.nets && Short(w.D(), s, n)
    else StopSeenBy(w.site, s, n, changes, w.batch, SpareNets(w.D(), {n}, w.site.connectionIdBase, x.netTable))
  }

  /** In every schedule, a search under way charges by the counts of rerouting its thread's tries one by one. */
  lemma SearchReckons(w: World, s: State, n: nat, x: Trace, now: State, inc: Users, dec: Users, table: seq<NodeInfo>,
                      changes: seq<Change>, j: nat, c: nat, probe: Probe)
    requires w.Valid() && Fitted(w.site, s) && Tries(w.D(), x.tries) && n < w.site.nets
    requires |changes| == |w.site.g| && InSearch(w, s, n, x, now, inc, dec, table, changes, j, c, probe)
    ensures Reckons(w.site, s, x.tries, c, changes, w.batch, SyncQuery(w.site, s, c, inc, dec, changes, w.batch))
  {
    NotTriedYet(w, s, n, x, x.table, j);
    SyncReckons(w.site, s, x.tries, c, inc, x.dec, dec, changes, w.batch);
  }

  // A visit

  lemma SameNeed(d: Design, s: State, tries: seq<Event>, c: nat)
    requires Shaped(d, s) && Tries(d, tries) && c < |d.conns| && !InTries(tries, c)
    ensures ShouldRoute(d, Noted(d, s, tries), c) <==> ShouldRoute(d, s, c)
    ensures Held(d, Noted(d, s, tries), c) == Held(d, s, c)
  {
    NotedPath(d, s, tries, c);
  }

  lemma NotTriedYet(w: World, s: State, n: nat, x: Trace, table: seq<NodeInfo>, j: nat)
    requires n < w.site.nets == |w.netConns| && j < |w.netConns[n]|
    requires ListVisit(w.site, s, n, w.netConns[n], j, x.netTable, table, x.netTries, x.tries)
    ensures w.netConns[n][j] < |w.site.conns| && w.site.conns[w.netConns[n][j]].net == n
    ensures !InTries(x.tries, w.netConns[n][j])
  {
  }

  lemma SkipMoves(w: World, s: State, n: nat, x: Trace, now: State, inc: Users, dec: Users, table: seq<NodeInfo>,
                  j: nat)
    requires w.Valid() && Fitted(w.site, s) && Tries(w.D(), x.tries) && n < w.site.nets && j < |w.netConns[n]|
    requires InVisit(w, s, n, x, now, inc, dec, table, j) && !ShouldRoute(w.D(), s, w.netConns[n][j])
    ensures InVisit(w, s, n, x, now, inc, dec, table, j + 1)
  {
    var c := w.netConns[n][j];
    SkippedVisit(w.site, s, c, table, x.tries);
    ListStep(w.site, s, n, w.netConns[n], j, x.netTable, table, x.netTries, x.tries, table, x.tries);
  }

  lemma OverdrawnHalts(w: World, s: State, n: nat, x: Trace, now: State, inc: Users, dec: Users, table: seq<NodeInfo>,
                       j: nat, changes: seq<Change>)
    requires w.Valid() && Fitted(w.site, s) && Tries(w.D(), x.tries) && n < w.site.nets && j < |w.netConns[n]|
    requires InVisit(w, s, n, x, now, inc, dec, table, j) && ShouldRoute(w.D(), s, w.netConns[n][j])
    requires Overdrawn(s.users[n], dec, Held(w.D(), s, w.netConns[n][j]))
    ensures InHalt(w, s, n, x, changes, true)
  {
    NotTriedYet(w, s, n, x, table, j);
    var c := w.netConns[n][j];
    var held := Held(w.D(), s, c);
    AddAllAdds(dec, held, |w.site.g|);
    var i :| 0 <= i < |held| && Cnt(AddAll(dec, held), held[i]) > Cnt(s.users[n], held[i]);
    NoteTooMuch(w.D(), s, x.tries, c, inc, dec, held[i]);
  }

  lemma CoveredStill(users: Users, dec: Users, held: seq<nat>, n: nat)
    requires SwiftSync.Positive(dec, n) && SwiftSync.Covered(users, dec) && InNodes(held, n)
    requires !Overdrawn(users, dec, held)
    ensures SwiftSync.Positive(AddAll(dec, held), n) && SwiftSync.Covered(users, AddAll(dec, held))
    ensures Adds(dec, held, AddAll(dec, held))
  {
    AddAllAdds(dec, held, n);
    forall v: nat ensures Cnt(AddAll(dec, held), v) <= Cnt(users, v) {
      CountIn(held, v);
      if v in held {
        var i :| 0 <= i < |held| && held[i] == v;
        assert Cnt(AddAll(dec, held), held[i]) <= Cnt(users, held[i]);
      }
    }
  }

  lemma ReleaseMoves(w: World, s: State, n: nat, x: Trace, now: State, inc: Users, dec: Users, table: seq<NodeInfo>,
                     j: nat, changes: seq<Change>, c: nat)
    requires w.Valid() && Fitted(w.site, s) && Tries(w.D(), x.tries) && n < w.site.nets && j < |w.netConns[n]|
    requires c == w.netConns[n][j]
    requires |table| == |w.site.g|
    requires InVisit(w, s, n, x, now, inc, dec, table, j) && ShouldRoute(w.D(), s, c)
    requires !Overdrawn(s.users[n], dec, Held(w.D(), s, c))
    ensures c < |w.site.conns| && Shaped(w.D(), now)
    ensures var dec' := AddAll(dec, Held(w.D(), s, c));
            var q := SyncQuery(w.site, s, c, inc, dec', changes, w.batch);
            InSearch(w, s, n, x.(table := table, dec := dec), Ripped(now, c), inc, dec', Written(table, Begin(q).info),
                     changes, j, c,
                     Begin(q).probe)
  {
    NotTriedYet(w, s, n, x, table, j);
    CoveredStill(s.users[n], dec, Held(w.D(), s, c), |w.site.g|);
    BeginGood(SyncQuery(w.site, s, c, inc, AddAll(dec, Held(w.D(), s, c)), changes, w.batch), table);
  }

  // A search

  lemma SearchMoves(w: World, s: State, n: nat, x: Trace, now: State, inc: Users, dec: Users, table: seq<NodeInfo>,
                    changes: seq<Change>, j: nat, c: nat, probe: Probe)
    requires w.Valid() && Fitted(w.site, s) && Tries(w.D(), x.tries) && n < w.site.nets
    requires InSearch(w, s, n, x, now, inc, dec, table, changes, j, c, probe)
    ensures var q := SyncQuery(w.site, s, c, inc, dec, changes, w.batch);
            InRange(q, table, probe) &&
            (var move := Next(q, table, probe);
             InSearch(w, s, n, x, now, inc, dec, Written(table, move.info), changes, j, c, move.probe))
  {
    NextGood(SyncQuery(w.site, s, c, inc, dec, changes, w.batch), x.table, table, probe);
  }

  /** The new tries after a search with the given answer. */
  function MoreTries(x: Trace, c: nat, answer: seq<nat>): Trace { x.(tries := x.tries + [Try(c, answer)]) }

  lemma SearchAnswer(w: World, s: State, n: nat, x: Trace, now: State, inc: Users, dec: Users, table: seq<NodeInfo>,
                     changes: seq<Change>, j: nat, c: nat, probe: Probe, outcome: Outcome, answer: seq<nat>)
    requires w.Valid() && Fitted(w.site, s) && Tries(w.D(), x.tries) && n < w.site.nets
    requires InSearch(w, s, n, x, now, inc, dec, table, changes, j, c, probe)
    requires probe.phase == Ended(outcome, answer) && !outcome.Stopped?
    ensures InNodes(answer, |w.site.g|) && (outcome.Found? <==> answer != [])
    ensures Tries(w.D(), x.tries + [Try(c, answer)])
    ensures SyncVisit(w.site, s, c, x.table, table, x.tries, x.tries + [Try(c, answer)])
  {
    var q := SyncQuery(w.site, s, c, inc, dec, changes, w.batch);
    ConcludedAnswers(w.site, q, c, x.table, outcome, answer);
    AnswerJoins(w.site, q, c, x.table, outcome, answer);
    OneMoreTry(w.D(), s, x.tries, c, answer);
    if Unused(w.site.Uid(c), x.table) { AnswersTry(w.site, s, c, q, x.table, outcome, answer); }
    TriedVisit(w.site, s, c, x.table, table, x.tries, answer);
  }

  /** Storing the answer and noting its path leads on to the next visit. */
  lemma AnswerMoves(w: World, s: State, n: nat, x: Trace, now: State, inc: Users, dec: Users, table: seq<NodeInfo>,
                    changes: seq<Change>, j: nat, c: nat, probe: Probe, outcome: Outcome, answer: seq<nat>)
    requires w.Valid() && Fitted(w.site, s) && Tries(w.D(), x.tries) && n < w.site.nets
    requires InSearch(w, s, n, x, now, inc, dec, table, changes, j, c, probe)
    requires probe.phase == Ended(outcome, answer) && !outcome.Stopped?
    ensures InNodes(answer, |w.site.g|) && (outcome.Found? <==> answer != [])
    ensures Tries(w.D(), MoreTries(x, c, answer).tries)
    ensures InVisit(w, s, n, MoreTries(x, c, answer), NoteOne(w.D(), Noted(w.D(), s, x.tries), c, answer),
                    AddAll(inc, answer), dec, table, j + 1)
  {
    SearchAnswer(w, s, n, x, now, inc, dec, table, changes, j, c, probe, outcome, answer);
    OneMoreTry(w.D(), s, x.tries, c, answer);
    AddAllAdds(inc, answer, |w.site.g|);
    NotesStep(w.D(), s, x.tries, c, answer, inc, x.dec, AddAll(inc, answer), dec);
    ListStep(w.site, s, n, w.netConns[n], j, x.netTable, x.table, x.netTries, x.tries, table,
             x.tries + [Try(c, answer)]);
  }

  lemma StopHalts(w: World, s: State, n: nat, x: Trace, now: State, inc: Users, dec: Users, table: seq<NodeInfo>,
                  changes: seq<Change>, j: nat, c: nat, probe: Probe)
    requires w.Valid() && Fitted(w.site, s) && Tries(w.D(), x.tries) && n < w.site.nets && |x.table| == |w.site.g|
    requires InSearch(w, s, n, x, now, inc, dec, table, changes, j, c, probe)
    requires probe.phase.Ended? && probe.phase.outcome.Stopped?
    ensures InHalt(w, s, n, x, changes, false)
  {
    var list, base := w.netConns[n], w.site.connectionIdBase;
    assert StopSeen(w.site, s, c, changes, w.batch, inc, dec, x.table);
    StopInList(w.site, s, n, list, j, x.netTable, x.table, x.netTries, x.tries, changes, w.batch, inc, dec);
    if SpareNets(w.D(), {n}, base, x.netTable) { SpareList(w.D(), n, list, base, x.netTable); }
  }
}
