/**
 A thread of a batch, from its first net to its last: alone, it leaves what the routing phase
 promises, and it comes to an end.
 */
module BatchThread {
  import opened Counting
  import opened Options
  import opened Search
  import opened SearchMachine
  import opened Ledger
  import opened Congestion
  import opened Convergence
  import opened SyncBatch
  import opened OccChange
  import opened PendingChange
  import opened BatchNotes
  import opened BatchVisits
  import opened Site
  import opened Answered
  import opened BatchMachine
  import opened BatchSolo

  /** Where the thread stands with net n. */
  ghost predicate Midway(w: World, s: State, n: nat, x: Trace, now: State, inc: Users, dec: Users, table: seq<NodeInfo>,
                         changes: seq<Change>, stage: Stage)
    requires w.Valid() && Fitted(w.site, s) && Tries(w.D(), x.tries) && n < w.site.nets
  {
    match stage
    case Fetch => now == Noted(w.D(), s, x.tries) && x.tries == x.netTries && table == x.netTable
    case Visit(before, j) => before == PathsOf(s.paths, w.netConns[n]) && InVisit(w, s, n, x, now, inc, dec, table, j)
    case Searching(before, j, probe) =>
      && before == PathsOf(s.paths, w.netConns[n]) && j < |w.netConns[n]| && |x.table| == |w.site.g|
      && InSearch(w, s, n, x, now, inc, dec, table, changes, j, w.netConns[n][j], probe)
    case Halted(uncovered) => InHalt(w, s, n, x, changes, uncovered)
  }

  /** The finished nets hold their notes. */
  ghost predicate DoneNotes(w: World, s: State, tries: seq<Event>, incs: seq<Users>, decs: seq<Users>, done: seq<nat>)
    requires Fitted(w.site, s) && Tries(w.D(), tries) && |incs| == |decs| == w.site.nets
  {
    forall i :: 0 <= i < |done| ==>
      done[i] < w.site.nets && NetNotes(w.D(), s, tries, done[i], incs[done[i]], decs[done[i]])
  }

  /** The first k nets of the share are done. */
  ghost predicate Share(w: World, b: Origin, t: nat, k: nat, x: Trace, changes: seq<Change>)
    requires t < |w.lists| && k <= |w.lists[t]| && Tries(w.D(), x.netTries)
  {
    && ShareWork(w.site, b.s, w.netConns, w.lists[t], k, b.table, x.netTable, b.changes, changes, w.batch, b.tries,
                 x.netTries)
    && OnlyOf(w.D(), x.netTries, b.done + w.lists[t][..k])
  }

  /** Whatever the share starts from. */
  ghost predicate OriginOk(w: World, b: Origin, t: nat) {
    && w.Valid() && t < |w.lists| && Fitted(w.site, b.s) && Tries(w.D(), b.tries)
    && |b.table| == |b.changes| == |w.site.g|
    && NoRepeat(b.done + w.lists[t])
    && forall i :: 0 <= i < |w.lists[t]| ==> SwiftSync.Positive(b.s.users[w.lists[t][i]], |w.site.g|)
  }

  ghost predicate Doing(w: World, b: Origin, m: Memory, t: nat, x: Trace)
    requires OriginOk(w, b, t)
  {
    && Fit(w, m) && ThreadFits(w, m, t) && Tries(w.D(), x.tries) && Tries(w.D(), x.netTries) && Frozen(m.s, b.s)
    && Share(w, b, t, m.ctl[t].k, x, m.changes[t])
    && DoneNotes(w, b.s, x.tries, m.incs, m.decs, b.done + w.lists[t][..m.ctl[t].k])
    && if m.ctl[t].k < |w.lists[t]| then
         var n := w.lists[t][m.ctl[t].k];
         Midway(w, b.s, n, x, m.s, m.incs[n], m.decs[n], m.tables[t], m.changes[t], m.ctl[t].stage)
       else
         && m.ctl[t].stage.Fetch? && x.tries == x.netTries && m.s == Noted(w.D(), b.s, x.tries)
         && m.tables[t] == x.netTable
  }

  // One step

  lemma SameQuery(w: World, s: State, m: Memory, t: nat, c: nat)
    requires Fit(w, m) && Fitted(w.site, s) && Frozen(m.s, s) && t < |w.lists| && c < |w.site.conns|
    ensures var n := w.site.conns[c].net;
            QueryAt(w, m, t, c) == SyncQuery(w.site, s, c, m.incs[n], m.decs[n], m.changes[t], w.batch)
  {
    assert BooksOf(m.s, w.site.conns[c].net) == BooksOf(s, w.site.conns[c].net);
  }

  /** The effect keeps to net n, whose stage it moves on. */
  ghost predicate MovesNet(w: World, s: State, n: nat, m: Memory, t: nat, e: Effect, x: Trace, x': Trace)
    requires Fit(w, m) && t < |w.lists| && Own(w, t, e) && Fitted(w.site, s) && Tries(w.D(), x.tries) && n < w.site.nets
  {
    var m' := Write(m, t, e);
    && Tries(w.D(), x'.tries) && MoreOf(w.D(), x.tries, x'.tries, [n]) && x'.netTries == x.netTries
    && x'.netTable == x.netTable
    && e.ctl.k == m.ctl[t].k && e.changes == m.changes[t] && (e.notes.Some? ==> e.notes.value.net == n)
    && Midway(w, s, n, x', m'.s, m'.incs[n], m'.decs[n], m'.tables[t], m'.changes[t], e.ctl.stage)
  }

  lemma MoreSelf(d: Design, tries: seq<Event>, n: nat)
    requires Tries(d, tries)
    ensures MoreOf(d, tries, tries, [n])
  {
  }

  lemma FetchNet(w: World, s: State, n: nat, m: Memory, t: nat, x: Trace)
    requires Fit(w, m) && t < |w.lists| && Fitted(w.site, s) && Tries(w.D(), x.tries) && Frozen(m.s, s)
    requires n < w.site.nets && n in w.lists[t] && SwiftSync.Positive(s.users[n], |w.site.g|)
    requires NoneOf(w.D(), x.tries, n)
    requires Midway(w, s, n, x, m.s, m.incs[n], m.decs[n], m.tables[t], m.changes[t], Fetch)
    requires Own(w, t, FetchStep(w, m, t, n))
    ensures MovesNet(w, s, n, m, t, FetchStep(w, m, t, n), x, x)
  {
    assert NetList(w.D(), w.netConns[n], n);
    MoreSelf(w.D(), x.tries, n);
    PathsBefore(w.D(), s, x.tries, w.netConns[n], n);
    NothingNoted(w.D(), s, x.tries, n);
    ListStart(w.site, s, n, w.netConns[n], x.netTable, x.tries);
  }

  lemma VisitNet(w: World, s: State, n: nat, m: Memory, t: nat, x: Trace, before: seq<seq<nat>>, j: nat)
    returns (x': Trace)
    requires Fit(w, m) && t < |w.lists| && Fitted(w.site, s) && Tries(w.D(), x.tries) && Frozen(m.s, s)
    requires ThreadFits(w, m, t)
    requires n < w.site.nets && n in w.lists[t] && j < |w.netConns[n]|
    requires Midway(w, s, n, x, m.s, m.incs[n], m.decs[n], m.tables[t], m.changes[t], Visit(before, j))
    requires Own(w, t, VisitStep(w, m, t, n, before, j))
    ensures MovesNet(w, s, n, m, t, VisitStep(w, m, t, n, before, j), x, x')
  {
    var c := w.netConns[n][j];
    x' := x;
    MoreSelf(w.D(), x.tries, n);
    NotTriedYet(w, s, n, x, m.tables[t], j);
    SameNeed(w.D(), s, x.tries, c);
    if !ShouldRoute(w.D(), s, c) {
      SkipMoves(w, s, n, x, m.s, m.incs[n], m.decs[n], m.tables[t], j);
    } else if Overdrawn(s.users[n], m.decs[n], Held(w.D(), s, c)) {
      OverdrawnHalts(w, s, n, x, m.s, m.incs[n], m.decs[n], m.tables[t], j, m.changes[t]);
    } else {
      x' := x.(table := m.tables[t], dec := m.decs[n]);
      ReleaseNet(w, s, n, m, t, x, before, j, c);
    }
  }

  lemma BeginSame(w: World, s: State, m: Memory, t: nat, c: nat, dec: Users)
    requires Fit(w, m) && Fitted(w.site, s) && t < |w.lists| && c < |w.site.conns|
    ensures var n := w.site.conns[c].net;
            Begin(QueryAt(w, m, t, c)) == Begin(SyncQuery(w.site, s, c, m.incs[n], dec, m.changes[t], w.batch))
  {
  }

  lemma ReleaseNet(w: World, s: State, n: nat, m: Memory, t: nat, x: Trace, before: seq<seq<nat>>, j: nat, c: nat)
    requires Fit(w, m) && t < |w.lists| && Fitted(w.site, s) && Tries(w.D(), x.tries) && Frozen(m.s, s)
    requires ThreadFits(w, m, t)
    requires n < w.site.nets && n in w.lists[t] && j < |w.netConns[n]| && c == w.netConns[n][j] && c < |w.site.conns|
    requires w.site.conns[c].net == n
    requires Midway(w, s, n, x, m.s, m.incs[n], m.decs[n], m.tables[t], m.changes[t], Visit(before, j))
    requires ShouldRoute(w.D(), s, c) && !Overdrawn(s.users[n], m.decs[n], Held(w.D(), s, c))
    requires ShouldRoute(w.D(), m.s, c) && Held(w.D(), m.s, c) == Held(w.D(), s, c)
    requires Own(w, t, VisitStep(w, m, t, n, before, j))
    ensures MovesNet(w, s, n, m, t, VisitStep(w, m, t, n, before, j), x, x.(table := m.tables[t], dec := m.decs[n]))
  {
    MoreSelf(w.D(), x.tries, n);
    ReleaseMoves(w, s, n, x, m.s, m.incs[n], m.decs[n], m.tables[t], j, m.changes[t], c);
    BeginSame(w, s, m, t, c, AddAll(m.decs[n], Held(w.D(), s, c)));
    assert m.s.fails[c := m.s.fails[c]] == m.s.fails;
  }

  /** Ripping up, then storing the answer, is noting it. */
  lemma RippedThenStored(d: Design, s: State, c: nat, answer: seq<nat>)
    requires Shaped(d, s) && c < |d.conns| && InNodes(answer, d.nodes)
    ensures var r := Ripped(s, c);
            NoteOne(d, s, c, answer) ==
            Stored(r, Some(Result(c, answer, answer != [], if answer == [] then r.fails[c] + 1 else r.fails[c])))
  {
    assert s.fails[c := s.fails[c]] == s.fails;
  }

  lemma AnswerNet(w: World, s: State, n: nat, m: Memory, t: nat, x: Trace, before: seq<seq<nat>>, j: nat, probe: Probe,
                  outcome: Outcome, answer: seq<nat>)
    requires Fit(w, m) && t < |w.lists| && Fitted(w.site, s) && Tries(w.D(), x.tries) && Frozen(m.s, s)
    requires ThreadFits(w, m, t)
    requires n < w.site.nets && n in w.lists[t] && j < |w.netConns[n]|
    requires Midway(w, s, n, x, m.s, m.incs[n], m.decs[n], m.tables[t], m.changes[t], Searching(before, j, probe))
    requires probe.phase == Ended(outcome, answer) && !outcome.Stopped?
    requires Own(w, t, SearchStep(w, m, t, n, before, j, probe))
    ensures MovesNet(w, s, n, m, t, SearchStep(w, m, t, n, before, j, probe), x, MoreTries(x, w.netConns[n][j], answer))
  {
    var c := w.netConns[n][j];
    AnswerMoves(w, s, n, x, m.s, m.incs[n], m.decs[n], m.tables[t], m.changes[t], j, c, probe, outcome, answer);
    AnswerWrites(w, m, t, n, before, j, probe, outcome, answer, Noted(w.D(), s, x.tries));
    OneTryMore(w.D(), x.tries, c, answer, n);
  }

  lemma OneTryMore(d: Design, tries: seq<Event>, c: nat, answer: seq<nat>, n: nat)
    requires Tries(d, tries + [Try(c, answer)]) && c < |d.conns| && d.conns[c].net == n
    ensures MoreOf(d, tries, tries + [Try(c, answer)], [n])
  {
  }

  lemma AnswerWrites(w: World, m: Memory, t: nat, n: nat, before: seq<seq<nat>>, j: nat, probe: Probe, outcome: Outcome,
                     answer: seq<nat>, r: State)
    requires Fit(w, m) && t < |w.lists| && n < w.site.nets && j < |w.netConns[n]| && InNodes(answer, |w.site.g|)
    requires Shaped(w.D(), r) && w.netConns[n][j] < |w.site.conns| && m.s == Ripped(r, w.netConns[n][j])
    requires probe.phase == Ended(outcome, answer) && !outcome.Stopped? && (outcome.Found? <==> answer != [])
    requires Own(w, t, SearchStep(w, m, t, n, before, j, probe))
    ensures var c, e := w.netConns[n][j], SearchStep(w, m, t, n, before, j, probe);
            var m' := Write(m, t, e);
            && e.ctl == Control(m.ctl[t].k, Visit(before, j + 1)) && e.changes == m.changes[t]
            && (e.notes.Some? ==> e.notes.value.net == n)
            && m'.tables[t] == m.tables[t] && m'.changes[t] == m.changes[t] && m'.decs[n] == m.decs[n]
            && m'.incs[n] == AddAll(m.incs[n], answer) && m'.s == NoteOne(w.D(), r, c, answer)
  {
    RippedThenStored(w.D(), r, w.netConns[n][j], answer);
  }

  lemma SearchNet(w: World, s: State, n: nat, m: Memory, t: nat, x: Trace, before: seq<seq<nat>>, j: nat, probe: Probe)
    returns (x': Trace)
    requires Fit(w, m) && t < |w.lists| && Fitted(w.site, s) && Tries(w.D(), x.tries) && Frozen(m.s, s)
    requires ThreadFits(w, m, t)
    requires n < w.site.nets && n in w.lists[t] && j < |w.netConns[n]|
    requires Midway(w, s, n, x, m.s, m.incs[n], m.decs[n], m.tables[t], m.changes[t], Searching(before, j, probe))
    requires Own(w, t, SearchStep(w, m, t, n, before, j, probe))
    ensures MovesNet(w, s, n, m, t, SearchStep(w, m, t, n, before, j, probe), x, x')
  {
    var c := w.netConns[n][j];
    x' := x;
    MoreSelf(w.D(), x.tries, n);
    match probe.phase
    case Ended(Found, answer) =>
      AnswerNet(w, s, n, m, t, x, before, j, probe, Found, answer);
      x' := MoreTries(x, c, answer);
    case Ended(NotFound, answer) =>
      AnswerNet(w, s, n, m, t, x, before, j, probe, NotFound, answer);
      x' := MoreTries(x, c, answer);
    case Ended(Stopped, _) => StopHalts(w, s, n, x, m.s, m.incs[n], m.decs[n], m.tables[t], m.changes[t], j, c, probe);
    case _ =>
      NotTriedYet(w, s, n, x, x.table, j);
      SameQuery(w, s, m, t, c);
      SearchMoves(w, s, n, x, m.s, m.incs[n], m.decs[n], m.tables[t], m.changes[t], j, c, probe);
  }

  /** A step within net n. */
  lemma NetMoves(w: World, s: State, n: nat, m: Memory, t: nat, x: Trace) returns (x': Trace)
    requires Fit(w, m) && t < |w.lists| && Fitted(w.site, s) && Tries(w.D(), x.tries) && Frozen(m.s, s)
    requires ThreadFits(w, m, t)
    requires !Resting(w, m, t) && n == w.lists[t][m.ctl[t].k] && SwiftSync.Positive(s.users[n], |w.site.g|)
    requires Own(w, t, StepEffect(w, m, t))
    requires m.ctl[t].stage.Fetch? ==> NoneOf(w.D(), x.tries, n)
    requires Midway(w, s, n, x, m.s, m.incs[n], m.decs[n], m.tables[t], m.changes[t], m.ctl[t].stage)
    requires m.ctl[t].stage.Visit? ==> m.ctl[t].stage.j < |w.netConns[n]|
    ensures MovesNet(w, s, n, m, t, StepEffect(w, m, t), x, x')
  {
    x' := x;
    match m.ctl[t].stage
    case Fetch => FetchNet(w, s, n, m, t, x);
    case Visit(before, j) => x' := VisitNet(w, s, n, m, t, x, before, j);
    case Searching(before, j, probe) => x' := SearchNet(w, s, n, m, t, x, before, j, probe);
  }

  // The share

  lemma NotesStay(w: World, s: State, tries0: seq<Event>, tries: seq<Event>, m: Memory, t: nat, e: Effect,
                  done: seq<nat>, n: nat)
    requires Fit(w, m) && t < |w.lists| && Own(w, t, e) && Fitted(w.site, s) && Tries(w.D(), tries0)
    requires Tries(w.D(), tries)
    requires MoreOf(w.D(), tries0, tries, [n]) && n !in done && (e.notes.Some? ==> e.notes.value.net == n)
    requires DoneNotes(w, s, tries0, m.incs, m.decs, done)
    ensures var m' := Write(m, t, e); DoneNotes(w, s, tries, m'.incs, m'.decs, done)
  {
    forall i | 0 <= i < |done|
      ensures done[i] < w.site.nets
      ensures NetNotes(w.D(), s, tries, done[i], Write(m, t, e).incs[done[i]], Write(m, t, e).decs[done[i]])
    {
      OtherNet(w.D(), s, tries0, tries, [n], done[i]);
    }
  }

  lemma NoneYet(w: World, b: Origin, t: nat, k: nat, tries: seq<Event>)
    requires OriginOk(w, b, t) && k < |w.lists[t]| && Tries(w.D(), tries)
    requires OnlyOf(w.D(), tries, b.done + w.lists[t][..k])
    ensures NoneOf(w.D(), tries, w.lists[t][k]) && w.lists[t][k] !in b.done + w.lists[t][..k]
  {
    var all := b.done + w.lists[t];
    assert all[|b.done| + k] == w.lists[t][k] && all[..|b.done| + k] == b.done + w.lists[t][..k];
  }

  lemma WithinNet(w: World, b: Origin, m: Memory, t: nat, x: Trace) returns (x': Trace)
    requires OriginOk(w, b, t) && Doing(w, b, m, t, x) && !Resting(w, m, t)
    requires m.ctl[t].stage.Visit? ==> m.ctl[t].stage.j < |w.netConns[w.lists[t][m.ctl[t].k]]|
    ensures Fit(w, Step(w, m, t)) && Doing(w, b, Step(w, m, t), t, x')
  {
    var k := m.ctl[t].k;
    var n := w.lists[t][k];
    EffectIsOwn(w, m, t);
    StepFits(w, m, t);
    NoneYet(w, b, t, k, x.netTries);
    x' := NetMoves(w, b.s, n, m, t, x);
    NotesStay(w, b.s, x.tries, x'.tries, m, t, StepEffect(w, m, t), b.done + w.lists[t][..k], n);
    assert ThreadFits(w, Step(w, m, t), t);
  }

  /** All connections of the next net visited, and its shift noted. */
  lemma ShareMore(w: World, b: Origin, t: nat, k: nat, x: Trace, changes: seq<Change>, now: State, inc: Users,
                  dec: Users, table: seq<NodeInfo>, numbers: seq<Change>)
    requires OriginOk(w, b, t) && k < |w.lists[t]| && Tries(w.D(), x.tries) && Tries(w.D(), x.netTries)
    requires Share(w, b, t, k, x, changes)
    requires var n := w.lists[t][k];
             && InVisit(w, b.s, n, x, now, inc, dec, table, |w.netConns[n]|) && Dated(changes, numbers, w.batch)
             && ShiftNoted(changes, numbers, w.batch, PathsOf(b.s.paths, w.netConns[n]),
                           PathsOf(now.paths, w.netConns[n]))
    ensures Share(w, b, t, k + 1, Trace(x.tries, x.tries, table, x.table, x.dec), numbers)
  {
    var n := w.lists[t][k];
    TailNoRepeat(b.done, w.lists[t]);
    ListDone(w.site, b.s, n, w.netConns[n], x.netTable, table, x.netTries, x.tries);
    ShareWorkStep(w.site, b.s, w.netConns, w.lists[t], k, b.table, x.netTable, b.changes, changes, w.batch, b.tries,
                  x.netTries,
                  table, numbers, x.tries);
    MoreDone(w, b, t, k);
  }

  lemma MoreDone(w: World, b: Origin, t: nat, k: nat)
    requires t < |w.lists| && k < |w.lists[t]|
    ensures b.done + w.lists[t][..k + 1] == b.done + w.lists[t][..k] + [w.lists[t][k]]
  {
  }

  lemma NotesMore(w: World, s: State, tries: seq<Event>, incs: seq<Users>, decs: seq<Users>, done: seq<nat>, n: nat)
    requires Fitted(w.site, s) && Tries(w.D(), tries) && |incs| == |decs| == w.site.nets && n < w.site.nets
    requires DoneNotes(w, s, tries, incs, decs, done) && NetNotes(w.D(), s, tries, n, incs[n], decs[n])
    ensures DoneNotes(w, s, tries, incs, decs, done + [n])
  {
  }

  lemma NoteWrites(w: World, m: Memory, t: nat)
    requires Fit(w, m) && t < |w.lists| && !Resting(w, m, t) && ThreadFits(w, m, t)
    requires m.ctl[t].stage.Visit? && m.ctl[t].stage.j >= |w.netConns[w.lists[t][m.ctl[t].k]]|
    ensures var n := w.lists[t][m.ctl[t].k];
            var m' := Step(w, m, t);
            && m'.s == m.s && m'.incs == m.incs && m'.decs == m.decs
            && |m'.ctl| == |m'.changes| == |m'.tables| == |w.lists|
            && m'.tables[t] == m.tables[t] && m'.ctl[t] == Control(m.ctl[t].k + 1, Fetch)
            && m'.changes[t] == Shifted(m.changes[t], w.batch, m.ctl[t].stage.before, PathsOf(m.s.paths, w.netConns[n]))
  {
    EffectIsOwn(w, m, t);
  }

  lemma AfterNet(w: World, b: Origin, m: Memory, t: nat, x: Trace)
    requires OriginOk(w, b, t) && Doing(w, b, m, t, x) && !Resting(w, m, t)
    requires m.ctl[t].stage.Visit? && m.ctl[t].stage.j == |w.netConns[w.lists[t][m.ctl[t].k]]|
    ensures Fit(w, Step(w, m, t)) && Doing(w, b, Step(w, m, t), t, Trace(x.tries, x.tries, m.tables[t], x.table, x.dec))
  {
    var k := m.ctl[t].k;
    var n, m' := w.lists[t][k], Step(w, m, t);
    StepFits(w, m, t);
    NoteWrites(w, m, t);
    assert ThreadFits(w, m', t);
    ShareMore(w, b, t, k, x, m.changes[t], m.s, m.incs[n], m.decs[n], m.tables[t], m'.changes[t]);
    NotesMore(w, b.s, x.tries, m.incs, m.decs, b.done + w.lists[t][..k], n);
    MoreDone(w, b, t, k);
  }

  lemma StepDoing(w: World, b: Origin, m: Memory, t: nat, x: Trace) returns (x': Trace)
    requires OriginOk(w, b, t) && Doing(w, b, m, t, x)
    ensures Fit(w, Step(w, m, t)) && Doing(w, b, Step(w, m, t), t, x')
  {
    x' := x;
    if !Resting(w, m, t) {
      if m.ctl[t].stage.Visit? && m.ctl[t].stage.j == |w.netConns[w.lists[t][m.ctl[t].k]]| {
        AfterNet(w, b, m, t, x);
        x' := Trace(x.tries, x.tries, m.tables[t], x.table, x.dec);
      } else {
        x' := WithinNet(w, b, m, t, x);
      }
    }
  }
}
