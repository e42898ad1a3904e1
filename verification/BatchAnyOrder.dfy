/**
 A batch as it really runs: routing threads in any interleaving, then commits in any
 interleaving (src/route/stableFirstRouting.cpp, lines 3-112). Its outcome is that of rerouting the
 same connections one after another.
 */
module BatchAnyOrder {
  import opened Counting
  import opened Interleaving
  import opened Ledger
  import opened Congestion
  import opened SwiftSync
  import opened SyncBatch
  import opened BatchOutcome
  import opened BatchNotes
  import opened BatchCover
  import opened BatchVisits
  import opened BatchIteration
  import opened Answered
  import opened BatchMachine
  import opened BatchSolo
  import opened BatchThread
  import opened BatchConfluence
  import opened BatchTermination

  /** The given nets are done: they hold their notes and have visited their connections. */
  ghost predicate NetsDone(w: World, s: State, r: Memory, tries: seq<Event>, done: seq<nat>) {
    && Fit(w, r) && Fitted(w.site, s) && Tries(w.D(), tries) && r.s == Noted(w.D(), s, tries)
    && OnlyOf(w.D(), tries, done)
    && DoneNotes(w, s, tries, r.incs, r.decs, done)
    && AllVisited(w.D(), s, tries, done)
  }

  /** The first t threads are done: nets, tables, numbers and answers. */
  ghost predicate Phase(w: World, m: Memory, t: nat, r: Memory, tries: seq<Event>) {
    && t <= |w.lists| && NetsDone(w, m.s, r, tries, Flat(w.lists[..t]))
    && PhaseWork(w.site, m.s, w.lists, t, m.tables, r.tables, m.changes, r.changes, w.batch, tries)
    && PhaseAnswered(w.site, m.s, w.lists, m.tables, tries)
  }

  lemma PhaseStart(w: World, m: Memory)
    requires Ready(w, m)
    ensures Phase(w, m, 0, m, [])
  {
  }

  /** Every thread has come through its share. */
  ghost predicate Through(w: World, m: Memory) {
    |m.ctl| == |w.lists| && forall t: nat :: t < |w.lists| ==> m.ctl[t].k == |w.lists[t]| && !m.ctl[t].stage.Halted?
  }

  /** Where thread t starts when the threads before it are done. */
  function Turn(w: World, m: Memory, t: nat, tries: seq<Event>): Origin
    requires t < |w.lists| == |m.tables| == |m.changes|
  {
    Origin(m.s, tries, m.tables[t], m.changes[t], Flat(w.lists[..t]))
  }

  lemma TurnStarts(w: World, m: Memory, t: nat, before: Memory, tries: seq<Event>)
    requires Ready(w, m) && t < |w.lists| && Phase(w, m, t, before, tries) && SamePart(w, t, before, m)
    ensures Starts(w, Turn(w, m, t, tries), before, t)
  {
    FlatStep(w.lists, t);
    assert ThreadFits(w, m, t);
    forall i | 0 <= i < |w.lists[t]|
      ensures SwiftSync.Positive(m.s.users[w.lists[t][i]], |w.site.g|)
    {
      assert w.lists[t][i] in Flat(w.lists);
    }
  }

  /** What the share leaves, once it is complete. */
  lemma ShareDone(w: World, b: Origin, r: Memory, t: nat, x: Trace)
    requires OriginOk(w, b, t) && Doing(w, b, r, t, x) && r.ctl[t].k == |w.lists[t]|
    requires OnlyOf(w.D(), b.tries, b.done) && AllVisited(w.D(), b.s, b.tries, b.done)
    ensures NetsDone(w, b.s, r, x.tries, b.done + w.lists[t])
    ensures ShareVisit(w.site, b.s, w.lists[t], b.table, r.tables[t], b.tries, x.tries)
    ensures ThreadDone(w.site, b.s, w.lists[t], b.table, r.tables[t], b.changes, r.changes[t], w.batch, x.tries)
  {
    assert w.lists[t][..|w.lists[t]|] == w.lists[t];
    DoneApart(b.done, w.lists[t]);
    VisitedStay(w.D(), b.s, b.tries, x.tries, b.done, w.lists[t]);
    if Sound(w.D(), b.s) && Earlier(b.changes, w.batch) {
      ShiftsBound(w.D(), b.s, x.tries, w.netConns, b.changes, r.changes[t], w.batch, w.lists[t]);
    }
  }

  lemma DoneApart(done: seq<nat>, more: seq<nat>)
    requires NoRepeat(done + more)
    ensures forall i :: 0 <= i < |done| ==> done[i] !in more
  {
    forall i, j | 0 <= i < |done| && 0 <= j < |more| ensures done[i] != more[j] {
      assert (done + more)[i] == done[i] && (done + more)[|done| + j] == more[j];
    }
  }

  /** One more thread takes its turn. */
  lemma TurnDone(w: World, m: Memory, t: nat, before: Memory, r: Memory, tries0: seq<Event>, x: Trace)
    requires Ready(w, m) && t < |w.lists| && Phase(w, m, t, before, tries0) && OriginOk(w, Turn(w, m, t, tries0), t)
    requires Doing(w, Turn(w, m, t, tries0), r, t, x) && r.ctl[t].k == |w.lists[t]|
    requires ButFor(before.tables, r.tables, t) && ButFor(before.changes, r.changes, t)
    ensures Phase(w, m, t + 1, r, x.tries)
  {
    FlatStep(w.lists, t);
    ShareDone(w, Turn(w, m, t, tries0), r, t, x);
    PhaseStep(w.site, m.s, w.lists, t, m.tables, before.tables, m.changes, before.changes, w.batch, tries0, r.tables,
              r.changes, x.tries);
    PhaseAnswersOn(w.site, m.s, w.lists, t, m.tables, tries0, r.tables[t], x.tries);
  }

  /** The two memories hold the same tables of thread u. */
  ghost predicate SameTables(u: nat, a: Memory, b: Memory) {
    && u < |a.tables| == |b.tables| && u < |a.changes| == |b.changes|
    && a.tables[u] == b.tables[u] && a.changes[u] == b.changes[u]
  }

  lemma TablesInOrder(w: World, m: Memory, a: seq<nat>, n: nat, u: nat, r: Memory, x: Memory)
    requires Fit(w, m) && Names(a, |w.lists|) && n <= |w.lists| && u < |w.lists|
    requires r == Play(StepIn(w), m, InOrder(a, n)) && x == if u < n then Play(StepIn(w), m, a) else m
    ensures Fit(w, r) && SameTables(u, r, x)
  {
    PartInOrder(w, m, a, n, u);
  }

  lemma OtherKeeps(w: World, m: Memory, a: seq<nat>, t: nat, before: Memory, r: Memory, u: nat)
    requires Fit(w, m) && Names(a, |w.lists|) && t < |w.lists| && u < |w.lists| && u != t
    requires before == Play(StepIn(w), m, InOrder(a, t)) && r == Play(StepIn(w), m, InOrder(a, t + 1))
    ensures SameTables(u, before, r)
  {
    var x := if u < t then Play(StepIn(w), m, a) else m;
    TablesInOrder(w, m, a, t, u, before, x);
    TablesInOrder(w, m, a, t + 1, u, r, x);
  }

  /** Only the moving thread's tables change. */
  lemma OthersKeep(w: World, m: Memory, a: seq<nat>, t: nat, before: Memory, r: Memory)
    requires Fit(w, m) && Names(a, |w.lists|) && t < |w.lists|
    requires before == Play(StepIn(w), m, InOrder(a, t)) && r == Play(StepIn(w), m, InOrder(a, t + 1))
    requires |before.tables| == |r.tables| == |before.changes| == |r.changes| == |w.lists|
    ensures ButFor(before.tables, r.tables, t) && ButFor(before.changes, r.changes, t)
  {
    forall u: nat | u < |w.lists| && u != t ensures SameTables(u, before, r) { OtherKeeps(w, m, a, t, before, r, u); }
    ButForTables(|w.lists|, t, before, r);
  }

  lemma ButForTables(threads: nat, t: nat, before: Memory, r: Memory)
    requires |before.tables| == |r.tables| == |before.changes| == |r.changes| == threads
    requires forall u: nat :: u < threads && u != t ==> SameTables(u, before, r)
    ensures ButFor(before.tables, r.tables, t) && ButFor(before.changes, r.changes, t)
  {
    forall u: nat | u < threads && u != t ensures r.tables[u] == before.tables[u] && r.changes[u] == before.changes[u] {
      assert SameTables(u, before, r);
    }
  }

  lemma TurnTaken(w: World, m: Memory, a: seq<nat>, t: nat, before: Memory, tries0: seq<Event>)
    returns (tries: seq<Event>)
    requires Ready(w, m) && Names(a, |w.lists|) && t < |w.lists| && Through(w, Play(StepIn(w), m, a))
    requires before == Play(StepIn(w), m, InOrder(a, t)) && Phase(w, m, t, before, tries0)
    ensures Phase(w, m, t + 1, Play(StepIn(w), m, InOrder(a, t + 1)), tries)
  {
    PartInOrder(w, m, a, t, t);
    PartInOrder(w, m, a, t + 1, t);
    TurnStarts(w, m, t, before, tries0);
    TurnIsAlone(StepIn(w), m, a, t, t + 1);
    var x := AloneDoing(w, Turn(w, m, t, tries0), before, t, Count(a, t));
    OthersKeep(w, m, a, t, before, Play(StepIn(w), m, InOrder(a, t + 1)));
    TurnDone(w, m, t, before, Play(StepIn(w), m, InOrder(a, t + 1)), tries0, x);
    tries := x.tries;
  }

  lemma {:induction false} PhaseInOrder(w: World, m: Memory, a: seq<nat>, t: nat) returns (tries: seq<Event>)
    requires Ready(w, m) && Names(a, |w.lists|) && t <= |w.lists| && Through(w, Play(StepIn(w), m, a))
    ensures Phase(w, m, t, Play(StepIn(w), m, InOrder(a, t)), tries)
  {
    tries := [];
    PhaseStart(w, m);
    if t > 0 {
      tries := PhaseInOrder(w, m, a, t - 1);
      tries := TurnTaken(w, m, a, t - 1, Play(StepIn(w), m, InOrder(a, t - 1)), tries);
    }
  }

  /**
   Whatever the interleaving of its threads, a routing phase that comes through leaves what
   the threads would leave in turn: the paths of the tries, their notes net by net, the
   numbers, and searches that were decided by the counts of the last barrier.
   */
  lemma PhaseAnyOrder(w: World, m: Memory, a: seq<nat>) returns (tries: seq<Event>)
    requires Ready(w, m) && Names(a, |w.lists|) && Through(w, Play(StepIn(w), m, a))
    ensures NetsDone(w, m.s, Play(StepIn(w), m, a), tries, Flat(w.lists))
    ensures var r := Play(StepIn(w), m, a);
            PhaseDone(w.site, m.s, w.lists, r.s, m.tables, r.tables, m.changes, r.changes, w.batch, tries)
  {
    SameAsInOrder(w, m, a);
    tries := PhaseInOrder(w, m, a, |w.lists|);
    assert w.lists[..|w.lists|] == w.lists;
    DoneNotShort(w, m.s, Play(StepIn(w), m, a), tries, Flat(w.lists));
  }

  lemma DoneNotShort(w: World, s: State, r: Memory, tries: seq<Event>, done: seq<nat>)
    requires NetsDone(w, s, r, tries, done)
    ensures NoneShort(w.D(), s, done)
  {
    forall n: nat | n < w.site.nets && n in done ensures !Short(w.D(), s, n) {
      var i :| 0 <= i < |done| && done[i] == n;
      NotesNotShort(w.D(), s, tries, n, r.incs[done[i]], r.decs[done[i]]);
    }
  }

  /**
   Unless a thread stops inside a search, the batch comes to its barrier exactly if none of its
   nets was short at the last one, whatever the interleaving.
   */
  lemma GoesOnExactly(w: World, m: Memory, a: seq<nat>)
    requires Ready(w, m) && Names(a, |w.lists|) && AllRest(w, Play(StepIn(w), m, a))
    requires forall t: nat :: t < |w.lists| ==>
      var stage := Play(StepIn(w), m, a).ctl[t].stage; stage.Halted? ==> stage.uncovered
    ensures Through(w, Play(StepIn(w), m, a)) <==> NoneShort(w.D(), m.s, Flat(w.lists))
  {
    var r := Play(StepIn(w), m, a);
    if Through(w, r) {
      var tries := PhaseAnyOrder(w, m, a);
    } else {
      var t: nat :| t < |w.lists| && !(r.ctl[t].k == |w.lists[t]| && !r.ctl[t].stage.Halted?);
      assert Resting(w, r, t);
      HaltCause(w, m, a, t);
      FlatStep(w.lists, t);
      assert forall n :: n in w.lists[t] ==> n in Flat(w.lists);
    }
  }

  /** The notes of the batch's nets, committed. */
  ghost predicate Committed(w: World, s: State, r: Memory, users: seq<Users>) {
    && Fit(w, r) && Shaped(w.D(), s) && |users| == w.site.nets
    && (forall n: nat :: n < w.site.nets && n in Flat(w.lists) ==>
          Settles(s.users[n], r.incs[n], r.decs[n], users[n]) && SwiftSync.Positive(users[n], |w.site.g|))
    && (forall n: nat :: n < w.site.nets && n !in Flat(w.lists) ==> users[n] == s.users[n])
  }

  /**
   A whole batch: threads in any interleaving up to the barrier, then the commits of all nets
   in any interleaving. The state afterwards is the one that rerouting the same connections
   one after another leaves, and no decrement is left uncovered.
   */
  lemma BatchAnyInterleaving(w: World, m: Memory, a: seq<nat>, users: seq<Users>, acts: seq<seq<Act>>,
                             commits: seq<nat>, stamp: seq<int>, mine: seq<nat>)
    returns (tries: seq<Event>)
    requires Ready(w, m) && InStep(w.D(), m.s, mine) && (forall n :: n in Flat(w.lists) ==> n in mine)
    requires Names(a, |w.lists|) && Through(w, Play(StepIn(w), m, a))
    requires Committed(w, m.s, Play(StepIn(w), m, a), users) && |stamp| == |w.site.g| && NewBatch(stamp, w.batch)
    requires AllTrack(m.s.users, users, acts, |w.site.g|) && Complete(acts, commits)
    ensures var r := Play(StepIn(w), m, a);
            && BatchDone(w.site, mine, m.s, w.lists, m.tables, r.tables, m.changes, r.changes, w.batch, tries)
            && r.s == Noted(w.D(), m.s, tries)
    ensures Interleaving.Fits(acts, commits) && OnBoard(Board(m.s.occ, stamp), Merge(acts, commits))
    ensures AfterBatch(w.D(), m.s, tries, users, Merge(acts, commits), stamp, w.batch) == Run(w.D(), m.s, tries)
  {
    var r := Play(StepIn(w), m, a);
    tries := PhaseAnyOrder(w, m, a);
    NotesCommit(w, m.s, r, tries, users);
    BatchAnySchedule(w.D(), m.s, tries, Flat(w.lists), users, acts, commits, stamp, w.batch);
    BatchKeepsStep(w.D(), m.s, tries, Flat(w.lists), mine);
    DoneBatch(w.site, mine, m.s, w.lists, m.tables, r.tables, m.changes, r.changes, w.batch, tries, r.s);
  }

  lemma NotesCommit(w: World, s: State, r: Memory, tries: seq<Event>, users: seq<Users>)
    requires NetsDone(w, s, r, tries, Flat(w.lists)) && Committed(w, s, r, users)
    ensures Commits(w.D(), s, tries, Flat(w.lists), users) && AllCovered(w.D(), s, tries)
  {
    forall n: nat | n < w.site.nets && n in Flat(w.lists) ensures NetNotes(w.D(), s, tries, n, r.incs[n], r.decs[n]) {
      var i :| 0 <= i < |Flat(w.lists)| && Flat(w.lists)[i] == n;
    }
    BatchCommits(w.D(), s, tries, users, r.incs, r.decs, Flat(w.lists));
  }
}
