/**
 What the searches of a batch answer (src/route/stableFirstRouting.cpp, lines 73-88 with
 aStarRoute::routeOneConnection under sync): by the counts of the last barrier alone, and
 without a failing assertion wherever no search has failed before.
 */
module BatchAnswers {
  import opened Counting
  import opened RoutingGraph
  import opened Search
  import opened Ledger
  import opened Congestion
  import opened Exclusive
  import opened SwiftSync
  import opened SyncBatch
  import opened OccChange
  import opened PendingChange
  import opened BatchOutcome
  import opened BatchNotes
  import opened Site
  import opened Answered
  import opened Alarms
  import opened IterationLog

  /** The answer is decided by the graph and the counts of the last barrier: a path exactly if the sink is connected. */
  ghost predicate TryAnswered(site: Site, s: State, c: nat, answer: seq<nat>)
    requires Fitted(site, s) && c < |site.conns|
  {
    var counts := s.users[site.conns[c].net];
    if SinkConnected(site.g, site.Term(c), counts) then PassablePath(site.g, site.Term(c), counts, answer)
    else answer == []
  }

  ghost predicate BatchAnswered(site: Site, s: State, tries: seq<Event>)
    requires Fitted(site, s) && Tries(site.D(), tries)
  {
    forall i :: 0 <= i < |tries| ==> TryAnswered(site, s, tries[i].conn, tries[i].path)
  }

  /** Every path of the batch joins the ends of its connection. */
  ghost predicate BatchJoined(site: Site, tries: seq<Event>)
    requires Tries(site.D(), tries) && |site.boxes| == |site.conns|
  {
    forall i :: 0 <= i < |tries| ==> JoinsOrFails(site, tries[i].conn, tries[i].path)
  }

  lemma AnswersTry(site: Site, s: State, c: nat, q: Query, table: seq<NodeInfo>, outcome: Outcome, answer: seq<nat>)
    requires Fitted(site, s) && c < |site.conns| && |table| == |q.g|
    requires q.g == site.g && q.c == site.Term(c) && q.counts == s.users[site.conns[c].net]
    requires Fresh(q, table) && Answers(site, q, c, table, outcome, answer) && !outcome.Stopped?
    ensures TryAnswered(site, s, c, answer)
  {
    FreshConclusion(q, table, outcome, answer);
  }

  lemma AnsweredMoreTries(site: Site, s: State, tries: seq<Event>, c: nat, answer: seq<nat>)
    requires Fitted(site, s) && Tries(site.D(), tries) && Tries(site.D(), tries + [Try(c, answer)]) && c < |site.conns|
    requires BatchAnswered(site, s, tries) && TryAnswered(site, s, c, answer)
    ensures BatchAnswered(site, s, tries + [Try(c, answer)])
  {
  }

  /** Answered batches respect pins. */
  lemma AnsweredPins(site: Site, s: State, tries: seq<Event>)
    requires Fitted(site, s) && Tries(site.D(), tries) && BatchAnswered(site, s, tries)
    ensures PinsRespected(site.D(), s, tries)
  {
    forall i | 0 <= i < |tries|
      ensures RespectsPins(site.D(), s.users[site.conns[tries[i].conn].net], tries[i].conn, tries[i].path)
    {
      assert TryAnswered(site, s, tries[i].conn, tries[i].path);
      TryRespectsPins(site, s, tries[i].conn, tries[i].path);
    }
  }

  lemma TryRespectsPins(site: Site, s: State, c: nat, answer: seq<nat>)
    requires Fitted(site, s) && c < |site.conns| && TryAnswered(site, s, c, answer)
    ensures RespectsPins(site.D(), s.users[site.conns[c].net], c, answer)
  {
    var d, counts := site.D(), s.users[site.conns[c].net];
    forall v | v in answer
      ensures v < d.nodes && (v == d.conns[c].source || v == d.conns[c].sink || !d.pinfeed[v] || v in counts)
    {
      var i :| 0 <= i < |answer| && answer[i] == v;
      if 1 <= i < |answer| - 1 { assert Passable(site.g, site.Term(c), counts, answer[i]); }
    }
  }

  // Stamps

  /** None of the nets' connections has its stamp in the table. */
  ghost predicate SpareNets(d: Design, nets: set<nat>, base: nat, table: seq<NodeInfo>) {
    forall c: nat :: c < |d.conns| && d.conns[c].net in nets ==> Unused(c + base, table)
  }

  /** The stamps of the table are as before, none, or those of tried connections of the given nets. */
  ghost predicate StampedNets(d: Design, before: seq<NodeInfo>, after: seq<NodeInfo>, base: nat, nets: set<nat>,
                              tries: seq<Event>) {
    StampedBy(before, after, base, TriedOf(d, nets, tries))
  }

  ghost function TriedOf(d: Design, nets: set<nat>, tries: seq<Event>): set<nat> {
    set c: nat | c < |d.conns| && d.conns[c].net in nets && InTries(tries, c)
  }

  lemma SpareKept(d: Design, before: seq<NodeInfo>, after: seq<NodeInfo>, base: nat, nets: set<nat>, later: set<nat>,
                  tries: seq<Event>)
    requires StampedNets(d, before, after, base, nets, tries) && SpareNets(d, later, base, before)
    requires later !! nets
    ensures SpareNets(d, later, base, after)
  {
    forall c: nat, v | c < |d.conns| && d.conns[c].net in later && 0 <= v < |after|
      ensures after[v].isVisited != c + base && after[v].isTarget != c + base
    {
      assert Unused(c + base, before);
      assert StampOk(before[v].isVisited, after[v].isVisited, base, TriedOf(d, nets, tries));
      assert StampOk(before[v].isTarget, after[v].isTarget, base, TriedOf(d, nets, tries));
    }
  }

  lemma StampedMore(before: seq<NodeInfo>, now: seq<NodeInfo>, after: seq<NodeInfo>, base: nat, a: set<nat>,
                    b: set<nat>, all: set<nat>)
    requires StampedBy(before, now, base, a) && StampedBy(now, after, base, b) && a <= all && b <= all
    ensures StampedBy(before, after, base, all)
  {
    forall v | 0 <= v < |before|
      ensures StampOk(before[v].isVisited, after[v].isVisited, base, all)
      ensures StampOk(before[v].isTarget, after[v].isTarget, base, all)
    {
      assert StampOk(before[v].isVisited, now[v].isVisited, base, a);
      assert StampOk(now[v].isVisited, after[v].isVisited, base, b);
      assert StampOk(before[v].isTarget, now[v].isTarget, base, a);
      assert StampOk(now[v].isTarget, after[v].isTarget, base, b);
    }
  }

  lemma SpareList(d: Design, n: nat, list: seq<nat>, base: nat, table: seq<NodeInfo>)
    requires NetList(d, list, n) && SpareNets(d, {n}, base, table)
    ensures Spare(list, 0, base, table)
  {
  }

  // Assertions

  /** A search of connection c saw a node at which the program stops. */
  ghost predicate StopSeen(site: Site, s: State, c: nat, changes: seq<Change>, batch: int, inc: Users, dec: Users,
                           table: seq<NodeInfo>) {
    && Fitted(site, s) && c < |site.conns| && |table| == |site.g|
    && SwiftSync.Positive(inc, |site.g|) && Covered(s.users[site.conns[c].net], dec)
    && StopInReach(SyncQuery(site, s, c, inc, dec, changes, batch), table)
  }

  /** One of the searches of net n did. If spare says so, its stamp was unused. */
  ghost predicate StopSeenBy(site: Site, s: State, n: nat, changes: seq<Change>, batch: int, spare: bool) {
    exists c: nat, inc: Users, dec: Users, table: seq<NodeInfo> ::
      && StopSeen(site, s, c, changes, batch, inc, dec, table) && site.conns[c].net == n
      && (spare ==> Unused(site.Uid(c), table))
  }

  /** In a batch neither assertion of getNodeCost can fail at a node where no search has failed. */
  lemma SyncNoAlarm(site: Site, s: State, tries: seq<Event>, done: seq<nat>, c: nat, inc: Users, dec: Users,
                    changes: seq<Change>, batch: int, v: nat, targeted: bool)
    requires site.Valid() && Sound(site.D(), s) && CostsOk(site, s.factor) && Tries(site.D(), tries)
    requires c < |site.conns| && v < |site.g| == |changes| && NoLossAt(site.D(), s, v)
    requires SwiftSync.Positive(inc, |site.g|) && Covered(s.users[site.conns[c].net], dec)
    requires NoRepeat(done) && site.conns[c].net !in done && Bounded(site.D(), s, tries, changes, batch, done)
    ensures !SyncQuery(site, s, c, inc, dec, changes, batch).alarm(v, targeted)
  {
    var n := site.conns[c].net;
    var b, u := BooksOf(s, n), SyncUse(s.users[n], inc, dec, changes, batch, v);
    assert TalliedAt(site.D(), s, v);
    assert PositiveAt(s.users[n], v);
    assert Cnt(dec, v) <= Cnt(s.users[n], v);
    SyncCostAssertions(site.D(), s, tries, done, n, v, FiguresOf(site, b, v), inc, dec, Get(changes[v], batch));
    OccNonNegative(s.users, v);
    Cost.ProductNonNegative(s.occ[v] as real, s.factor);
    NoAlarm(site, n, b, u, s.factor, v, targeted);
  }

  lemma {:induction false} OccNonNegative(users: seq<Users>, v: nat)
    ensures UsingNets(users, v) >= 0
  {
  }

  /**
   Why a batch stops inside a search: a pin or line that must not be met, or a search that
   failed before the batch.
   */
  lemma SyncStopCause(site: Site, s: State, tries: seq<Event>, done: seq<nat>, n: nat, changes: seq<Change>, batch: int)
    requires site.Valid() && Sound(site.D(), s) && CostsOk(site, s.factor) && Tries(site.D(), tries)
    requires |changes| == |site.g| && NoRepeat(done) && n !in done && Bounded(site.D(), s, tries, changes, batch, done)
    requires StopSeenBy(site, s, n, changes, batch, true)
    ensures MayStop(site.g, s)
  {
    var c: nat, inc: Users, dec: Users, table: seq<NodeInfo> :|
      StopSeen(site, s, c, changes, batch, inc, dec, table) && site.conns[c].net == n && Unused(site.Uid(c), table);
    var q := SyncQuery(site, s, c, inc, dec, changes, batch);
    forall v: nat | v < |q.g| && NoLossAt(site.D(), s, v) ensures !q.alarm(v, false) {
      SyncNoAlarm(site, s, tries, done, c, inc, dec, changes, batch, v, false);
    }
    QuietStopCause(site.D(), s, q, table);
  }

  /** A search whose assertions hold wherever no search has failed. */
  lemma QuietStopCause(d: Design, s: State, q: Query, table: seq<NodeInfo>)
    requires Shaped(d, s) && |table| == |q.g| && q.c.sink < |q.g| && Fresh(q, table) && StopInReach(q, table)
    requires forall v: nat :: v < |q.g| && NoLossAt(d, s, v) ==> !q.alarm(v, false)
    ensures MayStop(q.g, s)
  {
    var p, v: nat :| Arrives(q, table, p) && Edge(q.g, p[|p| - 1], v) && Stops(q, table, v);
    FreshStops(q, table, v);
  }
}
