/**
 The visits of a batch, seen from one thread (aStarRoute::routeWorker,
 src/route/stableFirstRouting.cpp, lines 60-88): what a visit of a connection, of a net and
 of a thread's share add to the tries of the batch and to the thread's scratch table.
 */
module BatchVisits {
  import opened Counting
  import opened Interleaving
  import opened Search
  import opened Ledger
  import opened Congestion
  import opened Convergence
  import opened SyncBatch
  import opened OccChange
  import opened PendingChange
  import opened BatchOutcome
  import opened BatchCover
  import opened BatchNotes
  import opened BatchAnswers
  import opened Site
  import opened Alarms
  import opened Answered
  import opened IterationLog

  /** Answered tries stay answered if the stamps were spare, and joining paths are followed by joining paths. */
  ghost predicate Carries(site: Site, s: State, tries0: seq<Event>, tries: seq<Event>, spare: bool) {
    && Fitted(site, s) && Tries(site.D(), tries0) && Tries(site.D(), tries)
    && (spare && BatchAnswered(site, s, tries0) ==> BatchAnswered(site, s, tries))
    && (BatchJoined(site, tries0) ==> BatchJoined(site, tries))
  }

  /** A visit of connection c that led from one table to the other and from tries to more. */
  ghost predicate SyncVisit(site: Site, s: State, c: nat, table: seq<NodeInfo>, after: seq<NodeInfo>, tries: seq<Event>,
                            more: seq<Event>) {
    && c < |site.conns| && Carries(site, s, tries, more, Unused(site.Uid(c), table))
    && MoreOf(site.D(), tries, more, [site.conns[c].net])
    && (forall e: nat :: InTries(more, e) <==> InTries(tries, e) || (e == c && ShouldRoute(site.D(), s, c)))
    && if ShouldRoute(site.D(), s, c) then Restamped(site.Uid(c), table, after) else after == table
  }

  lemma SkippedVisit(site: Site, s: State, c: nat, table: seq<NodeInfo>, tries: seq<Event>)
    requires Fitted(site, s) && c < |site.conns| && Tries(site.D(), tries) && !ShouldRoute(site.D(), s, c)
    ensures SyncVisit(site, s, c, table, table, tries, tries)
  {
  }

  lemma TriedVisit(site: Site, s: State, c: nat, table: seq<NodeInfo>, after: seq<NodeInfo>, tries: seq<Event>,
                   answer: seq<nat>)
    requires Fitted(site, s) && c < |site.conns| && Tries(site.D(), tries) && Tries(site.D(), tries + [Try(c, answer)])
    requires ShouldRoute(site.D(), s, c) && Restamped(site.Uid(c), table, after)
    requires JoinsOrFails(site, c, answer) && (Unused(site.Uid(c), table) ==> TryAnswered(site, s, c, answer))
    ensures SyncVisit(site, s, c, table, after, tries, tries + [Try(c, answer)])
  {
    var more := tries + [Try(c, answer)];
    forall e: nat ensures InTries(more, e) <==> InTries(tries, e) || e == c { AppendedTry(tries, c, answer, e); }
    if Unused(site.Uid(c), table) && BatchAnswered(site, s, tries) { AnsweredMoreTries(site, s, tries, c, answer); }
  }

  /** Visits of the first k connections in the list of net n. */
  ghost predicate ListVisit(site: Site, s: State, n: nat, list: seq<nat>, k: nat, table0: seq<NodeInfo>,
                            table: seq<NodeInfo>, tries0: seq<Event>, tries: seq<Event>)
  {
    && NetList(site.D(), list, n) && k <= |list|
    && Carries(site, s, tries0, tries, Spare(list, 0, site.connectionIdBase, table0))
    && MoreOf(site.D(), tries0, tries, [n]) && TriedUpTo(site.D(), s, tries, list, k)
    && StampedNets(site.D(), table0, table, site.connectionIdBase, {n}, tries)
    && (Spare(list, 0, site.connectionIdBase, table0) ==> Spare(list, k, site.connectionIdBase, table))
  }

  lemma ListStart(site: Site, s: State, n: nat, list: seq<nat>, table: seq<NodeInfo>, tries: seq<Event>)
    requires Fitted(site, s) && NetList(site.D(), list, n) && Tries(site.D(), tries) && NoneOf(site.D(), tries, n)
    ensures ListVisit(site, s, n, list, 0, table, table, tries, tries)
  {
    TriedNone(site.D(), s, tries, list, n);
  }

  lemma MoreMore(d: Design, a: seq<Event>, b: seq<Event>, c: seq<Event>, nets: seq<nat>, more: seq<nat>, all: seq<nat>)
    requires Tries(d, b) && Tries(d, c) && MoreOf(d, a, b, nets) && MoreOf(d, b, c, more)
    requires (forall n :: n in nets ==> n in all) && forall n :: n in more ==> n in all
    ensures MoreOf(d, a, c, all)
  {
    forall i | |a| <= i < |c| ensures d.conns[c[i].conn].net in all {
      if i < |b| { assert c[i] == b[i]; }
    }
  }

  /** More tries, more stamps: one table after another. */
  lemma StampedOn(d: Design, base: nat, before: seq<NodeInfo>, now: seq<NodeInfo>, after: seq<NodeInfo>, nets: set<nat>,
                  more: set<nat>, all: set<nat>, tries: seq<Event>, later: seq<Event>)
    requires StampedNets(d, before, now, base, nets, tries) && StampedNets(d, now, after, base, more, later)
    requires tries <= later && nets <= all && more <= all
    ensures StampedNets(d, before, after, base, all, later)
  {
    forall c | c in TriedOf(d, nets, tries) ensures c in TriedOf(d, all, later) {
      var i :| 0 <= i < |tries| && tries[i].Try? && tries[i].conn == c;
      assert later[i] == tries[i];
    }
    StampedMore(before, now, after, base, TriedOf(d, nets, tries), TriedOf(d, more, later), TriedOf(d, all, later));
  }

  lemma VisitStamps(site: Site, s: State, c: nat, table: seq<NodeInfo>, after: seq<NodeInfo>, tries: seq<Event>,
                    more: seq<Event>)
    requires SyncVisit(site, s, c, table, after, tries, more)
    ensures StampedNets(site.D(), table, after, site.connectionIdBase, {site.conns[c].net}, more)
  {
    if ShouldRoute(site.D(), s, c) { assert c in TriedOf(site.D(), {site.conns[c].net}, more); }
  }

  lemma ListStep(site: Site, s: State, n: nat, list: seq<nat>, k: nat, table0: seq<NodeInfo>, table: seq<NodeInfo>,
                 tries0: seq<Event>, tries: seq<Event>, after: seq<NodeInfo>, more: seq<Event>)
    requires k < |list| && NoRepeat(list) && ListVisit(site, s, n, list, k, table0, table, tries0, tries)
    requires SyncVisit(site, s, list[k], table, after, tries, more)
    ensures ListVisit(site, s, n, list, k + 1, table0, after, tries0, more)
  {
    var d, base := site.D(), site.connectionIdBase;
    MoreMore(d, tries0, tries, more, [n], [n], [n]);
    TriedMore(d, s, tries, more, list, k);
    VisitStamps(site, s, list[k], table, after, tries, more);
    StampedOn(d, base, table0, table, after, {n}, {n}, {n}, tries, more);
    if Spare(list, 0, base, table0) {
      assert Unused(list[k] + base, table);
      if ShouldRoute(d, s, list[k]) { SpareMore(list, k, base, table, after); }
    }
  }

  /** A stop at the k-th connection of the list. */
  lemma StopInList(site: Site, s: State, n: nat, list: seq<nat>, k: nat, table0: seq<NodeInfo>, table: seq<NodeInfo>,
                   tries0: seq<Event>, tries: seq<Event>, changes: seq<Change>, batch: int, inc: Users, dec: Users)
    requires k < |list| && ListVisit(site, s, n, list, k, table0, table, tries0, tries)
    requires StopSeen(site, s, list[k], changes, batch, inc, dec, table)
    ensures StopSeenBy(site, s, n, changes, batch, Spare(list, 0, site.connectionIdBase, table0))
  {
    assert Spare(list, 0, site.connectionIdBase, table0) ==> Unused(site.Uid(list[k]), table);
  }

  /** The visit of a whole net. */
  ghost predicate NetVisit(site: Site, s: State, n: nat, table0: seq<NodeInfo>, table: seq<NodeInfo>,
                           tries0: seq<Event>, tries: seq<Event>) {
    && Carries(site, s, tries0, tries, SpareNets(site.D(), {n}, site.connectionIdBase, table0))
    && MoreOf(site.D(), tries0, tries, [n]) && Visited(site.D(), s, tries, n)
    && StampedNets(site.D(), table0, table, site.connectionIdBase, {n}, tries)
  }

  lemma ListDone(site: Site, s: State, n: nat, list: seq<nat>, table0: seq<NodeInfo>, table: seq<NodeInfo>,
                 tries0: seq<Event>, tries: seq<Event>)
    requires ListVisit(site, s, n, list, |list|, table0, table, tries0, tries)
    ensures NetVisit(site, s, n, table0, table, tries0, tries)
  {
    AllTried(site.D(), s, tries, list, n);
    if SpareNets(site.D(), {n}, site.connectionIdBase, table0) {
      SpareList(site.D(), n, list, site.connectionIdBase, table0);
    }
  }

  /** Net n is routed: its tries are noted, in the state and in its own notes. */
  ghost predicate NetRouted(site: Site, s: State, n: nat, now: State, inc: Users, dec: Users, table0: seq<NodeInfo>,
                            table: seq<NodeInfo>, tries0: seq<Event>, tries: seq<Event>)
  {
    && n < site.nets && NetVisit(site, s, n, table0, table, tries0, tries)
    && now == Noted(site.D(), s, tries) && NetNotes(site.D(), s, tries, n, inc, dec)
  }

  function SetOf(nets: seq<nat>): set<nat> { set n | n in nets }

  /** The visit of a thread's share of the nets. */
  ghost predicate ShareVisit(site: Site, s: State, nets: seq<nat>, table0: seq<NodeInfo>, table: seq<NodeInfo>,
                             tries0: seq<Event>, tries: seq<Event>) {
    && Carries(site, s, tries0, tries, SpareNets(site.D(), SetOf(nets), site.connectionIdBase, table0))
    && MoreOf(site.D(), tries0, tries, nets) && AllVisited(site.D(), s, tries, nets)
    && StampedNets(site.D(), table0, table, site.connectionIdBase, SetOf(nets), tries)
  }

  lemma ShareStart(site: Site, s: State, table: seq<NodeInfo>, tries: seq<Event>)
    requires Fitted(site, s) && Tries(site.D(), tries)
    ensures ShareVisit(site, s, [], table, table, tries, tries)
  {
  }

  lemma ShareStep(site: Site, s: State, nets: seq<nat>, n: nat, table0: seq<NodeInfo>, table: seq<NodeInfo>,
                  tries0: seq<Event>, tries: seq<Event>, after: seq<NodeInfo>, more: seq<Event>)
    requires ShareVisit(site, s, nets, table0, table, tries0, tries) && NetVisit(site, s, n, table, after, tries, more)
    requires n !in nets
    ensures ShareVisit(site, s, nets + [n], table0, after, tries0, more)
  {
    var d, base := site.D(), site.connectionIdBase;
    MoreMore(d, tries0, tries, more, nets, [n], nets + [n]);
    StampedOn(d, base, table0, table, after, SetOf(nets), {n}, SetOf(nets + [n]), tries, more);
    VisitedStay(d, s, tries, more, nets, [n]);
    if SpareNets(d, SetOf(nets + [n]), base, table0) {
      assert SpareNets(d, SetOf(nets), base, table0);
      SpareKept(d, table0, table, base, SetOf(nets), {n}, tries);
    }
  }

  /** Tries of other nets leave a visited net visited. */
  lemma VisitedStay(d: Design, s: State, tries0: seq<Event>, tries: seq<Event>, done: seq<nat>, nets: seq<nat>)
    requires Shaped(d, s) && Tries(d, tries0) && Tries(d, tries) && MoreOf(d, tries0, tries, nets)
    requires forall i :: 0 <= i < |done| ==> done[i] !in nets && Visited(d, s, tries0, done[i])
    ensures AllVisited(d, s, tries, done)
  {
    forall i | 0 <= i < |done| ensures Visited(d, s, tries, done[i]) { OtherNet(d, s, tries0, tries, nets, done[i]); }
  }

  // Numbers

  /** Books in order and bounded numbers: what keeps the assertions of a search from failing. */
  ghost predicate Calm(site: Site, s: State, tries: seq<Event>, changes: seq<Change>, batch: int, mine: seq<nat>) {
    && site.Valid() && Orderly(site, s) && Tries(site.D(), tries) && |changes| == |site.g| && NoRepeat(mine)
    && Bounded(site.D(), s, tries, changes, batch, mine)
  }

  ghost predicate Orderly(site: Site, s: State) { Sound(site.D(), s) && CostsOk(site, s.factor) }

  /** A thread before its next net: its numbers are bounded, and the net's stamps still spare. */
  lemma BeforeNet(site: Site, s: State, lists: seq<seq<nat>>, netIds: seq<nat>, k: nat, table: seq<Change>,
                  changes: seq<Change>, batch: int, scratch: seq<NodeInfo>, now: seq<NodeInfo>, tries0: seq<Event>,
                  tries: seq<Event>)
    requires site.Valid() && NetLists(site.D(), lists) && NoRepeat(netIds) && k < |netIds| && |table| == |site.g|
    requires forall i :: 0 <= i < |netIds| ==> netIds[i] < site.nets
    requires ShareVisit(site, s, netIds[..k], scratch, now, tries0, tries)
    requires ShiftsNoted(table, changes, batch, s.paths, Noted(site.D(), s, tries).paths, lists, netIds[..k])
    ensures Orderly(site, s) && Earlier(table, batch) ==> Calm(site, s, tries, changes, batch, netIds[..k])
    ensures SpareNets(site.D(), SetOf(netIds), site.connectionIdBase, scratch) ==>
              SpareNets(site.D(), {netIds[k]}, site.connectionIdBase, now)
  {
    if Orderly(site, s) && Earlier(table, batch) {
      ShiftsBound(site.D(), s, tries, lists, table, changes, batch, netIds[..k]);
    }
    if SpareNets(site.D(), SetOf(netIds), site.connectionIdBase, scratch) {
      SpareKept(site.D(), scratch, now, site.connectionIdBase, SetOf(netIds[..k]), {netIds[k]}, tries);
    }
  }

  /** A thread's share after its first k nets: visits, noted shifts and stamps. */
  ghost predicate ShareWork(site: Site, s: State, lists: seq<seq<nat>>, netIds: seq<nat>, k: nat,
                            scratch: seq<NodeInfo>, now: seq<NodeInfo>, table: seq<Change>, changes: seq<Change>,
                            batch: int, tries0: seq<Event>, tries: seq<Event>)
  {
    && k <= |netIds| && ShareVisit(site, s, netIds[..k], scratch, now, tries0, tries)
    && ShiftsNoted(table, changes, batch, s.paths, Noted(site.D(), s, tries).paths, lists, netIds[..k])
    && Dated(table, changes, batch)
  }

  /** Why a thread stops inside a search for its next net. */
  lemma ShareStop(site: Site, s: State, lists: seq<seq<nat>>, netIds: seq<nat>, k: nat, scratch: seq<NodeInfo>,
                  now: seq<NodeInfo>, table: seq<Change>, changes: seq<Change>, batch: int, tries0: seq<Event>,
                  tries: seq<Event>)
    requires site.Valid() && NetLists(site.D(), lists) && NoRepeat(netIds) && k < |netIds| && |table| == |site.g|
    requires forall i :: 0 <= i < |netIds| ==> netIds[i] < site.nets
    requires ShareWork(site, s, lists, netIds, k, scratch, now, table, changes, batch, tries0, tries)
    requires StopSeenBy(site, s, netIds[k], changes, batch,
                        SpareNets(site.D(), {netIds[k]}, site.connectionIdBase, now))
    ensures
      Orderly(site, s) && Earlier(table, batch) &&
      SpareNets(site.D(), SetOf(netIds), site.connectionIdBase, scratch) ==>
        MayStop(site.g, s)
  {
    BeforeNet(site, s, lists, netIds, k, table, changes, batch, scratch, now, tries0, tries);
    if Orderly(site, s) && Earlier(table, batch) && SpareNets(site.D(), SetOf(netIds), site.connectionIdBase, scratch) {
      SyncStopCause(site, s, tries, netIds[..k], netIds[k], changes, batch);
    }
  }

  lemma ShareWorkStep(site: Site, s: State, lists: seq<seq<nat>>, netIds: seq<nat>, k: nat, scratch: seq<NodeInfo>,
                      now: seq<NodeInfo>, table: seq<Change>, was: seq<Change>, batch: int, tries0: seq<Event>,
                      before: seq<Event>, after: seq<NodeInfo>, changes: seq<Change>, tries: seq<Event>)
    requires NetLists(site.D(), lists) && NoRepeat(netIds) && k < |netIds| && netIds[k] < site.nets
    requires ShareWork(site, s, lists, netIds, k, scratch, now, table, was, batch, tries0, before)
    requires NetVisit(site, s, netIds[k], now, after, before, tries) && Dated(was, changes, batch)
    requires ShiftNoted(was, changes, batch, PathsOf(s.paths, lists[netIds[k]]),
                        PathsOf(Noted(site.D(), s, tries).paths, lists[netIds[k]]))
    ensures ShareWork(site, s, lists, netIds, k + 1, scratch, after, table, changes, batch, tries0, tries)
  {
    TakeMore(netIds, k);
    ShiftsStep(site.D(), s, before, tries, lists, netIds[..k], netIds[k], table, was, changes, batch);
    ShareStep(site, s, netIds[..k], netIds[k], scratch, now, tries0, before, after, tries);
    forall v | 0 <= v < |table| ensures changes[v].stamp == table[v].stamp || changes[v].stamp == batch {
      assert was[v].stamp == table[v].stamp || was[v].stamp == batch;
    }
  }

  /** One more net of a share: visited, and its shift noted. */
  ghost predicate NetWorked(site: Site, s: State, n: nat, list: seq<nat>, now: State, table0: seq<NodeInfo>,
                            table: seq<NodeInfo>, changes0: seq<Change>, changes: seq<Change>, batch: int,
                            tries0: seq<Event>, tries: seq<Event>, done: seq<nat>)
  {
    && NetVisit(site, s, n, table0, table, tries0, tries) && NetList(site.D(), list, n)
    && now == Noted(site.D(), s, tries) && OnlyOf(site.D(), tries, done + [n])
    && ShiftNoted(changes0, changes, batch, PathsOf(s.paths, list), PathsOf(now.paths, list))
  }

  // Threads

  /** What a thread's share leaves in its own tables. */
  ghost predicate ThreadDone(site: Site, s: State, netIds: seq<nat>, table0: seq<NodeInfo>, table: seq<NodeInfo>,
                             changes0: seq<Change>, changes: seq<Change>, batch: int, tries: seq<Event>)
  {
    && Fitted(site, s) && Tries(site.D(), tries)
    && StampedNets(site.D(), table0, table, site.connectionIdBase, SetOf(netIds), tries)
    && Dated(changes0, changes, batch)
    && (Sound(site.D(), s) && Earlier(changes0, batch) ==> Bounded(site.D(), s, tries, changes, batch, netIds))
  }

  /** No thread's table holds a stamp of its share. */
  ghost predicate SpareThreads(d: Design, lists: seq<seq<nat>>, base: nat, tables: seq<seq<NodeInfo>>) {
    |tables| == |lists| && forall u: nat :: u < |lists| ==> SpareNets(d, SetOf(lists[u]), base, tables[u])
  }

  ghost predicate AllEarlier(changes: seq<seq<Change>>, batch: int) {
    forall u: nat :: u < |changes| ==> Earlier(changes[u], batch)
  }

  ghost predicate DoneAt(site: Site, s: State, lists: seq<seq<nat>>, u: nat, tables0: seq<seq<NodeInfo>>,
                         tables: seq<seq<NodeInfo>>, changes0: seq<seq<Change>>, changes: seq<seq<Change>>, batch: int,
                         tries: seq<Event>)
    requires |lists| == |tables0| == |tables| == |changes0| == |changes|
  {
    u < |lists| && ThreadDone(site, s, lists[u], tables0[u], tables[u], changes0[u], changes[u], batch, tries)
  }

  /** The first t threads have done their share, the others have not begun. */
  ghost predicate PhaseWork(site: Site, s: State, lists: seq<seq<nat>>, t: nat, tables0: seq<seq<NodeInfo>>,
                            tables: seq<seq<NodeInfo>>, changes0: seq<seq<Change>>, changes: seq<seq<Change>>,
                            batch: int, tries: seq<Event>)
  {
    && |lists| == |tables0| == |tables| == |changes0| == |changes|
    && (forall u: nat :: u < t ==> DoneAt(site, s, lists, u, tables0, tables, changes0, changes, batch, tries))
    && (forall u: nat :: t <= u < |lists| ==> tables[u] == tables0[u] && changes[u] == changes0[u])
  }

  /** The two sequences differ at most at t. */
  ghost predicate ButFor<T>(a: seq<T>, b: seq<T>, t: nat) {
    |b| == |a| && forall u: nat :: u < |a| && u != t ==> b[u] == a[u]
  }

  lemma UpdateButFor<T>(a: seq<T>, t: nat, x: T)
    requires t < |a|
    ensures ButFor(a, a[t := x], t) && a[t := x][t] == x
  {
  }

  lemma PhaseStep(site: Site, s: State, lists: seq<seq<nat>>, t: nat, tables0: seq<seq<NodeInfo>>,
                  tables: seq<seq<NodeInfo>>, changes0: seq<seq<Change>>, changes: seq<seq<Change>>, batch: int,
                  tries0: seq<Event>, after: seq<seq<NodeInfo>>, numbers: seq<seq<Change>>, tries: seq<Event>)
    requires t < |lists| && NoRepeat(Flat(lists))
    requires PhaseWork(site, s, lists, t, tables0, tables, changes0, changes, batch, tries0)
    requires ButFor(tables, after, t) && ButFor(changes, numbers, t)
    requires Tries(site.D(), tries) && MoreOf(site.D(), tries0, tries, lists[t])
    requires ThreadDone(site, s, lists[t], tables0[t], after[t], changes0[t], numbers[t], batch, tries)
    ensures PhaseWork(site, s, lists, t + 1, tables0, after, changes0, numbers, batch, tries)
  {
    DoneMore(site, s, lists, t, tables0, tables, changes0, changes, batch, tries0, after, numbers, tries);
  }

  lemma DoneMore(site: Site, s: State, lists: seq<seq<nat>>, t: nat, tables0: seq<seq<NodeInfo>>,
                 tables: seq<seq<NodeInfo>>, changes0: seq<seq<Change>>, changes: seq<seq<Change>>, batch: int,
                 tries0: seq<Event>, after: seq<seq<NodeInfo>>, numbers: seq<seq<Change>>, tries: seq<Event>)
    requires |lists| == |tables0| == |tables| == |changes0| == |changes| && t < |lists| && NoRepeat(Flat(lists))
    requires ButFor(tables, after, t) && ButFor(changes, numbers, t)
    requires forall u: nat :: u < t ==> DoneAt(site, s, lists, u, tables0, tables, changes0, changes, batch, tries0)
    requires Tries(site.D(), tries) && MoreOf(site.D(), tries0, tries, lists[t])
    requires ThreadDone(site, s, lists[t], tables0[t], after[t], changes0[t], numbers[t], batch, tries)
    ensures forall u: nat :: u < t + 1 ==> DoneAt(site, s, lists, u, tables0, after, changes0, numbers, batch, tries)
  {
    forall u: nat | u < t + 1 ensures DoneAt(site, s, lists, u, tables0, after, changes0, numbers, batch, tries) {
      if u < t {
        assert DoneAt(site, s, lists, u, tables0, tables, changes0, changes, batch, tries0);
        FlatApart(lists, u, t);
        ThreadStays(site, s, lists[u], tables0[u], tables[u], changes0[u], changes[u], batch, tries0, tries, lists[t]);
      }
    }
  }

  /** Answered from the start if no thread's table held a stamp of its share. */
  ghost predicate PhaseAnswered(site: Site, s: State, lists: seq<seq<nat>>, tables0: seq<seq<NodeInfo>>,
                                tries: seq<Event>) {
    Carries(site, s, [], tries, SpareThreads(site.D(), lists, site.connectionIdBase, tables0))
  }

  lemma PhaseAnswersOn(site: Site, s: State, lists: seq<seq<nat>>, t: nat, tables0: seq<seq<NodeInfo>>,
                       tries0: seq<Event>, table: seq<NodeInfo>, tries: seq<Event>)
    requires t < |lists| == |tables0| && PhaseAnswered(site, s, lists, tables0, tries0)
    requires ShareVisit(site, s, lists[t], tables0[t], table, tries0, tries)
    ensures PhaseAnswered(site, s, lists, tables0, tries)
  {
    SpareOfThread(site.D(), lists, t, site.connectionIdBase, tables0);
  }

  /** The first t threads have done their share. */
  ghost predicate PhaseAt(site: Site, s: State, lists: seq<seq<nat>>, t: nat, tables0: seq<seq<NodeInfo>>,
                          tables: seq<seq<NodeInfo>>, changes0: seq<seq<Change>>, changes: seq<seq<Change>>, batch: int,
                          tries: seq<Event>)
  {
    && PhaseWork(site, s, lists, t, tables0, tables, changes0, changes, batch, tries)
    && PhaseAnswered(site, s, lists, tables0, tries)
  }

  lemma PhaseOn(site: Site, s: State, lists: seq<seq<nat>>, t: nat, tables0: seq<seq<NodeInfo>>,
                tables: seq<seq<NodeInfo>>, changes0: seq<seq<Change>>, changes: seq<seq<Change>>, batch: int,
                tries0: seq<Event>, table: seq<NodeInfo>, numbers: seq<Change>, tries: seq<Event>)
    requires t < |lists| && NoRepeat(Flat(lists))
    requires PhaseAt(site, s, lists, t, tables0, tables, changes0, changes, batch, tries0)
    requires ShareVisit(site, s, lists[t], tables0[t], table, tries0, tries)
    requires ThreadDone(site, s, lists[t], tables0[t], table, changes0[t], numbers, batch, tries)
    ensures PhaseAt(site, s, lists, t + 1, tables0, tables[t := table], changes0, changes[t := numbers], batch, tries)
  {
    UpdateButFor(tables, t, table);
    UpdateButFor(changes, t, numbers);
    PhaseStep(site, s, lists, t, tables0, tables, changes0, changes, batch, tries0, tables[t := table],
              changes[t := numbers], tries);
    PhaseAnswersOn(site, s, lists, t, tables0, tries0, table, tries);
  }

  /** The routing phase has led to now: no net was short, and everything is noted. */
  ghost predicate PhaseDone(site: Site, s: State, lists: seq<seq<nat>>, now: State, tables0: seq<seq<NodeInfo>>,
                            tables: seq<seq<NodeInfo>>, changes0: seq<seq<Change>>, changes: seq<seq<Change>>,
                            batch: int, tries: seq<Event>)
  {
    && Fitted(site, s) && Tries(site.D(), tries) && now == Noted(site.D(), s, tries)
    && OnlyOf(site.D(), tries, Flat(lists))
    && AllVisited(site.D(), s, tries, Flat(lists)) && NoneShort(site.D(), s, Flat(lists))
    && PhaseWork(site, s, lists, |lists|, tables0, tables, changes0, changes, batch, tries)
    && PhaseAnswered(site, s, lists, tables0, tries)
  }

  lemma SpareOfThread(d: Design, lists: seq<seq<nat>>, t: nat, base: nat, tables: seq<seq<NodeInfo>>)
    requires t < |lists| == |tables|
    ensures SpareThreads(d, lists, base, tables) ==> SpareNets(d, SetOf(lists[t]), base, tables[t])
  {
  }

  lemma ThreadStays(site: Site, s: State, netIds: seq<nat>, table0: seq<NodeInfo>, table: seq<NodeInfo>,
                    changes0: seq<Change>, changes: seq<Change>, batch: int, tries0: seq<Event>, tries: seq<Event>,
                    nets: seq<nat>)
    requires ThreadDone(site, s, netIds, table0, table, changes0, changes, batch, tries0)
    requires Tries(site.D(), tries) && MoreOf(site.D(), tries0, tries, nets)
    requires forall i :: 0 <= i < |netIds| ==> netIds[i] !in nets
    ensures ThreadDone(site, s, netIds, table0, table, changes0, changes, batch, tries)
  {
    StampedOn(site.D(), site.connectionIdBase, table0, table, table, SetOf(netIds), {}, SetOf(netIds), tries0, tries);
    if Sound(site.D(), s) && Earlier(changes0, batch) {
      BoundStays(site.D(), s, tries0, tries, changes, batch, netIds, nets);
    }
  }
}
