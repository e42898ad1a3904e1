/**
 An iteration of stability-first routing as a whole (src/route/stableFirstRouting.cpp, lines
 17-47): batches one after another, each starting from the barrier that the one before left.
 */
module BatchIteration {
  import opened Counting
  import opened Interleaving
  import opened Search
  import opened Congestion
  import opened Convergence
  import opened Exclusive
  import opened SyncBatch
  import opened OccChange
  import opened PendingChange
  import opened BatchOutcome
  import opened BatchNotes
  import opened BatchAnswers
  import opened BatchVisits
  import opened Site
  import opened Alarms
  import opened Answered
  import opened IterationLog

  /** At the start of its batch the connection needs routing, but its sink is not connected. */
  ghost predicate Blocked(site: Site, s: State, c: nat)
    requires Fitted(site, s) && c < |site.conns|
  {
    ShouldRoute(site.D(), s, c) && !SinkConnected(site.g, site.Term(c), s.users[site.conns[c].net])
  }

  /** A connection of a finished net is without a path exactly if it was blocked when its net's batch started. */
  ghost predicate Served(site: Site, t: State, done: seq<nat>, starts: map<nat, State>)
    requires Shaped(site.D(), t)
  {
    && (forall n :: n in done ==> n in starts && Fitted(site, starts[n]))
    && (forall c: nat :: c < |site.conns| && site.conns[c].net in done ==>
          (t.paths[c] == [] <==> Blocked(site, starts[site.conns[c].net], c)))
  }

  /**
   The iteration that began in s has reached t: by the given reroutings of different
   connections one after another, with books sound and in step for the nets that batches
   route, and with progress on the finished nets. If the stamps were spare, failures are those
   of blocked connections, and sinks stay with their owners.
   */
  ghost predicate Reached(site: Site, mine: seq<nat>, s: State, t: State, events: seq<Event>, done: seq<nat>,
                          starts: map<nat, State>, spare: bool)
  {
    && Fitted(site, s) && Tries(site.D(), events) && OnlyOf(site.D(), events, done) && t == Run(site.D(), s, events)
    && Sound(site.D(), t) && InStep(site.D(), t, mine) && Progressed(site.D(), s, t, done) && t.factor == s.factor
    && (Joined(site, s) ==> Joined(site, t))
    && (spare ==> Served(site, t, done, starts))
    && (spare && SinksDistinct(site.D()) && PinTypes(site.D()) && SinksOwned(site.D(), s) ==> SinksOwned(site.D(), t))
  }

  lemma ReachedStart(site: Site, mine: seq<nat>, s: State, spare: bool)
    requires Fitted(site, s) && Sound(site.D(), s) && InStep(site.D(), s, mine)
    ensures Reached(site, mine, s, s, [], [], map[], spare)
  {
  }

  /** The nets of the batch start from its barrier. */
  function StartsWith(starts: map<nat, State>, more: seq<nat>, t: State): map<nat, State> {
    starts + map n | n in more :: t
  }

  lemma {:induction false} SameFactor(d: Design, s: State, tries: seq<Event>)
    requires Shaped(d, s) && Tries(d, tries)
    ensures Run(d, s, tries).factor == s.factor
  {
    if |tries| > 0 { SameFactor(d, s, tries[..|tries| - 1]); }
  }

  /** After an answered batch a connection of a visited net is without a path exactly if it was blocked. */
  lemma BlockedStays(site: Site, t: State, tries: seq<Event>, c: nat)
    requires Fitted(site, t) && Sound(site.D(), t) && Tries(site.D(), tries) && c < |site.conns|
    requires Visited(site.D(), t, tries, site.conns[c].net) && BatchAnswered(site, t, tries)
    ensures Noted(site.D(), t, tries).paths[c] == [] <==> Blocked(site, t, c)
  {
    NotedPath(site.D(), t, tries, c);
    if InTries(tries, c) {
      var j :| 0 <= j < |tries| && tries[j].Try? && tries[j].conn == c;
      assert TryAnswered(site, t, tries[j].conn, tries[j].path);
    }
  }

  lemma ServedStep(site: Site, t: State, tries: seq<Event>, done: seq<nat>, more: seq<nat>, starts: map<nat, State>)
    requires Fitted(site, t) && Sound(site.D(), t) && Tries(site.D(), tries) && OnlyOf(site.D(), tries, more)
    requires forall i :: 0 <= i < |more| ==> more[i] !in done && Visited(site.D(), t, tries, more[i])
    requires Served(site, t, done, starts) && BatchAnswered(site, t, tries)
    ensures Served(site, Run(site.D(), t, tries), done + more, StartsWith(starts, more, t))
  {
    var d, r, starts' := site.D(), Run(site.D(), t, tries), StartsWith(starts, more, t);
    SamePaths(d, t, tries);
    forall c: nat | c < |site.conns| && site.conns[c].net in done + more
      ensures r.paths[c] == [] <==> Blocked(site, starts'[site.conns[c].net], c)
    {
      if site.conns[c].net in more {
        var i :| 0 <= i < |more| && more[i] == site.conns[c].net;
        assert Visited(d, t, tries, more[i]);
        BlockedStays(site, t, tries, c);
      } else {
        assert !InTries(tries, c);
        NotedPath(d, t, tries, c);
      }
    }
  }

  /** Joining paths are stored. */
  lemma {:induction false} NotedJoins(site: Site, s: State, tries: seq<Event>)
    requires Joined(site, s) && Tries(site.D(), tries) && BatchJoined(site, tries)
    ensures Joined(site, Noted(site.D(), s, tries))
  {
    if |tries| > 0 { NotedJoins(site, s, tries[..|tries| - 1]); }
  }

  lemma RunJoins(site: Site, s: State, tries: seq<Event>)
    requires Joined(site, s) && Tries(site.D(), tries) && BatchJoined(site, tries)
    ensures Joined(site, Run(site.D(), s, tries))
  {
    NotedJoins(site, s, tries);
    SamePaths(site.D(), s, tries);
  }

  /** Reroutings of further nets. */
  lemma TriesAppend(d: Design, events: seq<Event>, tries: seq<Event>, done: seq<nat>, more: seq<nat>)
    requires Tries(d, events) && Tries(d, tries) && OnlyOf(d, events, done) && OnlyOf(d, tries, more)
    requires forall i :: 0 <= i < |more| ==> more[i] !in done
    ensures Tries(d, events + tries) && OnlyOf(d, events + tries, done + more)
  {
  }

  /** What a batch leads to, as far as the state goes. */
  ghost predicate BatchMoves(site: Site, mine: seq<nat>, t: State, tries: seq<Event>, more: seq<nat>, spare: bool) {
    && Fitted(site, t) && Tries(site.D(), tries) && OnlyOf(site.D(), tries, more)
    && InStep(site.D(), Run(site.D(), t, tries), mine)
    && AllVisited(site.D(), t, tries, more)
    && BatchJoined(site, tries) && (spare ==> BatchAnswered(site, t, tries))
  }

  /** A batch over further nets. */
  lemma BatchStep(site: Site, mine: seq<nat>, s: State, t: State, events: seq<Event>, tries: seq<Event>, done: seq<nat>,
                  more: seq<nat>, starts: map<nat, State>, spare: bool)
    requires Reached(site, mine, s, t, events, done, starts, spare) && BatchMoves(site, mine, t, tries, more, spare)
    requires forall i :: 0 <= i < |more| ==> more[i] !in done
    ensures Reached(site, mine, s, Run(site.D(), t, tries), events + tries, done + more, StartsWith(starts, more, t),
                    spare)
  {
    var d := site.D();
    TriesAppend(d, events, tries, done, more);
    RunAppend(d, s, events, tries);
    RunKeepsSound(d, t, tries);
    ProgressStep(d, s, t, tries, done, more);
    SameFactor(d, t, tries);
    if Joined(site, s) { RunJoins(site, t, tries); }
    if spare {
      ServedStep(site, t, tries, done, more, starts);
      AnsweredPins(site, t, tries);
      if SinksDistinct(d) && PinTypes(d) && SinksOwned(d, s) { BatchKeepsOwned(d, t, tries); }
    }
  }

  // Batches and their nets

  predicate Below(stamp: seq<int>, bound: int) { forall v :: 0 <= v < |stamp| ==> stamp[v] < bound }

  /** The nets of all batches. */
  function FlatAll(batches: seq<seq<seq<nat>>>): seq<nat> {
    if |batches| == 0 then [] else FlatAll(batches[..|batches| - 1]) + Flat(batches[|batches| - 1])
  }

  /** Each batch has a list for every thread, and no net appears twice. */
  ghost predicate Spread(batches: seq<seq<seq<nat>>>, threads: nat, nets: nat) {
    && (forall b :: 0 <= b < |batches| ==> |batches[b]| == threads)
    && NoRepeat(FlatAll(batches)) && forall i :: 0 <= i < |FlatAll(batches)| ==> FlatAll(batches)[i] < nets
  }

  lemma {:induction false} FlatAllPrefix(batches: seq<seq<seq<nat>>>, b: nat)
    requires b <= |batches|
    ensures FlatAll(batches[..b]) <= FlatAll(batches)
  {
    if b < |batches| {
      FlatAllPrefix(batches[..|batches| - 1], b);
      assert batches[..|batches| - 1][..b] == batches[..b];
    } else {
      assert batches[..b] == batches;
    }
  }

  lemma SpreadStep(batches: seq<seq<seq<nat>>>, threads: nat, nets: nat, b: nat)
    requires b < |batches| && Spread(batches, threads, nets)
    ensures FlatAll(batches[..b + 1]) == FlatAll(batches[..b]) + Flat(batches[b])
    ensures NoRepeat(Flat(batches[b])) && forall i :: 0 <= i < |Flat(batches[b])| ==> Flat(batches[b])[i] < nets
    ensures forall i :: 0 <= i < |Flat(batches[b])| ==> Flat(batches[b])[i] !in FlatAll(batches[..b])
  {
    assert batches[..b + 1][..b] == batches[..b];
    FlatAllPrefix(batches, b + 1);
    var all, done, more := FlatAll(batches), FlatAll(batches[..b]), Flat(batches[b]);
    forall i | 0 <= i < |more| ensures more[i] == all[|done| + i] { assert (done + more)[|done| + i] == more[i]; }
    forall i | 0 <= i < |done| ensures done[i] == all[i] { assert (done + more)[i] == done[i]; }
  }

  /** None of the iteration's stamps that are still to come is in a table. */
  ghost predicate SpareLater(d: Design, batches: seq<seq<seq<nat>>>, b: nat, base: nat, infos: seq<seq<NodeInfo>>)
    requires b <= |batches|
  {
    forall u: nat :: u < |infos| ==> SpareNets(d, SetOf(FlatAll(batches)) - SetOf(FlatAll(batches[..b])), base,
                                               infos[u])
  }

  lemma {:induction false} InFlat(lists: seq<seq<nat>>, t: nat, x: nat)
    requires t < |lists| && x in lists[t]
    ensures x in Flat(lists)
  {
    if t < |lists| - 1 { InFlat(lists[..|lists| - 1], t, x); }
  }

  lemma LaterIsSpare(d: Design, batches: seq<seq<seq<nat>>>, threads: nat, nets: nat, b: nat, base: nat,
                     infos: seq<seq<NodeInfo>>)
    requires b < |batches| && Spread(batches, threads, nets) && |infos| == threads
    requires SpareLater(d, batches, b, base, infos)
    ensures SpareThreads(d, batches[b], base, infos)
  {
    SpreadStep(batches, threads, nets, b);
    FlatAllPrefix(batches, b + 1);
    forall u: nat | u < |infos| ensures SpareNets(d, SetOf(batches[b][u]), base, infos[u]) {
      forall n | n in batches[b][u] ensures n in SetOf(FlatAll(batches)) - SetOf(FlatAll(batches[..b])) {
        InFlat(batches[b], u, n);
        assert n in FlatAll(batches[..b + 1]);
      }
      assert SpareNets(d, SetOf(FlatAll(batches)) - SetOf(FlatAll(batches[..b])), base, infos[u]);
    }
  }

  lemma StillSpare(site: Site, s: State, batches: seq<seq<seq<nat>>>, threads: nat, nets: nat, b: nat,
                   infos: seq<seq<NodeInfo>>, after: seq<seq<NodeInfo>>, changes: seq<seq<Change>>,
                   changes': seq<seq<Change>>, batch: int, tries: seq<Event>)
    requires b < |batches| && Spread(batches, threads, nets) && |infos| == threads
    requires SpareLater(site.D(), batches, b, site.connectionIdBase, infos)
    requires PhaseWork(site, s, batches[b], threads, infos, after, changes, changes', batch, tries)
    ensures SpareLater(site.D(), batches, b + 1, site.connectionIdBase, after)
  {
    SpreadStep(batches, threads, nets, b);
    var d, base := site.D(), site.connectionIdBase;
    var now := SetOf(FlatAll(batches)) - SetOf(FlatAll(batches[..b]));
    var later := SetOf(FlatAll(batches)) - SetOf(FlatAll(batches[..b + 1]));
    forall u: nat | u < |after| ensures SpareNets(d, later, base, after[u]) {
      assert SpareNets(d, now, base, infos[u]);
      assert SpareNets(d, later, base, infos[u]);
      assert DoneAt(site, s, batches[b], u, infos, after, changes, changes', batch, tries);
      forall n | n in batches[b][u] ensures n !in later { InFlat(batches[b], u, n); }
      SpareKept(d, infos[u], after[u], base, SetOf(batches[b][u]), later, tries);
    }
  }

  lemma StillEarlier(site: Site, s: State, lists: seq<seq<nat>>, infos: seq<seq<NodeInfo>>, after: seq<seq<NodeInfo>>,
                     changes: seq<seq<Change>>, changes': seq<seq<Change>>, batch: int, tries: seq<Event>)
    requires PhaseWork(site, s, lists, |lists|, infos, after, changes, changes', batch, tries)
    ensures AllEarlier(changes, batch) ==> AllEarlier(changes', batch + 1)
    ensures forall u: nat :: u < |lists| ==> |after[u]| == |infos[u]| && |changes'[u]| == |changes[u]|
  {
    forall u: nat | u < |lists|
      ensures |after[u]| == |infos[u]| && |changes'[u]| == |changes[u]|
      ensures Earlier(changes[u], batch) ==> Earlier(changes'[u], batch + 1)
    {
      assert DoneAt(site, s, lists, u, infos, after, changes, changes', batch, tries);
    }
  }

  /** Batch b may be routed. */
  lemma BatchFits(batches: seq<seq<seq<nat>>>, threads: nat, nets: nat, b: nat, stamp: seq<int>, batch: int)
    requires b < |batches| && Spread(batches, threads, nets) && Below(stamp, batch)
    ensures |batches[b]| == threads && NewBatch(stamp, batch) && NoRepeat(Flat(batches[b]))
    ensures forall i :: 0 <= i < |Flat(batches[b])| ==> Flat(batches[b])[i] < nets
    ensures forall n :: n in Flat(batches[b]) ==> n in FlatAll(batches)
  {
    SpreadStep(batches, threads, nets, b);
    FlatAllPrefix(batches, b + 1);
    var all, done, more := FlatAll(batches), FlatAll(batches[..b]), Flat(batches[b]);
    forall n | n in more ensures n in all {
      var i :| 0 <= i < |more| && more[i] == n;
      assert (done + more)[|done| + i] == n;
      assert all[|done| + i] == n;
    }
  }

  // What batches leave in the tables

  ghost function TriedIn(d: Design, tries: seq<Event>): set<nat> { set c: nat | c < |d.conns| && InTries(tries, c) }

  /** As many as there are tries. */
  lemma {:induction false} TriedInSize(d: Design, tries: seq<Event>)
    requires Tries(d, tries)
    ensures |TriedIn(d, tries)| == |tries|
  {
    if |tries| == 0 {
      assert TriedIn(d, tries) == {};
    } else {
      var front, c := tries[..|tries| - 1], tries[|tries| - 1].conn;
      TriedInSize(d, front);
      forall e: nat ensures InTries(tries, e) <==> InTries(front, e) || e == c { LastTry(tries, e); }
      assert TriedIn(d, tries) == TriedIn(d, front) + {c} && c !in TriedIn(d, front);
    }
  }

  lemma TriedInAppend(d: Design, events: seq<Event>, tries: seq<Event>)
    requires Tries(d, events) && Tries(d, tries)
    ensures TriedIn(d, events + tries) == TriedIn(d, events) + TriedIn(d, tries)
  {
    var all := events + tries;
    forall c: nat ensures InTries(all, c) <==> InTries(events, c) || InTries(tries, c) {
      if InTries(events, c) {
        var i :| 0 <= i < |events| && events[i].Try? && events[i].conn == c; assert all[i] == events[i];
      }
      if InTries(tries, c) {
        var i :| 0 <= i < |tries| && tries[i].Try? && tries[i].conn == c;
        assert all[|events| + i] == tries[i];
      }
      if InTries(all, c) {
        var i :| 0 <= i < |all| && all[i].Try? && all[i].conn == c;
        assert if i < |events| then events[i] == all[i] else tries[i - |events|] == all[i];
      }
    }
  }

  /** Every thread's tables have an entry for each of the n nodes. */
  predicate AllSized(infos: seq<seq<NodeInfo>>, changes: seq<seq<Change>>, n: nat)
    requires |infos| == |changes|
  {
    forall t :: 0 <= t < |infos| ==> |infos[t]| == |changes[t]| == n
  }

  /** The threads' tables keep their sizes, and hold no new stamps but those of tried connections. */
  ghost predicate TablesLeft(base: nat, tried: set<nat>, infos: seq<seq<NodeInfo>>, after: seq<seq<NodeInfo>>,
                             changes: seq<seq<Change>>, changes': seq<seq<Change>>)
  {
    && |after| == |infos| == |changes'| == |changes|
    && (forall u: nat :: u < |infos| ==> StampedBy(infos[u], after[u], base, tried))
    && (forall u: nat :: u < |changes| ==> |changes'[u]| == |changes[u]|)
  }

  lemma TablesSame(base: nat, infos: seq<seq<NodeInfo>>, changes: seq<seq<Change>>)
    requires |infos| == |changes|
    ensures TablesLeft(base, {}, infos, infos, changes, changes)
  {
  }

  lemma TablesOn(base: nat, a: set<nat>, b: set<nat>, all: set<nat>, infos: seq<seq<NodeInfo>>, now: seq<seq<NodeInfo>>,
                 after: seq<seq<NodeInfo>>, changes: seq<seq<Change>>, changes1: seq<seq<Change>>,
                 changes2: seq<seq<Change>>)
    requires TablesLeft(base, a, infos, now, changes, changes1) && TablesLeft(base, b, now, after, changes1, changes2)
    requires a <= all && b <= all
    ensures TablesLeft(base, all, infos, after, changes, changes2)
  {
    forall u: nat | u < |infos| ensures StampedBy(infos[u], after[u], base, all) {
      assert StampedBy(infos[u], now[u], base, a) && StampedBy(now[u], after[u], base, b);
      StampedMore(infos[u], now[u], after[u], base, a, b, all);
    }
  }

  lemma PhaseLeaves(site: Site, s: State, lists: seq<seq<nat>>, infos: seq<seq<NodeInfo>>, after: seq<seq<NodeInfo>>,
                    changes: seq<seq<Change>>, changes': seq<seq<Change>>, batch: int, tries: seq<Event>)
    requires PhaseWork(site, s, lists, |lists|, infos, after, changes, changes', batch, tries)
    ensures TablesLeft(site.connectionIdBase, TriedIn(site.D(), tries), infos, after, changes, changes')
  {
    var d, base := site.D(), site.connectionIdBase;
    forall u: nat | u < |infos|
      ensures StampedBy(infos[u], after[u], base, TriedIn(d, tries)) && |changes'[u]| == |changes[u]|
    {
      assert DoneAt(site, s, lists, u, infos, after, changes, changes', batch, tries);
      StampedMore(infos[u], infos[u], after[u], base, {}, TriedOf(d, SetOf(lists[u]), tries), TriedIn(d, tries));
    }
  }

  /** A batch has been routed and committed from the barrier t. */
  ghost predicate BatchDone(site: Site, mine: seq<nat>, t: State, lists: seq<seq<nat>>, infos: seq<seq<NodeInfo>>,
                            after: seq<seq<NodeInfo>>, changes: seq<seq<Change>>, changes': seq<seq<Change>>,
                            batch: int, tries: seq<Event>)
  {
    && Shaped(site.D(), t) && Tries(site.D(), tries) && OnlyOf(site.D(), tries, Flat(lists))
    && InStep(site.D(), Run(site.D(), t, tries), mine) && AllCovered(site.D(), t, tries)
    && AllVisited(site.D(), t, tries, Flat(lists))
    && PhaseWork(site, t, lists, |lists|, infos, after, changes, changes', batch, tries)
    && PhaseAnswered(site, t, lists, infos, tries)
  }

  /** The routing phase, and the commit after it. */
  lemma DoneBatch(site: Site, mine: seq<nat>, t: State, lists: seq<seq<nat>>, infos: seq<seq<NodeInfo>>,
                  after: seq<seq<NodeInfo>>, changes: seq<seq<Change>>, changes': seq<seq<Change>>, batch: int,
                  tries: seq<Event>, now: State)
    requires PhaseDone(site, t, lists, now, infos, after, changes, changes', batch, tries)
    requires InStep(site.D(), Run(site.D(), t, tries), mine) && AllCovered(site.D(), t, tries)
    ensures BatchDone(site, mine, t, lists, infos, after, changes, changes', batch, tries)
  {
  }

  /** The state and the tables of an iteration that has come to its b-th batch. */
  ghost predicate Arrived(site: Site, batches: seq<seq<seq<nat>>>, b: nat, s: State, infos0: seq<seq<NodeInfo>>,
                          changes0: seq<seq<Change>>, t: State, infos: seq<seq<NodeInfo>>, changes: seq<seq<Change>>,
                          events: seq<Event>, starts: map<nat, State>, spare: bool)
  {
    && b <= |batches| && Reached(site, FlatAll(batches), s, t, events, FlatAll(batches[..b]), starts, spare)
    && TablesLeft(site.connectionIdBase, TriedIn(site.D(), events), infos0, infos, changes0, changes)
    && (spare ==> SpareLater(site.D(), batches, b, site.connectionIdBase, infos))
  }

  lemma ArrivedSizes(site: Site, batches: seq<seq<seq<nat>>>, b: nat, s: State, infos0: seq<seq<NodeInfo>>,
                     changes0: seq<seq<Change>>, t: State, infos: seq<seq<NodeInfo>>, changes: seq<seq<Change>>,
                     events: seq<Event>, starts: map<nat, State>, spare: bool)
    requires Arrived(site, batches, b, s, infos0, changes0, t, infos, changes, events, starts, spare)
    requires |infos0| == |changes0| && AllSized(infos0, changes0, |site.g|)
    ensures |infos| == |changes| == |infos0| && AllSized(infos, changes, |site.g|)
  {
    forall u: nat | u < |infos0| ensures |infos[u]| == |infos0[u]| && |changes[u]| == |changes0[u]| {
      assert StampedBy(infos0[u], infos[u], site.connectionIdBase, TriedIn(site.D(), events));
    }
  }

  lemma ArrivedStart(site: Site, batches: seq<seq<seq<nat>>>, s: State, infos: seq<seq<NodeInfo>>,
                     changes: seq<seq<Change>>, spare: bool)
    requires Fitted(site, s) && Sound(site.D(), s) && InStep(site.D(), s, FlatAll(batches)) && |infos| == |changes|
    requires spare ==> SpareLater(site.D(), batches, 0, site.connectionIdBase, infos)
    ensures Arrived(site, batches, 0, s, infos, changes, s, infos, changes, [], map[], spare)
  {
    ReachedStart(site, FlatAll(batches), s, spare);
    TablesSame(site.connectionIdBase, infos, changes);
    assert TriedIn(site.D(), []) == {};
  }

  lemma MovesOfBatch(site: Site, batches: seq<seq<seq<nat>>>, b: nat, t: State, infos: seq<seq<NodeInfo>>,
                     after: seq<seq<NodeInfo>>, changes: seq<seq<Change>>, changes': seq<seq<Change>>, batch: int,
                     tries: seq<Event>, spare: bool)
    requires b < |batches| && Spread(batches, |infos|, site.nets)
    requires BatchDone(site, FlatAll(batches), t, batches[b], infos, after, changes, changes', batch, tries)
    requires spare ==> SpareLater(site.D(), batches, b, site.connectionIdBase, infos)
    ensures BatchMoves(site, FlatAll(batches), t, tries, Flat(batches[b]), spare)
  {
    if spare { LaterIsSpare(site.D(), batches, |infos|, site.nets, b, site.connectionIdBase, infos); }
  }

  /** The program stops in batch number at, which starts from the barrier last. */
  ghost predicate HaltsAt(site: Site, batches: seq<seq<seq<nat>>>, at: nat, s: State, last: State, events: seq<Event>,
                          starts: map<nat, State>, spare: bool)
  {
    at < |batches| && Reached(site, FlatAll(batches), s, last, events, FlatAll(batches[..at]), starts, spare)
  }

  /** What makes a batch from the barrier t stop inside a search, if anything does. */
  ghost predicate StopsFor(site: Site, t: State, lists: seq<seq<nat>>, infos: seq<seq<NodeInfo>>,
                           changes: seq<seq<Change>>, batch: int)
    requires |infos| == |lists|
  {
    Orderly(site, t) && AllEarlier(changes, batch) && SpareThreads(site.D(), lists, site.connectionIdBase, infos) ==>
      MayStop(site.g, t)
  }

  lemma StopOfBatch(site: Site, batches: seq<seq<seq<nat>>>, b: nat, s: State, infos0: seq<seq<NodeInfo>>,
                    changes0: seq<seq<Change>>, t: State, infos: seq<seq<NodeInfo>>, changes: seq<seq<Change>>,
                    events: seq<Event>, starts: map<nat, State>, spare: bool, batch: int)
    requires b < |batches| && Spread(batches, |infos|, site.nets)
    requires Arrived(site, batches, b, s, infos0, changes0, t, infos, changes, events, starts, spare)
    requires StopsFor(site, t, batches[b], infos, changes, batch)
    ensures spare && AllEarlier(changes, batch) && CostsOk(site, s.factor) ==> MayStop(site.g, t)
  {
    if spare { LaterIsSpare(site.D(), batches, |infos|, site.nets, b, site.connectionIdBase, infos); }
  }

  /** The iteration after its next batch: state, tables and numbers. */
  lemma ArrivedNext(site: Site, batches: seq<seq<seq<nat>>>, b: nat, s: State, infos0: seq<seq<NodeInfo>>,
                    changes0: seq<seq<Change>>, t: State, infos: seq<seq<NodeInfo>>, changes: seq<seq<Change>>,
                    events: seq<Event>, starts: map<nat, State>, spare: bool, after: seq<seq<NodeInfo>>,
                    changes': seq<seq<Change>>, batch: int, tries: seq<Event>)
    requires b < |batches| && Spread(batches, |infos|, site.nets)
    requires Arrived(site, batches, b, s, infos0, changes0, t, infos, changes, events, starts, spare)
    requires BatchDone(site, FlatAll(batches), t, batches[b], infos, after, changes, changes', batch, tries)
    ensures Arrived(site, batches, b + 1, s, infos0, changes0, Run(site.D(), t, tries), after, changes', events + tries,
                    StartsWith(starts, Flat(batches[b]), t), spare)
    ensures AllEarlier(changes, batch) ==> AllEarlier(changes', batch + 1)
  {
    SpreadStep(batches, |infos|, site.nets, b);
    MovesOfBatch(site, batches, b, t, infos, after, changes, changes', batch, tries, spare);
    BatchStep(site, FlatAll(batches), s, t, events, tries, FlatAll(batches[..b]), Flat(batches[b]), starts, spare);
    StillEarlier(site, t, batches[b], infos, after, changes, changes', batch, tries);
    if spare { StillSpare(site, t, batches, |infos|, site.nets, b, infos, after, changes, changes', batch, tries); }
    LeftNext(site, batches[b], t, infos0, changes0, infos, changes, events, after, changes', batch, tries);
  }

  /** An iteration whose batches are numbered from first has come to its b-th batch, with tables and stamps in order. */
  ghost predicate Underway(site: Site, batches: seq<seq<seq<nat>>>, b: nat, first: int, s: State,
                           infos0: seq<seq<NodeInfo>>, changes0: seq<seq<Change>>, t: State, infos: seq<seq<NodeInfo>>,
                           changes: seq<seq<Change>>, stamp: seq<int>, events: seq<Event>, starts: map<nat, State>,
                           spare: bool)
  {
    && |infos| == |changes| == |infos0| && AllSized(infos, changes, |site.g|) && |stamp| == |site.g|
    && Below(stamp, first + b)
    && (AllEarlier(changes0, first) ==> AllEarlier(changes, first + b))
    && Arrived(site, batches, b, s, infos0, changes0, t, infos, changes, events, starts, spare)
  }

  /** The batch is done, and has stamped nodes with its number. */
  ghost predicate BatchLeft(site: Site, mine: seq<nat>, t: State, lists: seq<seq<nat>>, infos: seq<seq<NodeInfo>>,
                            after: seq<seq<NodeInfo>>, changes: seq<seq<Change>>, changes': seq<seq<Change>>,
                            stamp: seq<int>, stamp': seq<int>, batch: int, tries: seq<Event>)
  {
    BatchDone(site, mine, t, lists, infos, after, changes, changes', batch, tries) && StampedWith(stamp, stamp', batch)
  }

  lemma UnderwayReady(site: Site, batches: seq<seq<seq<nat>>>, b: nat, first: int, s: State, infos0: seq<seq<NodeInfo>>,
                      changes0: seq<seq<Change>>, t: State, infos: seq<seq<NodeInfo>>, changes: seq<seq<Change>>,
                      stamp: seq<int>, events: seq<Event>, starts: map<nat, State>, spare: bool)
    requires Underway(site, batches, b, first, s, infos0, changes0, t, infos, changes, stamp, events, starts, spare)
    ensures |infos| == |changes| == |infos0| && AllSized(infos, changes, |site.g|) && |stamp| == |site.g|
    ensures Below(stamp, first + b)
    ensures Shaped(site.D(), t) && InStep(site.D(), t, FlatAll(batches))
    ensures b < |batches| ==> HaltsAt(site, batches, b, s, t, events, starts, spare)
  {
  }

  lemma UnderwayNext(site: Site, batches: seq<seq<seq<nat>>>, b: nat, first: int, s: State, infos0: seq<seq<NodeInfo>>,
                     changes0: seq<seq<Change>>, t: State, infos: seq<seq<NodeInfo>>, changes: seq<seq<Change>>,
                     stamp: seq<int>, events: seq<Event>, starts: map<nat, State>, spare: bool, now: State,
                     after: seq<seq<NodeInfo>>, changes': seq<seq<Change>>, stamp': seq<int>, batch: int,
                     tries: seq<Event>)
    requires b < |batches| && Spread(batches, |infos|, site.nets) && |infos0| == |changes0|
    requires AllSized(infos0, changes0, |site.g|)
    requires Underway(site, batches, b, first, s, infos0, changes0, t, infos, changes, stamp, events, starts, spare)
    requires BatchLeft(site, FlatAll(batches), t, batches[b], infos, after, changes, changes', stamp, stamp', batch,
                       tries)
    requires now == Run(site.D(), t, tries) && batch == first + b
    ensures Underway(site, batches, b + 1, first, s, infos0, changes0, now, after, changes', stamp',
                     events + tries, StartsWith(starts, Flat(batches[b]), t), spare)
  {
    ArrivedNext(site, batches, b, s, infos0, changes0, t, infos, changes, events, starts, spare, after, changes',
                batch, tries);
    ArrivedSizes(site, batches, b + 1, s, infos0, changes0, now, after, changes', events + tries,
                 StartsWith(starts, Flat(batches[b]), t), spare);
  }

  lemma UnderwayStop(site: Site, batches: seq<seq<seq<nat>>>, b: nat, first: int, s: State, infos0: seq<seq<NodeInfo>>,
                     changes0: seq<seq<Change>>, t: State, infos: seq<seq<NodeInfo>>, changes: seq<seq<Change>>,
                     stamp: seq<int>, events: seq<Event>, starts: map<nat, State>, spare: bool)
    requires b < |batches| && Spread(batches, |infos0|, site.nets)
    requires Underway(site, batches, b, first, s, infos0, changes0, t, infos, changes, stamp, events, starts, spare)
    requires |infos| == |batches[b]| && StopsFor(site, t, batches[b], infos, changes, first + b)
    ensures spare && AllEarlier(changes0, first) && CostsOk(site, s.factor) ==> MayStop(site.g, t)
  {
    StopOfBatch(site, batches, b, s, infos0, changes0, t, infos, changes, events, starts, spare, first + b);
  }

  lemma LeftNext(site: Site, lists: seq<seq<nat>>, t: State, infos0: seq<seq<NodeInfo>>, changes0: seq<seq<Change>>,
                 infos: seq<seq<NodeInfo>>, changes: seq<seq<Change>>, events: seq<Event>, after: seq<seq<NodeInfo>>,
                 changes': seq<seq<Change>>, batch: int, tries: seq<Event>)
    requires Tries(site.D(), events) && Tries(site.D(), tries)
    requires TablesLeft(site.connectionIdBase, TriedIn(site.D(), events), infos0, infos, changes0, changes)
    requires PhaseWork(site, t, lists, |lists|, infos, after, changes, changes', batch, tries)
    ensures TablesLeft(site.connectionIdBase, TriedIn(site.D(), events + tries), infos0, after, changes0, changes')
  {
    var d := site.D();
    PhaseLeaves(site, t, lists, infos, after, changes, changes', batch, tries);
    TriedInAppend(d, events, tries);
    TablesOn(site.connectionIdBase, TriedIn(d, events), TriedIn(d, tries), TriedIn(d, events + tries), infos0, infos,
             after,
             changes0, changes, changes');
  }
}
