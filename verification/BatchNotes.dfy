/**
 What the nets and threads of a batch note while they route (src/route/stableFirstRouting.cpp,
 lines 60-112): counts per net, and pending occupancy changes per thread.
 */
module BatchNotes {
  import opened Counting
  import opened Ledger
  import opened Congestion
  import opened Convergence
  import opened SwiftSync
  import opened SyncBatch
  import opened OccChange
  import opened PendingChange
  import opened BatchOutcome
  import opened BatchCover

  /** What net n has noted so far in the batch that began in state s. */
  ghost predicate NetNotes(d: Design, s: State, tries: seq<Event>, n: nat, inc: Users, dec: Users)
    requires Shaped(d, s) && Tries(d, tries) && n < d.nets
  {
    && Positive(inc, d.nodes) && Positive(dec, d.nodes) && Covered(s.users[n], dec) && NeededBy(d, s, tries, n)
    && forall v: nat :: Cnt(inc, v) == IncOf(d, tries, n, v) && Cnt(dec, v) == DecOf(d, s, tries, n, v)
  }

  lemma OneMoreTry(d: Design, s: State, tries: seq<Event>, c: nat, path: seq<nat>)
    requires Shaped(d, s) && Tries(d, tries) && c < |d.conns| && !InTries(tries, c) && InNodes(path, d.nodes)
    ensures Tries(d, tries + [Try(c, path)])
    ensures Noted(d, s, tries + [Try(c, path)]) == NoteOne(d, Noted(d, s, tries), c, path)
  {
    var more := tries + [Try(c, path)];
    assert forall i :: 0 <= i < |tries| ==> tries[i].conn != c;
    assert more[..|tries|] == tries;
  }

  lemma MoreCounts(d: Design, s: State, tries: seq<Event>, c: nat, path: seq<nat>)
    requires Shaped(d, s) && Tries(d, tries) && c < |d.conns| && !InTries(tries, c) && InNodes(path, d.nodes)
    ensures Tries(d, tries + [Try(c, path)])
    ensures forall n, v: nat :: IncOf(d, tries + [Try(c, path)], n, v) ==
              IncOf(d, tries, n, v) + (if d.conns[c].net == n then Count(path, v) else 0)
    ensures forall n, v: nat :: DecOf(d, s, tries + [Try(c, path)], n, v) ==
              DecOf(d, s, tries, n, v) + (if d.conns[c].net == n then Count(Held(d, s, c), v) else 0)
  {
    var more := tries + [Try(c, path)];
    assert forall i :: 0 <= i < |tries| ==> tries[i].conn != c;
    assert more[..|tries|] == tries;
  }

  lemma NotesStep(d: Design, s: State, tries: seq<Event>, c: nat, path: seq<nat>,
                  inc: Users, dec: Users, inc': Users, dec': Users)
    requires Shaped(d, s) && Tries(d, tries) && c < |d.conns| && !InTries(tries, c) && InNodes(path, d.nodes)
    requires NetNotes(d, s, tries, d.conns[c].net, inc, dec) && ShouldRoute(d, s, c)
    requires Positive(inc', d.nodes) && Positive(dec', d.nodes) && Covered(s.users[d.conns[c].net], dec')
    requires Adds(inc, path, inc') && Adds(dec, Held(d, s, c), dec')
    ensures Tries(d, tries + [Try(c, path)]) && NetNotes(d, s, tries + [Try(c, path)], d.conns[c].net, inc', dec')
  {
    MoreCounts(d, s, tries, c, path);
  }

  lemma NoteTooMuch(d: Design, s: State, tries: seq<Event>, c: nat, inc: Users, dec: Users, v: nat)
    requires Shaped(d, s) && Tries(d, tries) && c < |d.conns| && !InTries(tries, c) && ShouldRoute(d, s, c)
    requires NetNotes(d, s, tries, d.conns[c].net, inc, dec) && v in Held(d, s, c)
    requires Cnt(dec, v) + Count(Held(d, s, c), v) > Cnt(s.users[d.conns[c].net], v)
    ensures Short(d, s, d.conns[c].net)
  {
    MoreCounts(d, s, tries, c, []);
    CountIn(Held(d, s, c), v);
    OverdrawnIsShort(d, s, tries + [Try(c, [])], d.conns[c].net, v);
  }

  /** A net whose connections have all been visited, and that still covers its notes, was not short. */
  lemma NotesNotShort(d: Design, s: State, tries: seq<Event>, n: nat, inc: Users, dec: Users)
    requires Shaped(d, s) && Tries(d, tries) && n < d.nets && NetNotes(d, s, tries, n, inc, dec)
    requires Visited(d, s, tries, n)
    ensures !Short(d, s, n)
  {
    forall v: nat ensures DecOf(d, s, tries, n, v) <= Cnt(s.users[n], v) { assert Cnt(dec, v) <= Cnt(s.users[n], v); }
    CoveredNotShort(d, s, tries, n);
  }

  lemma AppendedTry(tries: seq<Event>, c: nat, path: seq<nat>, e: nat)
    requires forall i :: 0 <= i < |tries| ==> tries[i].Try?
    ensures InTries(tries + [Try(c, path)], e) <==> InTries(tries, e) || e == c
  {
    var more := tries + [Try(c, path)];
    assert more[..|tries|] == tries;
    LastTry(more, e);
  }

  /** The new tries belong to the given nets. */
  ghost predicate MoreOf(d: Design, tries0: seq<Event>, tries: seq<Event>, nets: seq<nat>)
    requires Tries(d, tries)
  {
    tries0 <= tries && forall i :: |tries0| <= i < |tries| ==> d.conns[tries[i].conn].net in nets
  }

  lemma {:induction false} NothingNoted(d: Design, s: State, tries: seq<Event>, n: nat)
    requires Shaped(d, s) && Tries(d, tries) && n < d.nets && NoneOf(d, tries, n) && Positive(s.users[n], d.nodes)
    ensures NetNotes(d, s, tries, n, map[], map[])
  {
    forall v: nat ensures IncOf(d, tries, n, v) == 0 && DecOf(d, s, tries, n, v) == 0 { NothingAt(d, s, tries, n, v); }
  }

  lemma {:induction false} NothingAt(d: Design, s: State, tries: seq<Event>, n: nat, v: nat)
    requires Shaped(d, s) && Tries(d, tries) && NoneOf(d, tries, n)
    ensures IncOf(d, tries, n, v) == 0 && DecOf(d, s, tries, n, v) == 0
  {
    if |tries| > 0 { NothingAt(d, s, tries[..|tries| - 1], n, v); }
  }

  /** Tries of other nets change neither the notes of net m nor the state of its connections. */
  lemma {:induction false} OtherNet(d: Design, s: State, tries0: seq<Event>, tries: seq<Event>, nets: seq<nat>, m: nat)
    requires Shaped(d, s) && Tries(d, tries0) && Tries(d, tries) && MoreOf(d, tries0, tries, nets) && m !in nets
    ensures forall v: nat :: IncOf(d, tries, m, v) == IncOf(d, tries0, m, v)
    ensures forall v: nat :: DecOf(d, s, tries, m, v) == DecOf(d, s, tries0, m, v)
    ensures forall c: nat :: c < |d.conns| && d.conns[c].net == m ==>
              (InTries(tries, c) <==> InTries(tries0, c)) && Noted(d, s, tries).paths[c] == Noted(d, s, tries0).paths[c]
    ensures NeededBy(d, s, tries0, m) ==> NeededBy(d, s, tries, m)
  {
    if |tries0| < |tries| {
      var front := tries[..|tries| - 1];
      OtherNet(d, s, tries0, front, nets, m);
      forall c: nat
        ensures InTries(tries, c) <==> InTries(front, c) || tries[|tries| - 1].conn == c
      {
        LastTry(tries, c);
      }
    } else {
      assert tries == tries0;
    }
  }

  /** Among the first k listed connections exactly those that needed it have been tried, of the others none. */
  ghost predicate TriedUpTo(d: Design, s: State, tries: seq<Event>, list: seq<nat>, k: nat)
    requires Shaped(d, s) && forall j :: 0 <= j < |list| ==> list[j] < |d.conns|
  {
    forall j :: 0 <= j < |list| ==> (InTries(tries, list[j]) <==> j < k && ShouldRoute(d, s, list[j]))
  }

  lemma TriedNone(d: Design, s: State, tries: seq<Event>, list: seq<nat>, n: nat)
    requires Shaped(d, s) && Tries(d, tries) && NoneOf(d, tries, n)
    requires forall j :: 0 <= j < |list| ==> list[j] < |d.conns| && d.conns[list[j]].net == n
    ensures TriedUpTo(d, s, tries, list, 0)
  {
  }

  lemma TriedMore(d: Design, s: State, tries: seq<Event>, more: seq<Event>, list: seq<nat>, k: nat)
    requires Shaped(d, s) && (forall j :: 0 <= j < |list| ==> list[j] < |d.conns|) && NoRepeat(list) && k < |list|
    requires TriedUpTo(d, s, tries, list, k)
    requires forall e: nat :: InTries(more, e) <==> InTries(tries, e) || (e == list[k] && ShouldRoute(d, s, list[k]))
    ensures TriedUpTo(d, s, more, list, k + 1)
  {
  }

  lemma AllTried(d: Design, s: State, tries: seq<Event>, list: seq<nat>, n: nat)
    requires Shaped(d, s) && NetList(d, list, n) && TriedUpTo(d, s, tries, list, |list|)
    ensures Visited(d, s, tries, n)
  {
    forall c: nat | c < |d.conns| && d.conns[c].net == n ensures InTries(tries, c) <==> ShouldRoute(d, s, c) {
      var j :| 0 <= j < |list| && list[j] == c;
    }
  }

  /** What a thread has noted for v after the given nets. */
  ghost function ShiftSum(before: seq<seq<nat>>, after: seq<seq<nat>>, lists: seq<seq<nat>>, done: seq<nat>,
                          v: nat): int
    requires |before| == |after|
    requires forall i :: 0 <= i < |done| ==> done[i] < |lists|
    requires forall m, k :: 0 <= m < |lists| && 0 <= k < |lists[m]| ==> lists[m][k] < |before|
  {
    if |done| == 0 then 0
    else
      var m := done[|done| - 1];
      ShiftSum(before, after, lists, done[..|done| - 1], v) +
      Shift(PathsOf(before, lists[m]), PathsOf(after, lists[m]), v)
  }

  /** Every number of the thread's table has grown by the shifts of the given nets. */
  ghost predicate ShiftsNoted(table: seq<Change>, table': seq<Change>, batch: int, before: seq<seq<nat>>,
                              after: seq<seq<nat>>, lists: seq<seq<nat>>, done: seq<nat>)
  {
    && |table'| == |table| && |before| == |after|
    && (forall i :: 0 <= i < |done| ==> done[i] < |lists|)
    && (forall m, k :: 0 <= m < |lists| && 0 <= k < |lists[m]| ==> lists[m][k] < |before|)
    && forall v: nat :: v < |table| ==>
         Get(table'[v], batch) == Get(table[v], batch) + ShiftSum(before, after, lists, done, v)
  }

  ghost predicate NetLists(d: Design, lists: seq<seq<nat>>) {
    |lists| == d.nets && forall n :: 0 <= n < d.nets ==> NetList(d, lists[n], n)
  }

  lemma {:induction false} SameShifts(d: Design, s: State, tries0: seq<Event>, tries: seq<Event>, lists: seq<seq<nat>>,
                                      done: seq<nat>, n: nat, v: nat)
    requires Shaped(d, s) && Tries(d, tries0) && Tries(d, tries) && MoreOf(d, tries0, tries, [n]) && NetLists(d, lists)
    requires forall i :: 0 <= i < |done| ==> done[i] < |lists| && done[i] != n
    ensures ShiftSum(s.paths, Noted(d, s, tries).paths, lists, done, v) ==
            ShiftSum(s.paths, Noted(d, s, tries0).paths, lists, done, v)
  {
    if |done| > 0 {
      var m := done[|done| - 1];
      SameShifts(d, s, tries0, tries, lists, done[..|done| - 1], n, v);
      OtherNet(d, s, tries0, tries, [n], m);
      assert NetList(d, lists[m], m);
      assert PathsOf(Noted(d, s, tries).paths, lists[m]) == PathsOf(Noted(d, s, tries0).paths, lists[m]);
    }
  }

  lemma ShiftsStep(d: Design, s: State, tries0: seq<Event>, tries: seq<Event>, lists: seq<seq<nat>>, done: seq<nat>,
                   n: nat, table0: seq<Change>, table1: seq<Change>, table2: seq<Change>, batch: int)
    requires Shaped(d, s) && Tries(d, tries0) && Tries(d, tries) && MoreOf(d, tries0, tries, [n]) && NetLists(d, lists)
    requires n < d.nets && n !in done
    requires ShiftsNoted(table0, table1, batch, s.paths, Noted(d, s, tries0).paths, lists, done)
    requires ShiftNoted(table1, table2, batch, PathsOf(s.paths, lists[n]), PathsOf(Noted(d, s, tries).paths, lists[n]))
    ensures ShiftsNoted(table0, table2, batch, s.paths, Noted(d, s, tries).paths, lists, done + [n])
  {
    assert NetList(d, lists[n], n);
    assert (done + [n])[..|done|] == done;
    forall v: nat | v < |table0|
      ensures Get(table2[v], batch) ==
              Get(table0[v], batch) + ShiftSum(s.paths, Noted(d, s, tries).paths, lists, done + [n], v)
    {
      SameShifts(d, s, tries0, tries, lists, done, n, v);
    }
  }

  /**
   At the end of a thread's share the shifts it has noted are, for every node where no search
   has failed, at least the change of occupancy that the commit of its nets will bring.
   */
  lemma {:induction false} PendingBound(d: Design, s: State, tries: seq<Event>, lists: seq<seq<nat>>, done: seq<nat>,
                                        v: nat)
    requires CountLaw(d, s) && NoLossAt(d, s, v) && Tries(d, tries) && NetLists(d, lists)
    requires forall i :: 0 <= i < |done| ==> done[i] < d.nets && Visited(d, s, tries, done[i])
    requires forall c :: 0 <= c < |d.conns| ==> (s.routed[c] <==> s.paths[c] != [])
    ensures GainNoted(d, s, tries, done, v) <= ShiftSum(s.paths, Noted(d, s, tries).paths, lists, done, v)
  {
    if |done| > 0 {
      var m := done[|done| - 1];
      PendingBound(d, s, tries, lists, done[..|done| - 1], v);
      assert NetList(d, lists[m], m) && Visited(d, s, tries, m);
      ShiftBound(d, s, tries, m, lists[m], v);
    }
  }

  /** The thread's numbers are, where no search has failed, not below the change its finished nets will bring. */
  ghost predicate Bounded(d: Design, s: State, tries: seq<Event>, changes: seq<Change>, batch: int, done: seq<nat>)
    requires Shaped(d, s) && Tries(d, tries)
  {
    && (forall i :: 0 <= i < |done| ==> done[i] < d.nets)
    && forall v: nat :: v < |changes| && NoLossAt(d, s, v) ==> Get(changes[v], batch) >= GainNoted(d, s, tries, done, v)
  }

  /** No number belongs to the batch, or a later one. */
  predicate Earlier(changes: seq<Change>, batch: int) { forall v :: 0 <= v < |changes| ==> changes[v].stamp < batch }

  /** Tries of other nets leave the bound alone. */
  lemma BoundStays(d: Design, s: State, tries0: seq<Event>, tries: seq<Event>, changes: seq<Change>, batch: int,
                   done: seq<nat>, nets: seq<nat>)
    requires Shaped(d, s) && Tries(d, tries0) && Tries(d, tries) && MoreOf(d, tries0, tries, nets)
    requires Bounded(d, s, tries0, changes, batch, done) && forall i :: 0 <= i < |done| ==> done[i] !in nets
    ensures Bounded(d, s, tries, changes, batch, done)
  {
    forall v: nat | v < |changes| && NoLossAt(d, s, v)
      ensures Get(changes[v], batch) >= GainNoted(d, s, tries, done, v)
    {
      SameGains(d, s, tries0, tries, done, nets, v);
    }
  }

  lemma {:induction false} SameGains(d: Design, s: State, tries0: seq<Event>, tries: seq<Event>, done: seq<nat>,
                                     nets: seq<nat>, v: nat)
    requires Shaped(d, s) && Tries(d, tries0) && Tries(d, tries) && MoreOf(d, tries0, tries, nets)
    requires forall i :: 0 <= i < |done| ==> done[i] < d.nets && done[i] !in nets
    ensures GainNoted(d, s, tries, done, v) == GainNoted(d, s, tries0, done, v)
  {
    if |done| > 0 {
      SameGains(d, s, tries0, tries, done[..|done| - 1], nets, v);
      OtherNet(d, s, tries0, tries, nets, done[|done| - 1]);
    }
  }

  /** Numbers that started the batch with earlier stamps and have been kept up are bounded. */
  lemma ShiftsBound(d: Design, s: State, tries: seq<Event>, lists: seq<seq<nat>>, table: seq<Change>,
                    changes: seq<Change>, batch: int, done: seq<nat>)
    requires Sound(d, s) && Tries(d, tries) && NetLists(d, lists) && Earlier(table, batch)
    requires forall i :: 0 <= i < |done| ==> done[i] < d.nets && Visited(d, s, tries, done[i])
    requires ShiftsNoted(table, changes, batch, s.paths, Noted(d, s, tries).paths, lists, done)
    ensures Bounded(d, s, tries, changes, batch, done)
  {
    forall v: nat | v < |changes| && NoLossAt(d, s, v)
      ensures Get(changes[v], batch) >= GainNoted(d, s, tries, done, v)
    {
      PendingBound(d, s, tries, lists, done, v);
    }
  }

  /** The notes of the nets, once settled, amount to the commit of the batch. */
  lemma BatchCommits(d: Design, s: State, tries: seq<Event>, users: seq<Users>, incs: seq<Users>, decs: seq<Users>,
                     done: seq<nat>)
    requires Shaped(d, s) && Tries(d, tries) && OnlyOf(d, tries, done)
    requires |users| == |incs| == |decs| == d.nets
    requires forall n: nat :: n < d.nets && n in done ==>
      && NetNotes(d, s, tries, n, incs[n], decs[n]) && Settles(s.users[n], incs[n], decs[n], users[n])
      && Positive(users[n], d.nodes)
    requires forall n: nat :: n < d.nets && n !in done ==> users[n] == s.users[n]
    ensures Commits(d, s, tries, done, users) && AllCovered(d, s, tries)
  {
    forall n: nat, v: nat | n < d.nets && n in done
      ensures Cnt(users[n], v) == Cnt(s.users[n], v) + IncOf(d, tries, n, v) - DecOf(d, s, tries, n, v)
      ensures DecOf(d, s, tries, n, v) <= Cnt(s.users[n], v)
    {
      assert Cnt(decs[n], v) <= Cnt(s.users[n], v);
    }
    forall n: nat, v: nat | n < d.nets && n !in done
      ensures DecOf(d, s, tries, n, v) == 0
    {
      NothingAt(d, s, tries, n, v);
    }
  }

  lemma PathsBefore(d: Design, s: State, tries: seq<Event>, list: seq<nat>, n: nat)
    requires Shaped(d, s) && Tries(d, tries) && NoneOf(d, tries, n) && NetList(d, list, n)
    ensures PathsOf(Noted(d, s, tries).paths, list) == PathsOf(s.paths, list)
    ensures forall v: nat :: Total(PathsOf(s.paths, list), v) > 0 ==> v < d.nodes
  {
    forall k | 0 <= k < |list| ensures Noted(d, s, tries).paths[list[k]] == s.paths[list[k]] {
      assert !InTries(tries, list[k]);
      NotedPath(d, s, tries, list[k]);
    }
    forall v: nat | Total(PathsOf(s.paths, list), v) > 0 ensures v < d.nodes {
      var k := FindInTotal(PathsOf(s.paths, list), v);
      var i :| 0 <= i < |s.paths[list[k]]| && s.paths[list[k]][i] == v;
    }
  }
}
