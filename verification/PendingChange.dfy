/**
 How a thread notes the occupancy changes of the nets it has rerouted in the current batch
 (aStarRoute::routeWorker, lines 60-71 and 90-110 of src/route/stableFirstRouting.cpp), and
 what the noted numbers are good for: they never fall below the true change.
 */
module PendingChange {
  import opened Counting
  import opened Ledger
  import opened Congestion
  import opened Convergence
  import opened SyncBatch
  import opened OccChange
  import Cost

  /** What is noted for node v, from the paths of a net before and after. */
  function Shift(before: seq<seq<nat>>, after: seq<seq<nat>>, v: nat): int {
    if Total(before, v) == 0 then Total(after, v) else if Total(after, v) == 0 then -1 else 0
  }

  /**
   The number follows the net's use of the node, except that where the net is new it counts
   every further occurrence on its paths as well.
   */
  lemma ShiftOvercounts(before: seq<seq<nat>>, after: seq<seq<nat>>, v: nat)
    ensures var was, now := if Total(before, v) > 0 then 1 else 0, if Total(after, v) > 0 then 1 else 0;
      Shift(before, after, v) - (now - was) == if was == 0 && now == 1 then Total(after, v) - 1 else 0
  {
  }

  /** The noted change, read in the given batch, of every node. */
  ghost predicate Notes(table: seq<Change>, table': seq<Change>, batch: int, added: nat -> int) {
    |table'| == |table| && forall v: nat :: v < |table| ==> Get(table'[v], batch) == Get(table[v], batch) + added(v)
  }

  /** Numbers that were touched carry the stamp of the batch. */
  ghost predicate Dated(table: seq<Change>, table': seq<Change>, batch: int) {
    && |table'| == |table|
    && forall v :: 0 <= v < |table| ==> table'[v].stamp == table[v].stamp || table'[v].stamp == batch
  }

  /** The shift of one net has been added to every node's number. */
  ghost predicate ShiftNoted(table: seq<Change>, table': seq<Change>, batch: int, before: seq<seq<nat>>,
                             after: seq<seq<nat>>) {
    && |table'| == |table|
    && forall v: nat :: v < |table| ==> Get(table'[v], batch) == Get(table[v], batch) + Shift(before, after, v)
  }

  method UsedNodes(paths: seq<seq<nat>>) returns (used: set<nat>)
    ensures forall v: nat :: v in used <==> Total(paths, v) > 0
  {
    used := {};
    for k := 0 to |paths|
      invariant forall v: nat :: v in used <==> Total(paths[..k], v) > 0
    {
      assert paths[..k + 1][..k] == paths[..k];
      for j := 0 to |paths[k]|
        invariant forall v: nat :: v in used <==> Total(paths[..k], v) > 0 || v in paths[k][..j]
      {
        used := used + {paths[k][j]};
        assert paths[k][..j + 1] == paths[k][..j] + [paths[k][j]];
      }
      assert paths[k][..|paths[k]|] == paths[k];
      forall v: nat ensures v in paths[k] <==> Count(paths[k], v) > 0 { CountIn(paths[k], v); }
    }
    assert paths[..|paths|] == paths;
  }

  /** Count every occurrence of a node that was not used before. */
  method NotePath(path: seq<nat>, usedBefore: set<nat>, changes: array<Change>, batch: int)
    requires InNodes(path, changes.Length)
    modifies changes
    ensures Notes(old(changes[..]), changes[..], batch, (v: nat) => if v in usedBefore then 0 else Count(path, v))
    ensures Dated(old(changes[..]), changes[..], batch)
  {
    ghost var table := changes[..];
    for j := 0 to |path|
      invariant Notes(table, changes[..], batch, (v: nat) => if v in usedBefore then 0 else Count(path[..j], v))
      invariant Dated(table, changes[..], batch)
    {
      var v := path[j];
      assert path[..j + 1] == path[..j] + [v];
      forall u: nat ensures Count(path[..j + 1], u) == Count(path[..j], u) + (if u == v then 1 else 0) {
        CountSnoc(path[..j], v, u);
      }
      if v !in usedBefore { changes[v] := OccChange.Inc(changes[v], batch); }
    }
    assert path[..|path|] == path;
  }

  /** Note the changes of one net. */
  method NoteNet(ghost before: seq<seq<nat>>, usedBefore: set<nat>, after: seq<seq<nat>>, changes: array<Change>,
                 batch: int)
    requires forall k :: 0 <= k < |after| ==> InNodes(after[k], changes.Length)
    requires forall v: nat :: v in usedBefore ==> v < changes.Length
    requires forall v: nat :: v in usedBefore <==> Total(before, v) > 0
    modifies changes
    ensures ShiftNoted(old(changes[..]), changes[..], batch, before, after)
    ensures Dated(old(changes[..]), changes[..], batch)
  {
    ghost var table := changes[..];
    for k := 0 to |after|
      invariant Notes(table, changes[..], batch, (v: nat) => if v in usedBefore then 0 else Total(after[..k], v))
      invariant Dated(table, changes[..], batch)
    {
      NotePath(after[k], usedBefore, changes, batch);
      assert after[..k + 1][..k] == after[..k];
    }
    assert after[..|after|] == after;
    var usedAfter := UsedNodes(after);
    var todo := usedBefore;
    while todo != {}
      invariant todo <= usedBefore
      invariant Notes(table, changes[..], batch, (v: nat) => if v in todo then 0 else Shift(before, after, v))
      invariant Dated(table, changes[..], batch)
    {
      var v :| v in todo;
      if v !in usedAfter { changes[v] := OccChange.Dec(changes[v], batch); }
      todo := todo - {v};
    }
  }

  // The bound

  function PathsOf(paths: seq<seq<nat>>, list: seq<nat>): (r: seq<seq<nat>>)
    requires forall k :: 0 <= k < |list| ==> list[k] < |paths|
    ensures |r| == |list| && forall k :: 0 <= k < |r| ==> r[k] == paths[list[k]]
  {
    seq(|list|, k requires 0 <= k < |list| => paths[list[k]])
  }

  /** The list holds exactly the connections of net n. */
  ghost predicate NetList(d: Design, list: seq<nat>, n: nat) {
    && (forall k :: 0 <= k < |list| ==> list[k] < |d.conns| && d.conns[list[k]].net == n)
    && (forall c: nat :: c < |d.conns| && d.conns[c].net == n ==> c in list)
  }

  lemma {:induction false} TotalPositive(paths: seq<seq<nat>>, k: nat, v: nat)
    requires k < |paths| && v in paths[k]
    ensures Total(paths, v) > 0
  {
    if k < |paths| - 1 { TotalPositive(paths[..|paths| - 1], k, v); } else { CountIn(paths[k], v); }
  }

  lemma {:induction false} FindInTotal(paths: seq<seq<nat>>, v: nat) returns (k: nat)
    requires Total(paths, v) > 0
    ensures k < |paths| && v in paths[k]
  {
    var last := |paths| - 1;
    CountIn(paths[last], v);
    if v in paths[last] { k := last; } else { k := FindInTotal(paths[..last], v); }
  }

  lemma {:induction false} NotedPath(d: Design, s: State, tries: seq<Event>, c: nat)
    requires Shaped(d, s) && Tries(d, tries) && c < |d.conns|
    ensures !InTries(tries, c) ==>
      Noted(d, s, tries).paths[c] == s.paths[c] && Noted(d, s, tries).routed[c] == s.routed[c]
    ensures forall i :: 0 <= i < |tries| && tries[i].conn == c ==> Noted(d, s, tries).paths[c] == tries[i].path
  {
    if |tries| > 0 {
      NotedPath(d, s, tries[..|tries| - 1], c);
      LastTry(tries, c);
    }
  }

  lemma {:induction false} FindInc(d: Design, tries: seq<Event>, n: nat, v: nat) returns (i: nat)
    requires ValidDesign(d) && Tries(d, tries) && IncOf(d, tries, n, v) > 0
    ensures i < |tries| && d.conns[tries[i].conn].net == n && v in tries[i].path
  {
    var last := |tries| - 1;
    CountIn(tries[last].path, v);
    if d.conns[tries[last].conn].net == n && v in tries[last].path {
      i := last;
    } else {
      i := FindInc(d, tries[..last], n, v);
    }
  }

  lemma {:induction false} FindRest(d: Design, s: State, tries: seq<Event>, n: nat, v: nat, k: nat) returns (c: nat)
    requires Shaped(d, s) && k <= |d.conns| && RestSum(d, s, tries, n, v, k) > 0
    ensures c < k && d.conns[c].net == n && !InTries(tries, c) && v in Held(d, s, c)
  {
    if d.conns[k - 1].net == n && !InTries(tries, k - 1) && Load(d, s, k - 1, v) > 0 {
      CountIn(Held(d, s, k - 1), v);
      c := k - 1;
    } else {
      c := FindRest(d, s, tries, n, v, k - 1);
    }
  }

  /** A node still counted after the batch lies on a path of the net, whose connections have all been visited. */
  lemma CountedAfter(d: Design, s: State, tries: seq<Event>, n: nat, v: nat) returns (c: nat)
    requires CountLaw(d, s) && NoLossAt(d, s, v) && Tries(d, tries) && n < d.nets
    requires forall c: nat :: c < |d.conns| && d.conns[c].net == n && !InTries(tries, c) ==> s.paths[c] != []
    requires Cnt(s.users[n], v) + IncOf(d, tries, n, v) - DecOf(d, s, tries, n, v) > 0
    ensures c < |d.conns| && d.conns[c].net == n && v in Noted(d, s, tries).paths[c]
  {
    NotedPlusRest(d, s, tries, n, v);
    NothingLostAt(d, s, n, v, |d.conns|);
    if IncOf(d, tries, n, v) > 0 {
      var i := FindInc(d, tries, n, v);
      c := tries[i].conn;
    } else {
      c := FindRest(d, s, tries, n, v, |d.conns|);
    }
    NotedPath(d, s, tries, c);
  }

  /** The change of net n's membership at v that the commit of the batch will bring. */
  ghost function GainOf(d: Design, s: State, tries: seq<Event>, n: nat, v: nat): int
    requires Shaped(d, s) && Tries(d, tries) && n < d.nets
  {
    (if Cnt(s.users[n], v) + IncOf(d, tries, n, v) - DecOf(d, s, tries, n, v) > 0 then 1 else 0) - Member(s.users[n], v)
  }

  /** The same over all nets that a thread has finished. */
  ghost function GainNoted(d: Design, s: State, tries: seq<Event>, done: seq<nat>, v: nat): int
    requires Shaped(d, s) && Tries(d, tries) && forall i :: 0 <= i < |done| ==> done[i] < d.nets
  {
    if |done| == 0 then 0
    else GainNoted(d, s, tries, done[..|done| - 1], v) + GainOf(d, s, tries, done[|done| - 1], v)
  }

  /**
   What is noted for a net is never below the change of its membership at v that the commit
   will bring, where no search has failed before.
   */
  lemma ShiftBound(d: Design, s: State, tries: seq<Event>, n: nat, list: seq<nat>, v: nat)
    requires CountLaw(d, s) && NoLossAt(d, s, v) && Tries(d, tries) && n < d.nets && NetList(d, list, n)
    requires forall c: nat :: c < |d.conns| && d.conns[c].net == n && !InTries(tries, c) ==> s.paths[c] != []
    ensures GainOf(d, s, tries, n, v) <= Shift(PathsOf(s.paths, list), PathsOf(Noted(d, s, tries).paths, list), v)
  {
    if Cnt(s.users[n], v) + IncOf(d, tries, n, v) - DecOf(d, s, tries, n, v) > 0 {
      var c := CountedAfter(d, s, tries, n, v);
      var k :| 0 <= k < |list| && list[k] == c;
      TotalPositive(PathsOf(Noted(d, s, tries).paths, list), k, v);
    }
    if Total(PathsOf(s.paths, list), v) > 0 {
      var k := FindInTotal(PathsOf(s.paths, list), v);
      OnPathIsCounted(d, s, list[k], v);
    }
  }

  /** Change of membership at v over the nets that a thread has finished. */
  function GainSum(users: seq<Users>, after: seq<Users>, done: seq<nat>, v: nat): int
    requires |users| == |after| && forall i :: 0 <= i < |done| ==> done[i] < |users|
  {
    if |done| == 0 then 0
    else
      var m := done[|done| - 1];
      GainSum(users, after, done[..|done| - 1], v) + Member(after[m], v) - Member(users[m], v)
  }

  /** The tables as if only the finished nets had been committed. */
  function Ahead(users: seq<Users>, after: seq<Users>, done: seq<nat>): (r: seq<Users>)
    requires |users| == |after| && forall i :: 0 <= i < |done| ==> done[i] < |users|
    ensures |r| == |users|
  {
    if |done| == 0 then users else Ahead(users, after, done[..|done| - 1])[done[|done| - 1] := after[done[|done| - 1]]]
  }

  lemma {:induction false} AheadOther(users: seq<Users>, after: seq<Users>, done: seq<nat>, m: nat)
    requires |users| == |after| && (forall i :: 0 <= i < |done| ==> done[i] < |users|)
    requires m < |users| && forall i :: 0 <= i < |done| ==> done[i] != m
    ensures Ahead(users, after, done)[m] == users[m]
  {
    if |done| > 0 { AheadOther(users, after, done[..|done| - 1], m); }
  }

  lemma {:induction false} AheadUses(users: seq<Users>, after: seq<Users>, done: seq<nat>, v: nat)
    requires |users| == |after| && (forall i :: 0 <= i < |done| ==> done[i] < |users|) && NoRepeat(done)
    ensures UsingNets(Ahead(users, after, done), v) == UsingNets(users, v) + GainSum(users, after, done, v)
  {
    if |done| > 0 {
      var last := |done| - 1;
      AheadUses(users, after, done[..last], v);
      AheadOther(users, after, done[..last], done[last]);
      UsingNetsChange(Ahead(users, after, done[..last]), done[last], after[done[last]], v);
    }
  }

  lemma RoomForNet(users: seq<Users>, after: seq<Users>, done: seq<nat>, n: nat, v: nat, f: Cost.Figures,
                   u: Cost.NetUse)
    requires |users| == |after| && (forall i :: 0 <= i < |done| ==> done[i] < |users|) && NoRepeat(done)
    requires n < |users| && n !in done && f.occ == UsingNets(users, v) && PositiveAt(users[n], v)
    requires u.countOrigin == Cnt(users[n], v) && u.count > 0 && u.occChange >= GainSum(users, after, done, v)
    ensures Cost.OverOccupancy(f, u) >= 0
  {
    AheadUses(users, after, done, v);
    AheadOther(users, after, done, n);
    var ahead: seq<Users> := Ahead(users, after, done);
    var mine: Users := map[v := 1];
    UsingNetsChange(ahead, n, mine, v);
    OneUsingNet(ahead[n := mine], v, n);
  }

  /** A table with v in it or not, as the commit will leave it. */
  ghost function Outlook(d: Design, s: State, tries: seq<Event>, v: nat): (r: seq<Users>)
    requires Shaped(d, s) && Tries(d, tries)
    ensures |r| == d.nets
    ensures forall n :: 0 <= n < d.nets ==>
              Member(r[n], v) ==
              if Cnt(s.users[n], v) + IncOf(d, tries, n, v) - DecOf(d, s, tries, n, v) > 0 then 1 else 0
  {
    seq(d.nets, n requires 0 <= n < d.nets =>
      if Cnt(s.users[n], v) + IncOf(d, tries, n, v) - DecOf(d, s, tries, n, v) > 0 then map[v := 1] else map[])
  }

  lemma {:induction false} GainsAgree(d: Design, s: State, tries: seq<Event>, done: seq<nat>, v: nat)
    requires Shaped(d, s) && Tries(d, tries) && forall i :: 0 <= i < |done| ==> done[i] < d.nets
    ensures GainNoted(d, s, tries, done, v) == GainSum(s.users, Outlook(d, s, tries, v), done, v)
  {
    if |done| > 0 { GainsAgree(d, s, tries, done[..|done| - 1], v); }
  }

  /**
   Neither assertion of getNodeCost can fail in a batch where the thread's number is not below
   the change that its finished nets will bring: the net's running count is not negative, and
   the occupancy it reckons with leaves room for the net itself.
   */
  lemma SyncCostAssertions(d: Design, s: State, tries: seq<Event>, done: seq<nat>, n: nat, v: nat, f: Cost.Figures,
                           inc: Users, dec: Users, change: int)
    requires Shaped(d, s) && Tries(d, tries) && NoRepeat(done) && forall i :: 0 <= i < |done| ==> done[i] < d.nets
    requires n < d.nets && n !in done && f.occ == UsingNets(s.users, v) && PositiveAt(s.users[n], v)
    requires Cnt(dec, v) <= Cnt(s.users[n], v) && Cnt(inc, v) >= 0
    requires change >= GainNoted(d, s, tries, done, v)
    ensures var u := Cost.NetUse(Cnt(s.users[n], v) - Cnt(dec, v) + Cnt(inc, v), Cnt(s.users[n], v), change);
            u.count >= 0 && (u.count != 0 ==> Cost.OverOccupancy(f, u) >= 0)
  {
    GainsAgree(d, s, tries, done, v);
    var u := Cost.NetUse(Cnt(s.users[n], v) - Cnt(dec, v) + Cnt(inc, v), Cnt(s.users[n], v), change);
    if u.count != 0 { RoomForNet(s.users, Outlook(d, s, tries, v), done, n, v, f, u); }
  }
}
