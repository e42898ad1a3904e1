/**
 A batch of stability-first routing (src/route/stableFirstRouting.cpp, lines 17-137) as a
 whole: reroutings whose counts are noted first and committed later, by threads in any
 interleaving, come to the same as rerouting the connections one after another.
 */
module SyncBatch {
  import opened Counting
  import opened Interleaving
  import opened Ledger
  import opened Congestion
  import opened SwiftSync

  /** Reroutings of different connections. */
  ghost predicate Tries(d: Design, tries: seq<Event>) {
    && (forall i :: 0 <= i < |tries| ==> tries[i].Try? && Possible(d, tries[i]))
    && (forall i, j :: 0 <= i < j < |tries| ==> tries[i].conn != tries[j].conn)
  }

  /** Decrements of node v that net n notes: everything its rerouted connections held before. */
  ghost function DecOf(d: Design, s: State, tries: seq<Event>, n: nat, v: nat): nat
    requires Shaped(d, s) && Tries(d, tries)
  {
    if |tries| == 0 then 0
    else
      var last := |tries| - 1;
      var c := tries[last].conn;
      DecOf(d, s, tries[..last], n, v) + (if d.conns[c].net == n then Count(Held(d, s, c), v) else 0)
  }

  /** Increments of node v that net n notes: the new paths of its rerouted connections. */
  ghost function IncOf(d: Design, tries: seq<Event>, n: nat, v: nat): nat
    requires ValidDesign(d) && Tries(d, tries)
  {
    if |tries| == 0 then 0
    else
      var last := |tries| - 1;
      IncOf(d, tries[..last], n, v) +
      (if d.conns[tries[last].conn].net == n then Count(tries[last].path, v) else 0)
  }

  /** A rerouting as far as paths and flags go. */
  function NoteOne(d: Design, s: State, c: nat, path: seq<nat>): (r: State)
    requires Shaped(d, s) && c < |d.conns| && InNodes(path, d.nodes)
    ensures Shaped(d, r)
  {
    s.(paths := s.paths[c := path], routed := s.routed[c := path != []],
       fails := if path == [] then s.fails[c := s.fails[c] + 1] else s.fails)
  }

  /** The routing phase: paths and flags change at once, counts, occupancies and costs not at all. */
  ghost function Noted(d: Design, s: State, tries: seq<Event>): (r: State)
    requires Shaped(d, s) && Tries(d, tries)
    ensures Shaped(d, r) && r.users == s.users && r.occ == s.occ && r.present == s.present && r.factor == s.factor
  {
    if |tries| == 0 then s
    else
      var e := tries[|tries| - 1];
      NoteOne(d, Noted(d, s, tries[..|tries| - 1]), e.conn, e.path)
  }

  /** A connection outside the batch keeps its path and so what it holds. */
  lemma {:induction false} OthersKeep(d: Design, s: State, tries: seq<Event>, c: nat)
    requires Shaped(d, s) && Tries(d, tries) && c < |d.conns|
    requires forall i :: 0 <= i < |tries| ==> tries[i].conn != c
    ensures Run(d, s, tries).paths[c] == s.paths[c]
  {
    if |tries| > 0 { OthersKeep(d, s, tries[..|tries| - 1], c); }
  }

  /** Two states that differ at most in their books. */
  predicate SameButBooks(a: State, b: State) {
    a.paths == b.paths && a.routed == b.routed && a.fails == b.fails && a.factor == b.factor
  }

  lemma {:induction false} SamePaths(d: Design, s: State, tries: seq<Event>)
    requires Shaped(d, s) && Tries(d, tries)
    ensures SameButBooks(Run(d, s, tries), Noted(d, s, tries))
  {
    if |tries| > 0 {
      var front, e := tries[..|tries| - 1], tries[|tries| - 1];
      SamePaths(d, s, front);
      ReroutePaths(d, Run(d, s, front), Noted(d, s, front), e.conn, e.path);
    }
  }

  lemma ReroutePaths(d: Design, s: State, t: State, c: nat, path: seq<nat>)
    requires Shaped(d, s) && Shaped(d, t) && c < |d.conns| && InNodes(path, d.nodes) && SameButBooks(s, t)
    ensures SameButBooks(Reroute(d, s, c, path), NoteOne(d, t, c, path))
  {
  }

  /** One after another, the reroutings change a count by what the batch notes. */
  lemma {:induction false} RunCounts(d: Design, s: State, tries: seq<Event>, n: nat, v: nat)
    requires Shaped(d, s) && Tries(d, tries) && n < d.nets
    ensures Cnt(Run(d, s, tries).users[n], v) ==
            Cnt(s.users[n], v) + IncOf(d, tries, n, v) - DecOf(d, s, tries, n, v)
  {
    if |tries| > 0 {
      var last := |tries| - 1;
      var c := tries[last].conn;
      RunCounts(d, s, tries[..last], n, v);
      OthersKeep(d, s, tries[..last], c);
      if d.conns[c].net == n { RerouteCount(d, Run(d, s, tries[..last]), c, tries[last].path, v); }
    }
  }

  /** The tries belong to the given nets. */
  ghost predicate OnlyOf(d: Design, tries: seq<Event>, nets: seq<nat>)
    requires Tries(d, tries)
  {
    forall i :: 0 <= i < |tries| ==> d.conns[tries[i].conn].net in nets
  }

  /** None of the tries belongs to net n. */
  ghost predicate NoneOf(d: Design, tries: seq<Event>, n: nat)
    requires Tries(d, tries)
  {
    forall i :: 0 <= i < |tries| ==> d.conns[tries[i].conn].net != n
  }

  /** The counts cover every decrement the batch notes at v. */
  ghost predicate CoveredAt(d: Design, s: State, tries: seq<Event>, v: nat)
    requires Shaped(d, s) && Tries(d, tries)
  {
    forall n: nat :: n < d.nets && DecOf(d, s, tries, n, v) > 0 ==> DecOf(d, s, tries, n, v) <= Cnt(s.users[n], v)
  }

  lemma CoveredBefore(d: Design, s: State, tries: seq<Event>, v: nat)
    requires Shaped(d, s) && Tries(d, tries) && |tries| > 0 && CoveredAt(d, s, tries, v)
    ensures CoveredAt(d, s, tries[..|tries| - 1], v)
  {
    forall n: nat | n < d.nets && DecOf(d, s, tries[..|tries| - 1], n, v) > 0
      ensures DecOf(d, s, tries[..|tries| - 1], n, v) <= Cnt(s.users[n], v)
    {
      assert DecOf(d, s, tries, n, v) > 0;
    }
  }

  lemma HeldStillCounted(d: Design, s: State, tries: seq<Event>, v: nat)
    requires Shaped(d, s) && Tries(d, tries) && |tries| > 0 && CoveredAt(d, s, tries, v)
    requires var t, c := Run(d, s, tries[..|tries| - 1]), tries[|tries| - 1].conn; Cnt(t.users[d.conns[c].net], v) >= 0
    ensures var t, c := Run(d, s, tries[..|tries| - 1]), tries[|tries| - 1].conn;
            Count(Held(d, t, c), v) <= Cnt(t.users[d.conns[c].net], v)
  {
    var last := |tries| - 1;
    var c := tries[last].conn;
    OthersKeep(d, s, tries[..last], c);
    RunCounts(d, s, tries[..last], d.conns[c].net, v);
    if DecOf(d, s, tries, d.conns[c].net, v) > 0 {
      assert DecOf(d, s, tries, d.conns[c].net, v) <= Cnt(s.users[d.conns[c].net], v);
    }
  }

  lemma {:induction false} RunTallied(d: Design, s: State, tries: seq<Event>, v: nat)
    requires Shaped(d, s) && Tries(d, tries) && v < d.nodes
    requires TalliedAt(d, s, v) && CoveredAt(d, s, tries, v)
    ensures TalliedAt(d, Run(d, s, tries), v)
  {
    if |tries| > 0 {
      var last := |tries| - 1;
      var front, c := tries[..last], tries[last].conn;
      CoveredBefore(d, s, tries, v);
      RunTallied(d, s, front, v);
      assert PositiveAt(Run(d, s, front).users[d.conns[c].net], v);
      HeldStillCounted(d, s, tries, v);
      RipUpKeepsTally(d, Run(d, s, front), c, v);
      if tries[last].path != [] { CommitKeepsTally(d, RipUp(d, Run(d, s, front), c), c, tries[last].path, v); }
    }
  }

  /** A covered rerouting moves the occupancy of v with the membership of its net. */
  lemma RerouteFollows(d: Design, s: State, c: nat, path: seq<nat>, v: nat)
    requires Shaped(d, s) && c < |d.conns| && InNodes(path, d.nodes) && v < d.nodes
    requires PositiveAt(s.users[d.conns[c].net], v) && Count(Held(d, s, c), v) <= Cnt(s.users[d.conns[c].net], v)
    ensures var r := Reroute(d, s, c, path);
            && PositiveAt(r.users[d.conns[c].net], v)
            && r.occ[v] - UsingNets(r.users, v) == s.occ[v] - UsingNets(s.users, v)
  {
    var n, r := d.conns[c].net, RipUp(d, s, c);
    DecAllFollows(BooksOf(s, n), Held(d, s, c), s.factor, v);
    UsingNetsChange(s.users, n, r.users[n], v);
    if path != [] {
      var t := Commit(d, r, c, path);
      IncAllFollows(BooksOf(r, n), path, r.factor, v);
      UsingNetsChange(r.users, n, t.users[n], v);
    }
  }

  /** The same over the whole batch, whatever other nets do at v. */
  lemma {:induction false} RunFollows(d: Design, s: State, tries: seq<Event>, nets: seq<nat>, v: nat)
    requires Shaped(d, s) && Tries(d, tries) && OnlyOf(d, tries, nets) && v < d.nodes && CoveredAt(d, s, tries, v)
    requires forall n: nat :: n < d.nets && n in nets ==> PositiveAt(s.users[n], v)
    ensures var r := Run(d, s, tries);
            && r.occ[v] - UsingNets(r.users, v) == s.occ[v] - UsingNets(s.users, v)
            && forall n: nat :: n < d.nets && n in nets ==> PositiveAt(r.users[n], v)
  {
    if |tries| > 0 {
      var last := |tries| - 1;
      var front, c := tries[..last], tries[last].conn;
      CoveredBefore(d, s, tries, v);
      RunFollows(d, s, front, nets, v);
      assert PositiveAt(Run(d, s, front).users[d.conns[c].net], v);
      HeldStillCounted(d, s, tries, v);
      RerouteFollows(d, Run(d, s, front), c, tries[last].path, v);
    }
  }

  lemma {:induction false} OtherTables(d: Design, s: State, tries: seq<Event>, n: nat)
    requires Shaped(d, s) && Tries(d, tries) && n < d.nets && NoneOf(d, tries, n)
    ensures Run(d, s, tries).users[n] == s.users[n]
  {
    if |tries| > 0 { OtherTables(d, s, tries[..|tries| - 1], n); }
  }

  /** The tables after the commit: for the given nets old counts plus increments minus decrements, nothing at zero. */
  ghost predicate Commits(d: Design, s: State, tries: seq<Event>, nets: seq<nat>, users: seq<Users>)
    requires Shaped(d, s) && Tries(d, tries)
  {
    && |users| == d.nets
    && (forall n: nat, v: nat :: n < d.nets && n in nets ==>
          Cnt(users[n], v) == Cnt(s.users[n], v) + IncOf(d, tries, n, v) - DecOf(d, s, tries, n, v))
    && (forall n: nat :: n < d.nets && n in nets ==> Positive(users[n], d.nodes))
    && (forall n: nat :: n < d.nets && n !in nets ==> users[n] == s.users[n])
  }

  /** The cached cost of every node is the image of its occupancy. */
  ghost predicate CostsInStep(d: Design, s: State)
    requires Shaped(d, s)
  {
    forall v :: 0 <= v < d.nodes ==> s.present[v] == PresentCost(s.occ[v], s.factor)
  }

  /** Every rerouting, failed or not, and every factor update keep the costs in step. */
  lemma RerouteKeepsCosts(d: Design, s: State, c: nat, path: seq<nat>)
    requires Shaped(d, s) && CostsInStep(d, s) && c < |d.conns| && InNodes(path, d.nodes)
    ensures CostsInStep(d, Reroute(d, s, c, path))
  {
    var n, r := d.conns[c].net, RipUp(d, s, c);
    CostsStay(BooksOf(s, n), Held(d, s, c), s.factor);
    if path != [] { CostsStay(BooksOf(r, n), path, r.factor); }
  }

  lemma NewFactorKeepsCosts(d: Design, s: State, factor: real)
    requires Shaped(d, s) && CostsInStep(d, s)
    ensures CostsInStep(d, NewFactor(d, s, factor))
  {
  }

  lemma {:induction false} RunKeepsCosts(d: Design, s: State, tries: seq<Event>)
    requires Shaped(d, s) && CostsInStep(d, s) && Tries(d, tries)
    ensures CostsInStep(d, Run(d, s, tries))
  {
    if |tries| > 0 {
      RunKeepsCosts(d, s, tries[..|tries| - 1]);
      RerouteKeepsCosts(d, Run(d, s, tries[..|tries| - 1]), tries[|tries| - 1].conn, tries[|tries| - 1].path);
    }
  }

  /** The state at each barrier: costs in step, and positive counts in the tables of the nets that batches route. */
  ghost predicate InStep(d: Design, s: State, nets: seq<nat>)
    requires Shaped(d, s)
  {
    CostsInStep(d, s) && forall n: nat :: n < d.nets && n in nets ==> Positive(s.users[n], d.nodes)
  }

  /** With costs in step, a node of non-negative occupancy costs one plus occupancy times factor. */
  lemma BarrierCost(d: Design, s: State, v: nat)
    requires Shaped(d, s) && CostsInStep(d, s) && v < d.nodes && s.occ[v] >= 0
    ensures s.present[v] == 1.0 + s.occ[v] as real * s.factor
  {
    assert s.occ[v] == 0 ==> s.occ[v] as real * s.factor == 0.0;
  }

  /** The factor update, which skips unoccupied nodes, leads from barrier to barrier. */
  lemma NewFactorKeepsStep(d: Design, s: State, factor: real, nets: seq<nat>)
    requires Shaped(d, s) && InStep(d, s, nets)
    ensures InStep(d, NewFactor(d, s, factor), nets)
  {
    NewFactorKeepsCosts(d, s, factor);
  }

  lemma SameTable(d: Design, s: State, tries: seq<Event>, nets: seq<nat>, users: seq<Users>, n: nat)
    requires Shaped(d, s) && Tries(d, tries) && OnlyOf(d, tries, nets) && InStep(d, s, nets)
    requires Commits(d, s, tries, nets, users) && AllCovered(d, s, tries) && n < d.nets && n in nets
    ensures users[n] == Run(d, s, tries).users[n]
  {
    var r := Run(d, s, tries);
    forall v: nat ensures v in users[n] <==> v in r.users[n]
                  ensures v in users[n] ==> users[n][v] == r.users[n][v] {
      RunCounts(d, s, tries, n, v);
      assert Cnt(users[n], v) == Cnt(s.users[n], v) + IncOf(d, tries, n, v) - DecOf(d, s, tries, n, v);
      if v < d.nodes {
        RunFollows(d, s, tries, nets, v);
        assert PositiveAt(r.users[n], v);
      } else {
        RunStaysOnNodes(d, s, tries, n, v);
      }
    }
  }

  lemma SameUsers(d: Design, s: State, tries: seq<Event>, nets: seq<nat>, users: seq<Users>)
    requires Shaped(d, s) && Tries(d, tries) && OnlyOf(d, tries, nets) && InStep(d, s, nets)
    requires Commits(d, s, tries, nets, users) && AllCovered(d, s, tries)
    ensures users == Run(d, s, tries).users
  {
    forall n: nat | n < d.nets ensures users[n] == Run(d, s, tries).users[n] {
      if n in nets { SameTable(d, s, tries, nets, users, n); } else { OtherTables(d, s, tries, n); }
    }
  }

  lemma {:induction false} RunStaysOnNodes(d: Design, s: State, tries: seq<Event>, n: nat, v: nat)
    requires Shaped(d, s) && Tries(d, tries) && n < d.nets && v >= d.nodes && v !in s.users[n]
    ensures v !in Run(d, s, tries).users[n]
  {
    if |tries| > 0 {
      var last := |tries| - 1;
      RunStaysOnNodes(d, s, tries[..last], n, v);
      var t, c, path := Run(d, s, tries[..last]), tries[last].conn, tries[last].path;
      if d.conns[c].net == n {
        KeysStay(BooksOf(t, n), Held(d, t, c), t.factor, v);
        KeysStay(BooksOf(RipUp(d, t, c), n), path, t.factor, v);
      }
    }
  }

  lemma {:induction false} KeysStay(b: Books, nodes: seq<nat>, factor: real, v: nat)
    requires Sized(b, |b.occ|) && InNodes(nodes, |b.occ|) && v >= |b.occ| && v !in b.users
    ensures v !in IncAll(b, nodes, factor).users && v !in DecAll(b, nodes, factor).users
  {
    if |nodes| > 0 { KeysStay(b, nodes[..|nodes| - 1], factor, v); }
  }

  // The commit

  /** Each net's actions account for the change of its table. */
  ghost predicate AllTrack(before: seq<Users>, after: seq<Users>, acts: seq<seq<Act>>, nodes: nat) {
    && |before| == |after| == |acts|
    && (forall n :: 0 <= n < |acts| ==> Tracks(before[n], after[n], acts[n]))
    && (forall n, i :: 0 <= n < |acts| && 0 <= i < |acts[n]| ==> acts[n][i].v < nodes)
  }

  lemma {:induction false} TotalsTrack(before: seq<Users>, after: seq<Users>, acts: seq<seq<Act>>, v: nat)
    requires |before| == |after| == |acts| && forall n :: 0 <= n < |acts| ==> Tracks(before[n], after[n], acts[n])
    ensures Total(acts, Bump(v)) - Total(acts, Drop(v)) == UsingNets(after, v) - UsingNets(before, v)
    ensures Total(acts, Mark(v)) > 0 <==> Total(acts, Bump(v)) + Total(acts, Drop(v)) > 0
  {
    if |acts| > 0 {
      var last := |acts| - 1;
      TotalsTrack(before[..last], after[..last], acts[..last], v);
      assert TracksAt(before[last], after[last], acts[last], v);
    }
  }

  /** The run performs every action as often as the tasks do. */
  ghost predicate Performs(acts: seq<seq<Act>>, run: seq<Act>) { forall a: Act :: Count(run, a) == Total(acts, a) }

  lemma {:induction false} MergeOnBoard(acts: seq<seq<Act>>, schedule: seq<nat>, b: Board)
    requires Interleaving.Fits(acts, schedule) && |b.occ| == |b.stamp|
    requires forall n, i :: 0 <= n < |acts| && 0 <= i < |acts[n]| ==> acts[n][i].v < |b.occ|
    ensures OnBoard(b, Merge(acts, schedule))
  {
    if |schedule| > 0 {
      FitsFront(acts, schedule);
      MergeOnBoard(acts, schedule[..|schedule| - 1], b);
    }
  }

  /** Every interleaving of the nets' commits performs them. */
  lemma MergePerforms(acts: seq<seq<Act>>, schedule: seq<nat>, b: Board)
    requires Complete(acts, schedule) && |b.occ| == |b.stamp|
    requires forall n, i :: 0 <= n < |acts| && 0 <= i < |acts[n]| ==> acts[n][i].v < |b.occ|
    ensures Interleaving.Fits(acts, schedule)
    ensures OnBoard(b, Merge(acts, schedule)) && Performs(acts, Merge(acts, schedule))
  {
    assert Interleaving.Fits(acts, schedule);
    MergeOnBoard(acts, schedule, b);
    forall a: Act ensures Count(Merge(acts, schedule), a) == Total(acts, a) { CompleteCounts(acts, schedule, a); }
  }

  /**
   However the nets' commits interleave, a node's occupancy changes by the number of nets
   that gained it minus the number that lost it, and a node without stamp is unchanged.
   */
  lemma CommitEffect(before: seq<Users>, after: seq<Users>, acts: seq<seq<Act>>, run: seq<Act>, b: Board, batch: int,
                     v: nat)
    requires AllTrack(before, after, acts, |b.occ|) && Performs(acts, run) && OnBoard(b, run)
    requires v < |b.occ| && b.stamp[v] != batch
    ensures var r := DoAll(b, run, batch);
            && r.occ[v] == b.occ[v] + UsingNets(after, v) - UsingNets(before, v)
            && (r.stamp[v] != batch ==> r.occ[v] == b.occ[v])
  {
    DoAllEffect(b, run, batch, v);
    TotalsTrack(before, after, acts, v);
  }

  /** Some nodes have got the batch's stamp, the others have kept theirs. */
  predicate StampedWith(before: seq<int>, after: seq<int>, batch: int) {
    |after| == |before| && forall v :: 0 <= v < |before| ==> after[v] == before[v] || after[v] == batch
  }

  /** The commit stamps nodes with its own batch only. */
  lemma StampsAfter(b: Board, run: seq<Act>, batch: int)
    requires OnBoard(b, run)
    ensures StampedWith(b.stamp, DoAll(b, run, batch).stamp, batch)
  {
    forall v: nat | v < |b.stamp|
      ensures DoAll(b, run, batch).stamp[v] in {b.stamp[v], batch}
    {
      DoAllEffect(b, run, batch, v);
    }
  }

  /** The last phase refreshes the cost of the stamped nodes only. */
  function RefreshStamped(occ: seq<int>, stamp: seq<int>, present: seq<real>, factor: real, batch: int): seq<real>
    requires |occ| == |stamp| == |present|
  {
    seq(|occ|, v requires 0 <= v < |occ| => if stamp[v] == batch then PresentCost(occ[v], factor) else present[v])
  }

  /** The state after a batch whose commit performed the given run of actions. */
  ghost function AfterBatch(d: Design, s: State, tries: seq<Event>, users: seq<Users>, run: seq<Act>,
                            stamp: seq<int>, batch: int): State
    requires Shaped(d, s) && Tries(d, tries) && OnBoard(Board(s.occ, stamp), run)
  {
    var b := DoAll(Board(s.occ, stamp), run, batch);
    Noted(d, s, tries).(users := users, occ := b.occ,
                        present := RefreshStamped(b.occ, b.stamp, s.present, s.factor, batch))
  }

  /** No node carries the stamp of the batch yet. */
  predicate NewBatch(stamp: seq<int>, batch: int) { forall v :: 0 <= v < |stamp| ==> stamp[v] != batch }

  ghost predicate AllCovered(d: Design, s: State, tries: seq<Event>)
    requires Shaped(d, s) && Tries(d, tries)
  {
    forall v: nat :: v < d.nodes ==> CoveredAt(d, s, tries, v)
  }

  /**
   Refinement: a batch with deferred counts, committed in any order, ends in the state that
   rerouting its connections one by one would have reached.
   */
  lemma BatchRefinesRun(d: Design, s: State, tries: seq<Event>, nets: seq<nat>, users: seq<Users>, acts: seq<seq<Act>>,
                        run: seq<Act>, stamp: seq<int>, batch: int)
    requires Shaped(d, s) && Tries(d, tries) && OnlyOf(d, tries, nets) && InStep(d, s, nets)
    requires Commits(d, s, tries, nets, users) && AllCovered(d, s, tries)
    requires OnBoard(Board(s.occ, stamp), run) && NewBatch(stamp, batch)
    requires AllTrack(s.users, users, acts, d.nodes) && Performs(acts, run)
    ensures AfterBatch(d, s, tries, users, run, stamp, batch) == Run(d, s, tries)
  {
    var r, t := AfterBatch(d, s, tries, users, run, stamp, batch), Run(d, s, tries);
    SameUsers(d, s, tries, nets, users);
    SamePaths(d, s, tries);
    RunKeepsCosts(d, s, tries);
    forall v: nat | v < d.nodes ensures r.occ[v] == t.occ[v] && r.present[v] == t.present[v] {
      RunFollows(d, s, tries, nets, v);
      CommitEffect(s.users, users, acts, run, Board(s.occ, stamp), batch, v);
    }
    assert r.occ == t.occ && r.present == t.present;
  }

  /** A batch leads from barrier to barrier. */
  lemma BatchKeepsStep(d: Design, s: State, tries: seq<Event>, nets: seq<nat>, mine: seq<nat>)
    requires Shaped(d, s) && Tries(d, tries) && OnlyOf(d, tries, nets) && InStep(d, s, mine) && AllCovered(d, s, tries)
    requires forall n :: n in nets ==> n in mine
    ensures InStep(d, Run(d, s, tries), mine)
  {
    var r := Run(d, s, tries);
    RunKeepsCosts(d, s, tries);
    forall n: nat, v | n < d.nets && n in mine && v in r.users[n] ensures v < d.nodes && r.users[n][v] > 0 {
      assert Positive(s.users[n], d.nodes);
      if v >= d.nodes { RunStaysOnNodes(d, s, tries, n, v); } else { RunFollows(d, s, tries, mine, v); }
    }
  }

  /** The outcome of a batch does not depend on how the commits of its nets interleave. */
  lemma BatchAnySchedule(d: Design, s: State, tries: seq<Event>, nets: seq<nat>, users: seq<Users>, acts: seq<seq<Act>>,
                         schedule: seq<nat>, stamp: seq<int>, batch: int)
    requires Shaped(d, s) && Tries(d, tries) && OnlyOf(d, tries, nets) && InStep(d, s, nets)
    requires Commits(d, s, tries, nets, users) && AllCovered(d, s, tries)
    requires |stamp| == d.nodes && NewBatch(stamp, batch)
    requires AllTrack(s.users, users, acts, d.nodes) && Complete(acts, schedule)
    ensures Interleaving.Fits(acts, schedule) && OnBoard(Board(s.occ, stamp), Merge(acts, schedule))
    ensures AfterBatch(d, s, tries, users, Merge(acts, schedule), stamp, batch) == Run(d, s, tries)
  {
    MergePerforms(acts, schedule, Board(s.occ, stamp));
    BatchRefinesRun(d, s, tries, nets, users, acts, Merge(acts, schedule), stamp, batch);
  }

  // When the assertions of the commit hold

  ghost predicate InTries(tries: seq<Event>, c: nat) {
    exists i :: 0 <= i < |tries| && tries[i].Try? && tries[i].conn == c
  }

  /** What the connections of net n outside the batch contribute to v, among the first k. */
  ghost function RestSum(d: Design, s: State, tries: seq<Event>, n: nat, v: nat, k: nat): nat
    requires Shaped(d, s) && k <= |d.conns|
  {
    if k == 0 then 0
    else
      RestSum(d, s, tries, n, v, k - 1) +
      (if d.conns[k - 1].net == n && !InTries(tries, k - 1) then Load(d, s, k - 1, v) else 0)
  }

  lemma {:induction false} RestShrinks(d: Design, s: State, tries: seq<Event>, n: nat, v: nat, k: nat)
    requires Shaped(d, s) && Tries(d, tries) && |tries| > 0 && k <= |d.conns|
    ensures var front, c := tries[..|tries| - 1], tries[|tries| - 1].conn;
            RestSum(d, s, front, n, v, k) - RestSum(d, s, tries, n, v, k) ==
            if c < k && d.conns[c].net == n then Load(d, s, c, v) else 0
  {
    if k > 0 {
      RestShrinks(d, s, tries, n, v, k - 1);
      LastTry(tries, k - 1);
      var last := |tries| - 1;
      assert forall i :: 0 <= i < last ==> tries[i].conn != tries[last].conn;
    }
  }

  lemma LastTry(tries: seq<Event>, c: nat)
    requires |tries| > 0 && forall i :: 0 <= i < |tries| ==> tries[i].Try?
    ensures InTries(tries, c) <==> InTries(tries[..|tries| - 1], c) || tries[|tries| - 1].conn == c
  {
    var front := tries[..|tries| - 1];
    if InTries(front, c) {
      var i :| 0 <= i < |front| && front[i].Try? && front[i].conn == c;
      assert tries[i].conn == c;
    }
    if InTries(tries, c) {
      var i :| 0 <= i < |tries| && tries[i].Try? && tries[i].conn == c;
      assert i < |front| ==> front[i].conn == c;
    }
  }

  lemma {:induction false} NoTriesYet(d: Design, s: State, n: nat, v: nat, k: nat)
    requires Shaped(d, s) && k <= |d.conns|
    ensures RestSum(d, s, [], n, v, k) == LoadSum(d, s, n, v, k)
  {
    if k > 0 { NoTriesYet(d, s, n, v, k - 1); }
  }

  /** What is noted and what is left add up to all uses. */
  lemma {:induction false} NotedPlusRest(d: Design, s: State, tries: seq<Event>, n: nat, v: nat)
    requires Shaped(d, s) && Tries(d, tries)
    ensures DecOf(d, s, tries, n, v) + RestSum(d, s, tries, n, v, |d.conns|) == Uses(d, s, n, v)
  {
    if |tries| == 0 {
      NoTriesYet(d, s, n, v, |d.conns|);
    } else {
      NotedPlusRest(d, s, tries[..|tries| - 1], n, v);
      RestShrinks(d, s, tries, n, v, |d.conns|);
    }
  }

  /**
   The assertion about decrements holds at v exactly when, for every net that notes a decrement
   there, the connections outside the batch use v at least as often as failed searches have
   lost it.
   */
  lemma CoveredExactly(d: Design, s: State, tries: seq<Event>, v: nat)
    requires CountLaw(d, s) && Tries(d, tries)
    ensures CoveredAt(d, s, tries, v) <==>
            forall n: nat :: n < d.nets && DecOf(d, s, tries, n, v) > 0 ==>
              LostBy(d, s, n, v) <= RestSum(d, s, tries, n, v, |d.conns|)
  {
    forall n: nat | n < d.nets
      ensures DecOf(d, s, tries, n, v) <= Cnt(s.users[n], v) <==>
              LostBy(d, s, n, v) <= RestSum(d, s, tries, n, v, |d.conns|)
    {
      NotedPlusRest(d, s, tries, n, v);
    }
  }

  /** In particular it holds where no search has failed, whatever is rerouted. */
  lemma NoLossCovers(d: Design, s: State, tries: seq<Event>, v: nat)
    requires CountLaw(d, s) && Tries(d, tries) && NoLossAt(d, s, v)
    ensures CoveredAt(d, s, tries, v)
  {
    CoveredExactly(d, s, tries, v);
    forall n: nat | n < d.nets ensures LostBy(d, s, n, v) == 0 { NothingLostAt(d, s, n, v, |d.conns|); }
  }

  lemma ExactCovers(d: Design, s: State, tries: seq<Event>)
    requires Exact(d, s) && Tries(d, tries)
    ensures AllCovered(d, s, tries)
  {
    forall v: nat | v < d.nodes ensures CoveredAt(d, s, tries, v) { NoLossCovers(d, s, tries, v); }
  }

  lemma {:induction false} LostAtLeast(d: Design, s: State, c: nat, k: nat)
    requires Shaped(d, s) && c < k <= |d.conns|
    ensures LostSum(d, s, d.conns[c].net, d.conns[c].sink, k) >= s.fails[c]
  {
    if c < k - 1 { LostAtLeast(d, s, c, k - 1); }
  }

  lemma {:induction false} NoRest(d: Design, s: State, tries: seq<Event>, n: nat, v: nat, k: nat)
    requires Shaped(d, s) && k <= |d.conns|
    requires forall e :: 0 <= e < |d.conns| && d.conns[e].net == n && !InTries(tries, e) ==> v !in Held(d, s, e)
    ensures RestSum(d, s, tries, n, v, k) == 0
  {
    if k > 0 {
      NoRest(d, s, tries, n, v, k - 1);
      CountIn(Held(d, s, k - 1), v);
    }
  }

  /**
   A connection whose search has failed stops the program at every later batch that rips up
   its sink and in which no connection of its net keeps it: the reservation is gone, and the
   rip-ups of the batch take it once more.
   */
  lemma FailureStopsNextBatch(d: Design, s: State, c: nat, tries: seq<Event>)
    requires CountLaw(d, s) && c < |d.conns| && s.fails[c] > 0 && Tries(d, tries)
    requires DecOf(d, s, tries, d.conns[c].net, d.conns[c].sink) > 0
    requires forall e :: 0 <= e < |d.conns| && d.conns[e].net == d.conns[c].net && !InTries(tries, e) ==>
               d.conns[c].sink !in Held(d, s, e)
    ensures !CoveredAt(d, s, tries, d.conns[c].sink)
  {
    CoveredExactly(d, s, tries, d.conns[c].sink);
    LostAtLeast(d, s, c, |d.conns|);
    NoRest(d, s, tries, d.conns[c].net, d.conns[c].sink, |d.conns|);
  }
}
