/**
 The second and third phase of a batch: aStarRoute::updateNetsWorker and
 aStarRoute::updatePresentCongCostWorker (src/route/stableFirstRouting.cpp, lines 119-137).
 */
module CommitPhase {
  import opened Counting
  import opened Interleaving
  import opened Strided
  import opened Ledger
  import opened SwiftSync
  import opened SyncBatch

  /** One net before or after its commit. */
  ghost predicate NetState(net: Net, before: Users, acts: seq<Act>, nodes: nat, committed: bool)
    reads net
  {
    && Tracks(before, net.users, acts) && (forall i :: 0 <= i < |acts| ==> acts[i].v < nodes)
    && if committed then Settles(before, net.inc, net.dec, net.users) && Positive(net.users, nodes)
       else net.users == before && acts == []
  }

  /** The commit phase, after the given nets and the given run of actions. */
  ghost predicate Committing(nets: seq<Net>, nodes: Nodes, before: seq<Users>, board: Board, batch: int,
                             acts: seq<seq<Act>>, run: seq<Act>, committed: seq<nat>)
    reads nets, nodes
  {
    && |before| == |nets| == |acts| && OnBoard(board, run)
    && nodes.View() == DoAll(board, run, batch) && Performs(acts, run)
    && forall n: nat :: n < |nets| ==> NetState(nets[n], before[n], acts[n], |board.occ|, n in committed)
  }

  lemma PerformsMore(acts: seq<seq<Act>>, run: seq<Act>, n: nat, more: seq<Act>)
    requires Performs(acts, run) && n < |acts| && acts[n] == []
    ensures Performs(acts[n := more], run + more)
  {
    forall a: Act ensures Count(run + more, a) == Total(acts[n := more], a) {
      CountAppend(run, more, a);
      TotalChange(acts, n, more, a);
    }
  }

  /** A net's number is its place in the list, so that no net stands in it twice. */
  ghost predicate Numbered(nets: seq<Net>) { forall i :: 0 <= i < |nets| ==> nets[i].id == i }

  /** The net's counts and notes are positive, and its counts cover its decrements. */
  ghost predicate Ready(net: Net, users: Users, nodes: nat)
    reads net
  {
    Positive(users, nodes) && Positive(net.inc, nodes) && Positive(net.dec, nodes) && Covered(users, net.dec)
  }

  method CommitNet(nets: seq<Net>, nodes: Nodes, n: nat, batch: int, ghost before: seq<Users>, ghost board: Board,
                   ghost acts: seq<seq<Act>>, ghost run: seq<Act>, ghost committed: seq<nat>)
    returns (ok: bool, ghost acts': seq<seq<Act>>, ghost run': seq<Act>)
    requires Numbered(nets) && n < |nets| && n !in committed && |board.occ| == |board.stamp|
    requires Committing(nets, nodes, before, board, batch, acts, run, committed)
    requires Ready(nets[n], before[n], |board.occ|)
    modifies {nets[n]}`users, nodes
    ensures ok && Committing(nets, nodes, before, board, batch, acts', run', committed + [n])
  {
    assert NetState(nets[n], before[n], acts[n], |board.occ|, false);
    ghost var more;
    ok, more := nets[n].Commit(nodes, batch);
    DoAllAppend(board, run, more, batch);
    PerformsMore(acts, run, n, more);
    acts', run' := acts[n := more], run + more;
    forall m: nat | m < |nets| ensures NetState(nets[m], before[m], acts'[m], |board.occ|, m in committed + [n]) {
      if m != n {
        assert nets[m].id != nets[n].id;
        assert old(NetState(nets[m], before[m], acts[m], |board.occ|, m in committed));
      }
    }
  }

  /** Commit the given nets; no assertion fails. */
  method UpdateNetsWorker(nets: seq<Net>, nodes: Nodes, netIds: seq<nat>, batch: int, ghost before: seq<Users>,
                          ghost board: Board, ghost acts0: seq<seq<Act>>, ghost run0: seq<Act>, ghost done: seq<nat>)
    returns (ok: bool, ghost acts: seq<seq<Act>>, ghost run: seq<Act>)
    requires Numbered(nets) && |board.occ| == |board.stamp| && NoRepeat(done + netIds)
    requires Committing(nets, nodes, before, board, batch, acts0, run0, done)
    requires forall k :: 0 <= k < |netIds| ==>
      netIds[k] < |nets| && Ready(nets[netIds[k]], before[netIds[k]], |board.occ|)
    modifies nets`users, nodes
    ensures ok && Committing(nets, nodes, before, board, batch, acts, run, done + netIds)
  {
    ok, acts, run := true, acts0, run0;
    ghost var so := done;
    for k := 0 to |netIds|
      invariant ok && so == done + netIds[..k]
      invariant Committing(nets, nodes, before, board, batch, acts, run, so)
    {
      NextIsNew(done, netIds, k);
      ok, acts, run := CommitNet(nets, nodes, netIds[k], batch, before, board, acts, run, so);
      so := so + [netIds[k]];
    }
    assert netIds[..|netIds|] == netIds;
  }

  lemma NextIsNew(done: seq<nat>, netIds: seq<nat>, k: nat)
    requires NoRepeat(done + netIds) && k < |netIds|
    ensures netIds[k] !in done + netIds[..k] && netIds[k] !in netIds[..k]
    ensures netIds[..k + 1] == netIds[..k] + [netIds[k]]
    ensures done + netIds[..k + 1] == done + netIds[..k] + [netIds[k]]
  {
    var all := done + netIds;
    assert all[|done| + k] == netIds[k] && all[..|done| + k] == done + netIds[..k];
  }

  lemma NothingCommitted(nets: seq<Net>, nodes: Nodes, before: seq<Users>, board: Board, batch: int)
    requires |before| == |nets| && board == nodes.View() && |board.occ| == |board.stamp|
    requires forall n :: 0 <= n < |nets| ==> nets[n].users == before[n]
    ensures Committing(nets, nodes, before, board, batch, seq(|nets|, _ => []), [], [])
  {
    var acts: seq<seq<Act>> := seq(|nets|, _ => []);
    forall a: Act ensures Count([], a) == Total(acts, a) { NothingYet(acts, a); }
    forall n: nat | n < |nets| ensures NetState(nets[n], before[n], acts[n], |board.occ|, n in []) {
      TracksOne(before[n], before[n], 0);
    }
  }

  /** The whole commit phase, one thread after another. */
  method CommitAll(nets: seq<Net>, nodes: Nodes, lists: seq<seq<nat>>, batch: int, ghost before: seq<Users>,
                   ghost board: Board)
    returns (ok: bool, ghost acts: seq<seq<Act>>, ghost run: seq<Act>)
    requires Numbered(nets) && |before| == |nets| && board == nodes.View() && |board.occ| == |board.stamp|
    requires NoRepeat(Flat(lists))
    requires forall n :: 0 <= n < |nets| ==> nets[n].users == before[n]
    requires forall n :: n in Flat(lists) ==> n < |nets| && Ready(nets[n], before[n], |board.occ|)
    modifies nets`users, nodes
    ensures ok && Committing(nets, nodes, before, board, batch, acts, run, Flat(lists))
  {
    ok, acts, run := true, seq(|nets|, _ => []), [];
    NothingCommitted(nets, nodes, before, board, batch);
    for t := 0 to |lists|
      invariant ok && Committing(nets, nodes, before, board, batch, acts, run, Flat(lists[..t]))
    {
      FlatStep(lists, t);
      ok, acts, run := UpdateNetsWorker(nets, nodes, lists[t], batch, before, board, acts, run, Flat(lists[..t]));
    }
    assert lists[..|lists|] == lists;
  }

  // The third phase

  /** The nodes met so far have been refreshed if they carry the stamp. */
  ghost predicate PartlyStamped(occ: seq<int>, stamp: seq<int>, before: seq<real>, now: seq<real>, factor: real,
                                batch: int, met: seq<nat>)
  {
    && |occ| == |stamp| == |before| == |now|
    && forall v :: 0 <= v < |occ| ==>
         now[v] == if v in met && stamp[v] == batch then PresentCost(occ[v], factor) else before[v]
  }

  method UpdatePresentCongCostWorker(occ: seq<int>, stamp: seq<int>, present0: seq<real>, factor: real, batch: int,
                                     tid: nat, threads: nat, ghost before: seq<real>)
    returns (present: seq<real>)
    requires threads > 0 && tid < threads
    requires PartlyStamped(occ, stamp, before, present0, factor, batch, Before(threads, |occ|, tid))
    ensures PartlyStamped(occ, stamp, before, present, factor, batch, Before(threads, |occ|, tid + 1))
  {
    present := present0;
    var v := tid;
    assert Met(threads, |occ|, tid, tid) == Before(threads, |occ|, tid);
    while v < |occ|
      invariant OnStride(threads, tid, v) && End(threads, tid, |occ|) == End(threads, v, |occ|)
      invariant PartlyStamped(occ, stamp, before, present, factor, batch, Met(threads, |occ|, tid, v))
    {
      MeetNext(threads, |occ|, tid, v);
      if stamp[v] == batch { present := present[v := PresentCost(occ[v], factor)]; }
      v := v + threads;
    }
    HandOver(threads, |occ|, tid, v);
  }

  /** The threads together refresh exactly the stamped nodes. */
  method RefreshCosts(occ: seq<int>, stamp: seq<int>, present0: seq<real>, factor: real, batch: int, threads: nat)
    returns (present: seq<real>)
    requires threads > 0 && |occ| == |stamp| == |present0|
    ensures present == RefreshStamped(occ, stamp, present0, factor, batch)
  {
    present := present0;
    for tid := 0 to threads
      invariant PartlyStamped(occ, stamp, present0, present, factor, batch, Before(threads, |occ|, tid))
    {
      present := UpdatePresentCongCostWorker(occ, stamp, present, factor, batch, tid, threads, present0);
    }
    forall v: nat | v < |occ| ensures v in Before(threads, |occ|, threads) { AllIndices(threads, |occ|, v); }
  }
}
