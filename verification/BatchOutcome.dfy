/** What batches of stability-first routing mean for pins, paths and the end of the negotiation. */
module BatchOutcome {
  import opened Congestion
  import opened Convergence
  import opened Exclusive
  import opened SyncBatch

  /** Every path of the batch keeps to the pins its net had counted when the batch began. */
  ghost predicate PinsRespected(d: Design, s: State, tries: seq<Event>)
    requires Shaped(d, s) && Tries(d, tries)
  {
    forall i :: 0 <= i < |tries| ==> RespectsPins(d, s.users[d.conns[tries[i].conn].net], tries[i].conn, tries[i].path)
  }

  /** A batch keeps every sink to its owner, although its searches only saw the counts of the last barrier. */
  lemma {:induction false} BatchKeepsOwned(d: Design, s: State, tries: seq<Event>)
    requires Shaped(d, s) && SinksDistinct(d) && PinTypes(d) && SinksOwned(d, s)
    requires Tries(d, tries) && PinsRespected(d, s, tries)
    ensures SinksOwned(d, Run(d, s, tries))
  {
    if |tries| > 0 {
      var last := |tries| - 1;
      var front, c := tries[..last], tries[last].conn;
      BatchKeepsOwned(d, s, front);
      RespectedNotForeign(d, s, s.users[d.conns[c].net], c, tries[last].path);
      OwnPathKeepsOwned(d, Run(d, s, front), c, tries[last].path);
    }
  }

  /** The batch reroutes exactly the connections of net n that needed it when the batch began. */
  ghost predicate Visited(d: Design, s: State, tries: seq<Event>, n: nat)
    requires Shaped(d, s)
  {
    forall c: nat :: c < |d.conns| && d.conns[c].net == n ==> (InTries(tries, c) <==> ShouldRoute(d, s, c))
  }

  ghost predicate AllVisited(d: Design, s: State, tries: seq<Event>, nets: seq<nat>)
    requires Shaped(d, s)
  {
    forall i :: 0 <= i < |nets| ==> Visited(d, s, tries, nets[i])
  }

  lemma {:induction false} NotedOutcome(d: Design, s: State, tries: seq<Event>, c: nat)
    requires Shaped(d, s) && Tries(d, tries) && c < |d.conns|
    ensures var r := Noted(d, s, tries);
            && (!InTries(tries, c) ==>
                  r.paths[c] == s.paths[c] && r.fails[c] == s.fails[c] && r.routed[c] == s.routed[c])
            && (InTries(tries, c) ==>
                  (r.paths[c] != [] <==> r.fails[c] == s.fails[c]) && (r.routed[c] <==> r.paths[c] != []))
  {
    if |tries| > 0 {
      var last := |tries| - 1;
      NotedOutcome(d, s, tries[..last], c);
      LastTry(tries, c);
      if tries[last].conn == c { assert !InTries(tries[..last], c); }
    }
  }

  /** Connections of finished nets have a path unless their search failed; the others are untouched. */
  ghost predicate Progressed(d: Design, s: State, t: State, done: seq<nat>)
    requires Shaped(d, s) && Shaped(d, t)
  {
    forall c: nat :: c < |d.conns| ==>
      && (t.routed[c] <==> t.paths[c] != [])
      && if d.conns[c].net in done then t.paths[c] != [] <==> t.fails[c] == s.fails[c]
         else t.paths[c] == s.paths[c] && t.fails[c] == s.fails[c]
  }

  /** A batch over further nets makes progress on exactly these. */
  lemma ProgressStep(d: Design, s: State, t: State, tries: seq<Event>, done: seq<nat>, more: seq<nat>)
    requires Shaped(d, s) && Shaped(d, t) && Tries(d, tries) && Progressed(d, s, t, done)
    requires OnlyOf(d, tries, more) && forall i :: 0 <= i < |more| ==> more[i] !in done && Visited(d, t, tries, more[i])
    ensures Progressed(d, s, Run(d, t, tries), done + more)
  {
    var r := Run(d, t, tries);
    SamePaths(d, t, tries);
    forall c: nat | c < |d.conns|
      ensures (r.routed[c] <==> r.paths[c] != [])
      ensures d.conns[c].net in done + more ==> (r.paths[c] != [] <==> r.fails[c] == s.fails[c])
      ensures d.conns[c].net !in done + more ==> r.paths[c] == s.paths[c] && r.fails[c] == s.fails[c]
    {
      NotedOutcome(d, t, tries, c);
      if d.conns[c].net !in more {
        assert !InTries(tries, c);
      } else {
        var i :| 0 <= i < |more| && more[i] == d.conns[c].net;
        assert Visited(d, t, tries, more[i]);
      }
    }
  }

  lemma {:induction false} RunAppend(d: Design, s: State, first: seq<Event>, second: seq<Event>)
    requires Shaped(d, s) && forall i :: 0 <= i < |first| ==> Possible(d, first[i])
    requires forall i :: 0 <= i < |second| ==> Possible(d, second[i])
    ensures Run(d, s, first + second) == Run(d, Run(d, s, first), second)
  {
    if |second| == 0 {
      assert first + second == first;
    } else {
      var last := |second| - 1;
      RunAppend(d, s, first, second[..last]);
      assert (first + second)[..|first| + last] == first + second[..last];
    }
  }
}
