/**
 What the end of the negotiation loop means (aStarRoute::routeIndirectConnections, lines
 95-131 of src/route/aStarRoute.cpp), and Database::checkRoute (src/db/database.cpp).
 */
module Convergence {
  import opened Counting
  import opened Ledger
  import opened Congestion

  /** Connections that share a node belong to one net. */
  ghost predicate NodesDisjoint(d: Design, s: State)
    requires Shaped(d, s)
  {
    forall c, e, v :: 0 <= c < |d.conns| && 0 <= e < |d.conns| && v in s.paths[c] && v in s.paths[e] ==>
      d.conns[c].net == d.conns[e].net
  }

  ghost predicate AllPathsPresent(d: Design, s: State)
    requires Shaped(d, s)
  {
    forall c :: 0 <= c < |d.conns| ==> s.paths[c] != []
  }

  /** Number of overused nodes is zero. */
  predicate NoOveruse(d: Design, s: State)
    requires Shaped(d, s)
  {
    forall v :: 0 <= v < d.nodes ==> s.occ[v] <= 1
  }

  lemma {:induction false} TwoUsingNets(users: seq<Users>, v: nat, m: nat, n: nat)
    requires m < n < |users| && v in users[m] && v in users[n]
    ensures UsingNets(users, v) >= 2
  {
    if n < |users| - 1 {
      TwoUsingNets(users[..|users| - 1], v, m, n);
    } else {
      OneUsingNet(users[..n], v, m);
    }
  }

  lemma {:induction false} OneUsingNet(users: seq<Users>, v: nat, m: nat)
    requires m < |users| && v in users[m]
    ensures UsingNets(users, v) >= 1
  {
    if m < |users| - 1 { OneUsingNet(users[..|users| - 1], v, m); }
  }

  lemma {:induction false} FindUsingNets(users: seq<Users>, v: nat) returns (m: nat, n: nat)
    requires UsingNets(users, v) >= 2
    ensures m < n < |users| && v in users[m] && v in users[n]
  {
    var last := |users| - 1;
    if v in users[last] {
      m := FindUsingNet(users[..last], v);
      n := last;
    } else {
      m, n := FindUsingNets(users[..last], v);
    }
  }

  lemma {:induction false} FindUsingNet(users: seq<Users>, v: nat) returns (m: nat)
    requires UsingNets(users, v) >= 1
    ensures m < |users| && v in users[m]
  {
    var last := |users| - 1;
    if v in users[last] { m := last; } else { m := FindUsingNet(users[..last], v); }
  }

  lemma OnPathIsCounted(d: Design, s: State, c: nat, v: nat)
    requires CountLaw(d, s) && NoLossAt(d, s, v) && c < |d.conns| && v in s.paths[c]
    ensures v in s.users[d.conns[c].net]
  {
    CountIn(s.paths[c], v);
    HeldIsCounted(d, s, c, v);
  }

  lemma {:induction false} CountedIsOnPath(d: Design, s: State, n: nat, v: nat, k: nat) returns (c: nat)
    requires Shaped(d, s) && k <= |d.conns| && AllPathsPresent(d, s) && LoadSum(d, s, n, v, k) > 0
    ensures c < k && d.conns[c].net == n && v in s.paths[c]
  {
    if d.conns[k - 1].net == n && Load(d, s, k - 1, v) > 0 {
      CountIn(s.paths[k - 1], v);
      c := k - 1;
    } else {
      c := CountedIsOnPath(d, s, n, v, k - 1);
    }
  }

  /** With exact books and every connection routed, zero overuse means exactly that nets are disjoint. */
  lemma OveruseIsSharing(d: Design, s: State)
    requires Exact(d, s) && AllPathsPresent(d, s)
    ensures NoOveruse(d, s) <==> NodesDisjoint(d, s)
  {
    if NoOveruse(d, s) {
      forall c, e, v | 0 <= c < |d.conns| && 0 <= e < |d.conns| && v in s.paths[c] && v in s.paths[e]
        ensures d.conns[c].net == d.conns[e].net
      {
        SharedIsOverused(d, s, c, e, v);
      }
    }
    if NodesDisjoint(d, s) {
      forall v | 0 <= v < d.nodes ensures s.occ[v] <= 1 {
        if s.occ[v] >= 2 { OverusedIsShared(d, s, v); }
      }
    }
  }

  lemma SharedIsOverused(d: Design, s: State, c: nat, e: nat, v: nat)
    requires Sound(d, s) && NoLossAt(d, s, v) && c < |d.conns| && e < |d.conns| && v in s.paths[c] && v in s.paths[e]
    ensures v < d.nodes
    ensures d.conns[c].net != d.conns[e].net ==> s.occ[v] >= 2
  {
    var i :| 0 <= i < |s.paths[c]| && s.paths[c][i] == v;
    OnPathIsCounted(d, s, c, v);
    OnPathIsCounted(d, s, e, v);
    assert TalliedAt(d, s, v);
    var m, n := d.conns[c].net, d.conns[e].net;
    if m < n { TwoUsingNets(s.users, v, m, n); }
    if n < m { TwoUsingNets(s.users, v, n, m); }
  }

  lemma OverusedIsShared(d: Design, s: State, v: nat)
    requires Exact(d, s) && AllPathsPresent(d, s) && v < d.nodes && s.occ[v] >= 2
    ensures !NodesDisjoint(d, s)
  {
    assert TalliedAt(d, s, v);
    var m, n := FindUsingNets(s.users, v);
    assert PositiveAt(s.users[m], v) && PositiveAt(s.users[n], v);
    NothingLostAt(d, s, m, v, |d.conns|);
    NothingLostAt(d, s, n, v, |d.conns|);
    assert Cnt(s.users[m], v) > 0 && Cnt(s.users[n], v) > 0;
    var c := CountedIsOnPath(d, s, m, v, |d.conns|);
    var e := CountedIsOnPath(d, s, n, v, |d.conns|);
    assert d.conns[c].net != d.conns[e].net;
  }

  // One iteration

  predicate IsCongested(d: Design, s: State, c: nat)
    requires Shaped(d, s) && c < |d.conns|
  {
    exists i :: 0 <= i < |s.paths[c]| && s.occ[s.paths[c][i]] > 1
  }

  predicate ShouldRoute(d: Design, s: State, c: nat)
    requires Shaped(d, s) && c < |d.conns|
  {
    !s.routed[c] || IsCongested(d, s, c)
  }

  /** Connection::isCongested together with the routed flag. */
  method NeedsRouting(routed: bool, path: seq<nat>, occ: seq<int>) returns (b: bool)
    requires InNodes(path, |occ|)
    ensures b <==> !routed || exists i :: 0 <= i < |path| && occ[path[i]] > 1
  {
    if !routed { return true; }
    for i := 0 to |path|
      invariant forall j :: 0 <= j < i ==> occ[path[j]] <= 1
    {
      if occ[path[i]] > 1 { return true; }
    }
    b := false;
  }

  predicate Visits(d: Design, order: seq<nat>, answers: seq<seq<nat>>) {
    |order| == |answers| && forall i :: 0 <= i < |order| ==> order[i] < |d.conns| && InNodes(answers[i], d.nodes)
  }

  /** Reroute a connection that is congested or has no path. */
  function Visit(d: Design, s: State, c: nat, answer: seq<nat>): (r: State)
    requires Shaped(d, s) && c < |d.conns| && InNodes(answer, d.nodes)
    ensures Shaped(d, r)
  {
    if ShouldRoute(d, s, c) then Reroute(d, s, c, answer) else s
  }

  /** Visit the connections in order; answers holds what each search would return. */
  function Iteration(d: Design, s: State, order: seq<nat>, answers: seq<seq<nat>>): (r: State)
    requires Shaped(d, s) && Visits(d, order, answers)
    ensures Shaped(d, r)
  {
    if |order| == 0 then s
    else
      var last := |order| - 1;
      Visit(d, Iteration(d, s, order[..last], answers[..last]), order[last], answers[last])
  }

  /** How many of the visits of an iteration reroute their connection. */
  function Routings(d: Design, s: State, order: seq<nat>, answers: seq<seq<nat>>): nat
    requires Shaped(d, s) && Visits(d, order, answers)
  {
    if |order| == 0 then 0
    else
      var last := |order| - 1;
      Routings(d, s, order[..last], answers[..last]) +
      (if ShouldRoute(d, Iteration(d, s, order[..last], answers[..last]), order[last]) then 1 else 0)
  }

  /** A visit decides about one connection and leaves the others alone. */
  lemma VisitOutcome(d: Design, s: State, c: nat, answer: seq<nat>, e: nat)
    requires Shaped(d, s) && c < |d.conns| && InNodes(answer, d.nodes) && e < |d.conns|
    requires s.routed[e] <==> s.paths[e] != []
    ensures var r := Visit(d, s, c, answer);
            && (r.routed[e] <==> r.paths[e] != [])
            && (e != c ==> r.paths[e] == s.paths[e] && r.fails[e] == s.fails[e])
            && (e == c ==> (r.paths[e] != [] <==> r.fails[e] == s.fails[e]))
            && (answer != [] ==> r.fails[e] == s.fails[e])
  {
  }

  /**
   After an iteration a visited connection has a path exactly when no search of this
   iteration failed for it; connections that were not rerouted already had one.
   */
  lemma {:induction false} IterationRoutes(d: Design, s: State, order: seq<nat>, answers: seq<seq<nat>>, c: nat)
    requires Shaped(d, s) && Visits(d, order, answers) && NoRepeat(order) && c < |d.conns|
    requires s.routed[c] <==> s.paths[c] != []
    ensures var r := Iteration(d, s, order, answers);
            && (r.routed[c] <==> r.paths[c] != [])
            && (c in order ==> (r.paths[c] != [] <==> r.fails[c] == s.fails[c]))
            && (c !in order ==> r.paths[c] == s.paths[c] && r.fails[c] == s.fails[c])
  {
    if |order| > 0 {
      var last := |order| - 1;
      IterationRoutes(d, s, order[..last], answers[..last], c);
      assert order == order[..last] + [order[last]];
      assert order[last] !in order[..last];
      VisitOutcome(d, Iteration(d, s, order[..last], answers[..last]), order[last], answers[last], c);
    }
  }

  // Failed searches

  function Sum(fails: seq<nat>): nat { if |fails| == 0 then 0 else Sum(fails[..|fails| - 1]) + fails[|fails| - 1] }

  /** From one state to the other this many searches have failed. */
  predicate FailedSince(before: seq<nat>, after: seq<nat>, failures: nat) {
    && |before| == |after| && (forall c :: 0 <= c < |before| ==> before[c] <= after[c])
    && Sum(after) == Sum(before) + failures
  }

  lemma {:induction false} SumOneMore(fails: seq<nat>, c: nat)
    requires c < |fails|
    ensures Sum(fails[c := fails[c] + 1]) == Sum(fails) + 1
  {
    var last := |fails| - 1;
    if c == last {
      assert fails[c := fails[c] + 1][..last] == fails[..last];
    } else {
      assert fails[c := fails[c] + 1][..last] == fails[..last][c := fails[c] + 1];
      SumOneMore(fails[..last], c);
    }
  }

  lemma {:induction false} SumMonotone(before: seq<nat>, after: seq<nat>)
    requires |before| == |after| && forall c :: 0 <= c < |before| ==> before[c] <= after[c]
    ensures Sum(before) <= Sum(after) && (Sum(before) == Sum(after) <==> before == after)
  {
    if |before| > 0 {
      var last := |before| - 1;
      SumMonotone(before[..last], after[..last]);
      assert before == before[..last] + [before[last]] && after == after[..last] + [after[last]];
    }
  }

  lemma FailedThen(before: seq<nat>, now: seq<nat>, after: seq<nat>, m: nat, n: nat)
    requires FailedSince(before, now, m) && FailedSince(now, after, n)
    ensures FailedSince(before, after, m + n)
  {
  }

  /** A rerouting adds a failure exactly if it searches in vain. */
  lemma RerouteFails(d: Design, s: State, c: nat, answer: seq<nat>, t: State)
    requires Shaped(d, s) && c < |d.conns| && InNodes(answer, d.nodes) && t == Reroute(d, s, c, answer)
    ensures FailedSince(s.fails, t.fails, if answer == [] then 1 else 0)
  {
    SumOneMore(s.fails, c);
  }

  /**
   A connection whose routed flag starts out true without a path is never routed: the flag
   has no initialiser, and the loop relies on its being false.
   */
  lemma {:induction false} StrayFlagIsNeverRouted(d: Design, s: State, order: seq<nat>, answers: seq<seq<nat>>, c: nat)
    requires Shaped(d, s) && Visits(d, order, answers) && c < |d.conns|
    requires s.routed[c] && s.paths[c] == []
    ensures Iteration(d, s, order, answers).routed[c] && Iteration(d, s, order, answers).paths[c] == []
  {
    if |order| > 0 {
      var last := |order| - 1;
      StrayFlagIsNeverRouted(d, s, order[..last], answers[..last], c);
    }
  }

  lemma {:induction false} NoFailures(d: Design, s: State, order: seq<nat>, answers: seq<seq<nat>>, c: nat)
    requires Shaped(d, s) && Visits(d, order, answers) && c < |d.conns|
    requires s.routed[c] <==> s.paths[c] != []
    requires forall i :: 0 <= i < |answers| ==> answers[i] != []
    ensures var r := Iteration(d, s, order, answers);
            r.fails[c] == s.fails[c] && (r.routed[c] <==> r.paths[c] != [])
  {
    if |order| > 0 {
      var last := |order| - 1;
      NoFailures(d, s, order[..last], answers[..last], c);
      VisitOutcome(d, Iteration(d, s, order[..last], answers[..last]), order[last], answers[last], c);
    }
  }

  /** If no search of the iteration fails, exact books stay exact. */
  lemma {:induction false} IterationKeepsExact(d: Design, s: State, order: seq<nat>, answers: seq<seq<nat>>)
    requires Exact(d, s) && Visits(d, order, answers)
    requires forall i :: 0 <= i < |answers| ==> answers[i] != []
    ensures Exact(d, Iteration(d, s, order, answers))
  {
    if |order| > 0 {
      var last := |order| - 1;
      IterationKeepsExact(d, s, order[..last], answers[..last]);
      var t := Iteration(d, s, order[..last], answers[..last]);
      if ShouldRoute(d, t, order[last]) { RerouteKeepsExact(d, t, order[last], answers[last]); }
    }
  }

  /** An iteration over all connections without a failed search leaves every one with a path. */
  lemma IterationComplete(d: Design, s: State, order: seq<nat>, answers: seq<seq<nat>>)
    requires Sound(d, s) && Visits(d, order, answers) && NoRepeat(order)
    requires forall c :: 0 <= c < |d.conns| ==> c in order
    requires forall i :: 0 <= i < |answers| ==> answers[i] != []
    ensures AllPathsPresent(d, Iteration(d, s, order, answers))
  {
    forall c | 0 <= c < |d.conns| ensures Iteration(d, s, order, answers).paths[c] != [] {
      IterationRoutes(d, s, order, answers, c);
      NoFailures(d, s, order, answers, c);
    }
  }

  /** Failure counts never fall, and a visited connection without a new failure has a path. */
  lemma {:induction false} VisitedOrFailed(d: Design, s: State, order: seq<nat>, answers: seq<seq<nat>>, c: nat)
    requires Shaped(d, s) && Visits(d, order, answers) && c < |d.conns| && (s.routed[c] <==> s.paths[c] != [])
    ensures var r := Iteration(d, s, order, answers);
            && (r.routed[c] <==> r.paths[c] != []) && r.fails[c] >= s.fails[c]
            && (r.fails[c] == s.fails[c] && (c in order || s.paths[c] != []) ==> r.paths[c] != [])
  {
    if |order| > 0 {
      var last := |order| - 1;
      VisitedOrFailed(d, s, order[..last], answers[..last], c);
      assert order == order[..last] + [order[last]];
      VisitOutcome(d, Iteration(d, s, order[..last], answers[..last]), order[last], answers[last], c);
      FailsGrow(d, Iteration(d, s, order[..last], answers[..last]), order[last], answers[last], c);
    }
  }

  lemma FailsGrow(d: Design, s: State, c: nat, answer: seq<nat>, e: nat)
    requires Shaped(d, s) && c < |d.conns| && InNodes(answer, d.nodes) && e < |d.conns|
    ensures Visit(d, s, c, answer).fails[e] >= s.fails[e]
  {
  }

  /**
   Convergence: an iteration that visits every connection once, without a failed search,
   and ends without overused nodes leaves a legal routing.
   */
  lemma Converged(d: Design, s: State, order: seq<nat>, answers: seq<seq<nat>>)
    requires Exact(d, s) && Visits(d, order, answers) && NoRepeat(order)
    requires forall c :: 0 <= c < |d.conns| ==> c in order
    requires forall i :: 0 <= i < |answers| ==> answers[i] != []
    ensures var r := Iteration(d, s, order, answers);
            Exact(d, r) && AllPathsPresent(d, r) && (NoOveruse(d, r) <==> NodesDisjoint(d, r))
  {
    IterationComplete(d, s, order, answers);
    IterationKeepsExact(d, s, order, answers);
    OveruseIsSharing(d, Iteration(d, s, order, answers));
  }

  // The final check

  /** Every use among the first k connections, and the first j nodes of the next, is recorded. */
  ghost predicate Recorded(d: Design, paths: seq<seq<nat>>, usage: seq<int>, k: nat, j: nat)
    requires |paths| == |d.conns| && |usage| == d.nodes
  {
    forall c, i :: 0 <= c < |paths| && 0 <= i < |paths[c]| && (c < k || (c == k && i < j)) ==>
      paths[c][i] < d.nodes && usage[paths[c][i]] == d.conns[c].net
  }

  /** What is recorded is a use: owner[v] is a connection of that net through v. */
  ghost predicate Justified(d: Design, paths: seq<seq<nat>>, usage: seq<int>, owner: seq<nat>)
    requires |paths| == |d.conns| && |usage| == |owner| == d.nodes
  {
    forall v :: 0 <= v < d.nodes && usage[v] != -1 ==>
      owner[v] < |paths| && v in paths[owner[v]] && d.conns[owner[v]].net == usage[v]
  }

  /** The final check reports nothing exactly when all paths are present and nets are disjoint. */
  method CheckRoute(d: Design, s: State) returns (ok: bool)
    requires Shaped(d, s)
    ensures ok <==> AllPathsPresent(d, s) && NodesDisjoint(d, s)
  {
    var usage: seq<int> := seq(d.nodes, _ => -1);
    ghost var owner: seq<nat> := seq(d.nodes, _ => 0);
    for k := 0 to |d.conns|
      invariant |usage| == |owner| == d.nodes
      invariant forall c :: 0 <= c < k ==> s.paths[c] != []
      invariant Recorded(d, s.paths, usage, k, 0) && Justified(d, s.paths, usage, owner)
    {
      if |s.paths[k]| == 0 { return false; }
      for j := 0 to |s.paths[k]|
        invariant |usage| == |owner| == d.nodes
        invariant Recorded(d, s.paths, usage, k, j) && Justified(d, s.paths, usage, owner)
      {
        var v := s.paths[k][j];
        if usage[v] != -1 && usage[v] != d.conns[k].net {
          assert v in s.paths[k] && v in s.paths[owner[v]];
          return false;
        }
        usage := usage[v := d.conns[k].net];
        owner := owner[v := k];
      }
    }
    forall c, e, v | 0 <= c < |d.conns| && 0 <= e < |d.conns| && v in s.paths[c] && v in s.paths[e]
      ensures d.conns[c].net == d.conns[e].net
    {
      var i :| 0 <= i < |s.paths[c]| && s.paths[c][i] == v;
      var j :| 0 <= j < |s.paths[e]| && s.paths[e][j] == v;
    }
    ok := true;
  }
}
