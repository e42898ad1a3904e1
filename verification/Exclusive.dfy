/**
 Sink nodes belong to one net: updateSinkNodeUsage reserves them, and isAccessiblePinfeedI
 keeps other nets out (src/route/aStarRoute.cpp lines 419-433 and 906-923).
 */
module Exclusive {
  import opened Counting
  import opened Ledger
  import opened Congestion
  import opened Convergence

  predicate SinksDistinct(d: Design) {
    forall c, e :: 0 <= c < e < |d.conns| ==> d.conns[c].sink != d.conns[e].sink
  }

  /** Sinks carry type PINFEED_I and sources do not. */
  predicate PinTypes(d: Design)
    requires ValidDesign(d)
  {
    forall c :: 0 <= c < |d.conns| ==> d.pinfeed[d.conns[c].sink] && !d.pinfeed[d.conns[c].source]
  }

  /** v is the sink of a connection of another net. */
  ghost predicate Foreign(d: Design, n: nat, v: nat) {
    exists c :: 0 <= c < |d.conns| && d.conns[c].sink == v && d.conns[c].net != n
  }

  /** No net has ever counted, or routed through, a foreign sink. */
  ghost predicate SinksOwned(d: Design, s: State)
    requires Shaped(d, s)
  {
    && (forall n, v :: 0 <= n < d.nets && v in s.users[n] ==> !Foreign(d, n, v))
    && (forall c, v :: 0 <= c < |d.conns| && v in s.paths[c] ==> !Foreign(d, d.conns[c].net, v))
  }

  /**
   What a search with fresh stamps guarantees about its path: apart from the two ends, a
   PINFEED_I node is only entered if the net already counts it.
   */
  ghost predicate RespectsPins(d: Design, users: Users, c: nat, path: seq<nat>)
    requires ValidDesign(d) && c < |d.conns|
  {
    forall v :: v in path ==>
      v < d.nodes && (v == d.conns[c].source || v == d.conns[c].sink || !d.pinfeed[v] || v in users)
  }

  lemma OwnPinsNotForeign(d: Design, c: nat)
    requires ValidDesign(d) && SinksDistinct(d) && PinTypes(d) && c < |d.conns|
    ensures !Foreign(d, d.conns[c].net, d.conns[c].sink)
    ensures !Foreign(d, d.conns[c].net, d.conns[c].source)
  {
    forall e | 0 <= e < |d.conns|
      ensures d.conns[e].sink == d.conns[c].sink ==> d.conns[e].net == d.conns[c].net
      ensures d.conns[e].sink != d.conns[c].source
    {
      assert e < c ==> d.conns[e].sink != d.conns[c].sink;
      assert c < e ==> d.conns[c].sink != d.conns[e].sink;
      assert d.pinfeed[d.conns[e].sink] && !d.pinfeed[d.conns[c].source];
    }
  }

  lemma {:induction false} KeysOfDecAll(b: Books, nodes: seq<nat>, factor: real, v: nat)
    requires Sized(b, |b.occ|) && InNodes(nodes, |b.occ|)
    ensures v in DecAll(b, nodes, factor).users ==> v in b.users || v in nodes
    ensures v in IncAll(b, nodes, factor).users ==> v in b.users || v in nodes
  {
    if |nodes| > 0 {
      assert nodes == nodes[..|nodes| - 1] + [nodes[|nodes| - 1]];
      KeysOfDecAll(b, nodes[..|nodes| - 1], factor, v);
    }
  }

  lemma HeldNotForeign(d: Design, s: State, c: nat, v: nat)
    requires Shaped(d, s) && SinksDistinct(d) && PinTypes(d) && SinksOwned(d, s) && c < |d.conns|
    requires v in Held(d, s, c)
    ensures !Foreign(d, d.conns[c].net, v)
  {
    OwnPinsNotForeign(d, c);
  }

  /** A rerouting whose path enters no foreign sink keeps every sink to its owner, failed searches included. */
  lemma OwnPathKeepsOwned(d: Design, s: State, c: nat, path: seq<nat>)
    requires Shaped(d, s) && SinksDistinct(d) && PinTypes(d) && SinksOwned(d, s)
    requires c < |d.conns| && InNodes(path, d.nodes)
    requires forall v :: v in path ==> !Foreign(d, d.conns[c].net, v)
    ensures SinksOwned(d, Reroute(d, s, c, path))
  {
    var m, r, s' := d.conns[c].net, RipUp(d, s, c), Reroute(d, s, c, path);
    forall v | v in r.users[m] ensures !Foreign(d, m, v) {
      KeysOfDecAll(BooksOf(s, m), Held(d, s, c), s.factor, v);
      if v in Held(d, s, c) { HeldNotForeign(d, s, c, v); }
    }
    forall v | v in s'.users[m] ensures !Foreign(d, m, v) {
      if path != [] { KeysOfDecAll(BooksOf(r, m), path, r.factor, v); }
    }
  }

  lemma RespectedNotForeign(d: Design, s: State, users: Users, c: nat, path: seq<nat>)
    requires Shaped(d, s) && SinksDistinct(d) && PinTypes(d) && SinksOwned(d, s) && c < |d.conns|
    requires RespectsPins(d, users, c, path)
    requires forall v :: v in users ==> !Foreign(d, d.conns[c].net, v)
    ensures forall v :: v in path ==> !Foreign(d, d.conns[c].net, v)
  {
    forall v | v in path ensures !Foreign(d, d.conns[c].net, v) {
      OwnPinsNotForeign(d, c);
    }
  }

  /** A rerouting whose path respects pins keeps every sink to its owner. */
  lemma RerouteKeepsOwned(d: Design, s: State, c: nat, path: seq<nat>)
    requires Shaped(d, s) && SinksDistinct(d) && PinTypes(d) && SinksOwned(d, s)
    requires c < |d.conns| && InNodes(path, d.nodes)
    requires RespectsPins(d, RipUp(d, s, c).users[d.conns[c].net], c, path)
    ensures SinksOwned(d, Reroute(d, s, c, path))
  {
    var r := RipUp(d, s, c);
    forall v | v in r.users[d.conns[c].net] ensures !Foreign(d, d.conns[c].net, v) {
      KeysOfDecAll(BooksOf(s, d.conns[c].net), Held(d, s, c), s.factor, v);
      if v in Held(d, s, c) { HeldNotForeign(d, s, c, v); }
    }
    RespectedNotForeign(d, s, r.users[d.conns[c].net], c, path);
    OwnPathKeepsOwned(d, s, c, path);
  }

  ghost predicate EventRespectsPins(d: Design, s: State, e: Event)
    requires Shaped(d, s) && Possible(d, e)
  {
    e.Try? ==> RespectsPins(d, RipUp(d, s, e.conn).users[d.conns[e.conn].net], e.conn, e.path)
  }

  /** All searches of the run respect pins, each judged in the state it runs in. */
  ghost predicate RunRespectsPins(d: Design, s: State, events: seq<Event>)
    requires Shaped(d, s) && forall i :: 0 <= i < |events| ==> Possible(d, events[i])
  {
    forall i :: 0 <= i < |events| ==> EventRespectsPins(d, Run(d, s, events[..i]), events[i])
  }

  /** In every reachable state of every run, a sink has no user but its owner. */
  lemma {:induction false} RunKeepsOwned(d: Design, s: State, events: seq<Event>)
    requires Shaped(d, s) && SinksDistinct(d) && PinTypes(d) && SinksOwned(d, s)
    requires forall i :: 0 <= i < |events| ==> Possible(d, events[i])
    requires RunRespectsPins(d, s, events)
    ensures SinksOwned(d, Run(d, s, events))
  {
    if |events| > 0 {
      var last := |events| - 1;
      var front := events[..last];
      forall i | 0 <= i < |front| ensures EventRespectsPins(d, Run(d, s, front[..i]), front[i]) {
        assert front[..i] == events[..i] && front[i] == events[i];
      }
      RunKeepsOwned(d, s, front);
      var before := Run(d, s, front);
      assert EventRespectsPins(d, before, events[last]);
      if events[last].Try? { RerouteKeepsOwned(d, before, events[last].conn, events[last].path); }
    }
  }

  /** The search of one visit respects pins. */
  ghost predicate VisitRespectsPins(d: Design, s: State, c: nat, answer: seq<nat>)
    requires Shaped(d, s) && c < |d.conns|
  {
    RespectsPins(d, RipUp(d, s, c).users[d.conns[c].net], c, answer)
  }

  lemma VisitKeepsOwned(d: Design, s: State, c: nat, answer: seq<nat>)
    requires Shaped(d, s) && SinksDistinct(d) && PinTypes(d) && SinksOwned(d, s)
    requires c < |d.conns| && InNodes(answer, d.nodes)
    requires ShouldRoute(d, s, c) ==> VisitRespectsPins(d, s, c, answer)
    ensures SinksOwned(d, Visit(d, s, c, answer))
  {
    if ShouldRoute(d, s, c) { RerouteKeepsOwned(d, s, c, answer); }
  }

  /** A visit keeps the books sound. */
  lemma VisitKeepsSound(d: Design, s: State, c: nat, answer: seq<nat>)
    requires Sound(d, s) && c < |d.conns| && InNodes(answer, d.nodes)
    ensures Sound(d, Visit(d, s, c, answer))
  {
    if ShouldRoute(d, s, c) { RerouteKeepsSound(d, s, c, answer); }
  }

  /** All searches of an iteration respect pins. */
  ghost predicate IterationRespectsPins(d: Design, s: State, order: seq<nat>, answers: seq<seq<nat>>)
    requires Shaped(d, s) && Visits(d, order, answers)
  {
    |order| > 0 ==>
      var last := |order| - 1;
      var t := Iteration(d, s, order[..last], answers[..last]);
      && IterationRespectsPins(d, s, order[..last], answers[..last])
      && (ShouldRoute(d, t, order[last]) ==> VisitRespectsPins(d, t, order[last], answers[last]))
  }

  lemma {:induction false} IterationKeepsOwned(d: Design, s: State, order: seq<nat>, answers: seq<seq<nat>>)
    requires Shaped(d, s) && SinksDistinct(d) && PinTypes(d) && SinksOwned(d, s)
    requires Visits(d, order, answers) && IterationRespectsPins(d, s, order, answers)
    ensures SinksOwned(d, Iteration(d, s, order, answers))
  {
    if |order| > 0 {
      var last := |order| - 1;
      IterationKeepsOwned(d, s, order[..last], answers[..last]);
      VisitKeepsOwned(d, Iteration(d, s, order[..last], answers[..last]), order[last], answers[last]);
    }
  }

  lemma {:induction false} IterationKeepsSound(d: Design, s: State, order: seq<nat>, answers: seq<seq<nat>>)
    requires Sound(d, s) && Visits(d, order, answers)
    ensures Sound(d, Iteration(d, s, order, answers))
  {
    if |order| > 0 {
      var last := |order| - 1;
      IterationKeepsSound(d, s, order[..last], answers[..last]);
      VisitKeepsSound(d, Iteration(d, s, order[..last], answers[..last]), order[last], answers[last]);
    }
  }

  lemma {:induction false} OnlyOneUser(users: seq<Users>, v: nat, owner: nat)
    requires forall n :: 0 <= n < |users| && v in users[n] ==> n == owner
    ensures UsingNets(users, v) <= 1
  {
    if |users| > 0 {
      var last := |users| - 1;
      OnlyOneUser(users[..last], v, owner);
      if v in users[last] { NoUser(users[..last], v); }
    }
  }

  lemma {:induction false} NoUser(users: seq<Users>, v: nat)
    requires forall n :: 0 <= n < |users| ==> v !in users[n]
    ensures UsingNets(users, v) == 0
  {
    if |users| > 0 { NoUser(users[..|users| - 1], v); }
  }

  /** With exact books, owned sinks are never overused. */
  lemma SinksNotOverused(d: Design, s: State, c: nat)
    requires Exact(d, s) && SinksOwned(d, s) && c < |d.conns|
    ensures s.occ[d.conns[c].sink] <= 1
  {
    var v := d.conns[c].sink;
    forall n | 0 <= n < |s.users| && v in s.users[n] ensures n == d.conns[c].net {
      assert !Foreign(d, n, v);
    }
    assert TalliedAt(d, s, v);
    OnlyOneUser(s.users, v, d.conns[c].net);
  }

  /**
   Failed searches do not spoil convergence: even where a reservation was lost, the node is a
   sink that only its owner can use, so that zero overuse still means disjoint nets.
   */
  lemma DisjointDespiteFailures(d: Design, s: State)
    requires Sound(d, s) && SinksOwned(d, s) && NoOveruse(d, s)
    ensures NodesDisjoint(d, s)
  {
    forall c, e, v | 0 <= c < |d.conns| && 0 <= e < |d.conns| && v in s.paths[c] && v in s.paths[e]
      ensures d.conns[c].net == d.conns[e].net
    {
      if x :| 0 <= x < |d.conns| && d.conns[x].sink == v {
        assert !Foreign(d, d.conns[c].net, v) && !Foreign(d, d.conns[e].net, v);
      } else {
        SharedIsOverused(d, s, c, e, v);
      }
    }
  }

  // Reservation of the sinks

  /** The state before anything is reserved; every routed flag is taken to be false. */
  function Blank(d: Design, factor: real): (s: State)
    requires ValidDesign(d)
    ensures Shaped(d, s)
  {
    State(seq(d.nets, _ => map[]), seq(d.nodes, _ => 0), seq(d.nodes, _ => 1.0), factor,
          seq(|d.conns|, _ => []), seq(|d.conns|, _ => false), seq(|d.conns|, _ => 0))
  }

  /** The first k sinks have been reserved. */
  function Reserved(d: Design, factor: real, k: nat): (s: State)
    requires ValidDesign(d) && k <= |d.conns|
    ensures Shaped(d, s) && s.paths == Blank(d, factor).paths && s.fails == Blank(d, factor).fails
    ensures s.routed == Blank(d, factor).routed && s.factor == factor
  {
    if k == 0 then Blank(d, factor)
    else
      var s, c := Reserved(d, factor, k - 1), d.conns[k - 1];
      WithBooks(s, c.net, Inc(BooksOf(s, c.net), c.sink, factor))
  }

  lemma {:induction false} ReservedCounts(d: Design, factor: real, k: nat, n: nat, v: nat)
    requires ValidDesign(d) && k <= |d.conns| && n < d.nets
    ensures Cnt(Reserved(d, factor, k).users[n], v) == LoadSum(d, Reserved(d, factor, k), n, v, k)
  {
    if k > 0 {
      ReservedCounts(d, factor, k - 1, n, v);
      var s, s', c := Reserved(d, factor, k - 1), Reserved(d, factor, k), d.conns[k - 1];
      SameSums(d, s, s', n, v, k - 1);
      PendingLoad(d, s', k - 1, v);
      IncCounts(BooksOf(s, c.net), c.sink, factor, v);
    }
  }

  lemma PendingLoad(d: Design, s: State, c: nat, v: nat)
    requires Shaped(d, s) && c < |d.conns| && s.paths[c] == []
    ensures Load(d, s, c, v) == if d.conns[c].sink == v then 1 else 0
  {
    CountSnoc([], d.conns[c].sink, v);
    assert [] + [d.conns[c].sink] == [d.conns[c].sink];
  }

  lemma {:induction false} ReservedTallied(d: Design, factor: real, k: nat, v: nat)
    requires ValidDesign(d) && k <= |d.conns| && v < d.nodes
    ensures TalliedAt(d, Reserved(d, factor, k), v)
  {
    if k == 0 {
      NoUser(Blank(d, factor).users, v);
    } else {
      ReservedTallied(d, factor, k - 1, v);
      var s, c := Reserved(d, factor, k - 1), d.conns[k - 1];
      BooksStep(d, s, c.net, Inc(BooksOf(s, c.net), c.sink, factor), [c.sink], v);
    }
  }

  /** After the reservations the books are exact. */
  lemma ReservedIsExact(d: Design, factor: real)
    requires ValidDesign(d)
    ensures Exact(d, Reserved(d, factor, |d.conns|))
  {
    forall v | 0 <= v < d.nodes ensures TalliedAt(d, Reserved(d, factor, |d.conns|), v) {
      ReservedTallied(d, factor, |d.conns|, v);
    }
    forall n, v: nat | 0 <= n < d.nets
      ensures Cnt(Reserved(d, factor, |d.conns|).users[n], v) ==
              Uses(d, Reserved(d, factor, |d.conns|), n, v) - LostBy(d, Reserved(d, factor, |d.conns|), n, v)
    {
      ReservedCounts(d, factor, |d.conns|, n, v);
      NothingLost(d, Reserved(d, factor, |d.conns|), n, v, |d.conns|);
    }
  }

  lemma {:induction false} ReservedKeys(d: Design, factor: real, k: nat, n: nat, v: nat)
    requires ValidDesign(d) && k <= |d.conns| && n < d.nets
    ensures v in Reserved(d, factor, k).users[n] <==>
            exists c :: 0 <= c < k && d.conns[c].net == n && d.conns[c].sink == v
  {
    if k > 0 {
      ReservedKeys(d, factor, k - 1, n, v);
      IncCounts(BooksOf(Reserved(d, factor, k - 1), d.conns[k - 1].net), d.conns[k - 1].sink, factor, v);
      if v in Reserved(d, factor, k - 1).users[n] {
        var c :| 0 <= c < k - 1 && d.conns[c].net == n && d.conns[c].sink == v;
      }
    }
  }

  /** With distinct sinks every reserved sink is its owner's. */
  lemma ReservedIsOwned(d: Design, factor: real)
    requires ValidDesign(d) && SinksDistinct(d) && PinTypes(d)
    ensures SinksOwned(d, Reserved(d, factor, |d.conns|))
  {
    var s := Reserved(d, factor, |d.conns|);
    forall n, v | 0 <= n < d.nets && v in s.users[n] ensures !Foreign(d, n, v) {
      ReservedKeys(d, factor, |d.conns|, n, v);
      var c :| 0 <= c < |d.conns| && d.conns[c].net == n && d.conns[c].sink == v;
      OwnPinsNotForeign(d, c);
    }
  }
}
