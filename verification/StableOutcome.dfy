/**
 What an iteration of stability-first routing achieves (src/route/stableFirstRouting.cpp,
 lines 17-51, with the end of the negotiation loop in src/route/aStarRoute.cpp, lines
 119-131): batches over most nets, then a partition-tree pass over the labelled ones. These
 iterations do not count failed searches.
 */
module StableOutcome {
  import opened Geometry
  import opened RoutingGraph
  import opened Counting
  import opened Interleaving
  import opened Ledger
  import opened Search
  import opened Congestion
  import opened Convergence
  import opened Exclusive
  import opened SyncBatch
  import opened OccChange
  import opened IterationLog
  import opened BatchVisits
  import opened BatchOutcome
  import opened BatchAnswers
  import opened BatchIteration
  import opened Site
  import opened Answered
  import opened TreePass

  /** An iteration that ends without overuse is legal exactly if every routed flag is set. */
  lemma LegalIffRouted(d: Design, t: State)
    requires Sound(d, t) && SinksOwned(d, t) && NoOveruse(d, t)
    ensures AllPathsPresent(d, t) && NodesDisjoint(d, t) <==> forall c :: 0 <= c < |d.conns| ==> t.routed[c]
  {
    DisjointDespiteFailures(d, t);
  }

  /**
   Batches over all nets, with spare stamps, that end without overuse are legal exactly if no
   connection was blocked when its batch started: in need of routing, with its sink not
   connected by the counts of that barrier.
   */
  lemma LegalIffNoneBlocked(site: Site, mine: seq<nat>, s: State, t: State, events: seq<Event>, done: seq<nat>,
                            starts: map<nat, State>)
    requires Reached(site, mine, s, t, events, done, starts, true)
    requires SinksDistinct(site.D()) && PinTypes(site.D()) && SinksOwned(site.D(), s) && NoOveruse(site.D(), t)
    requires forall n: nat :: n < site.nets ==> n in done
    ensures AllPathsPresent(site.D(), t) && NodesDisjoint(site.D(), t) <==>
            forall c: nat :: c < |site.conns| ==> !Blocked(site, starts[site.conns[c].net], c)
  {
    DisjointDespiteFailures(site.D(), t);
    forall c: nat | c < |site.conns| ensures t.paths[c] == [] <==> Blocked(site, starts[site.conns[c].net], c) {
      assert site.conns[c].net in done;
    }
  }

  /** Any number of nets, of which the first has a source and a sink without any edge between them. */
  function NoWay(nets: nat): Site {
    var node := (kind: NodeType) => Node(kind, 0, 0, 0, 0, false, false, 1.0, 1, [], []);
    Site([node(PINFEED_O), node(PINFEED_I)], [Conn(0, 0, 1)], [Box(Interval(-1, 1), Interval(-1, 1))], nets,
         seq(nets, _ => NetShape(1, 0.0, 0.0, 1.0)), [1.0, 1.0], 0)
  }

  lemma FirstEdge(g: Graph, c: Terminal, counts: map<nat, int>, p: seq<nat>)
    requires c.sink < |g| && c.source != c.sink && PassableWalk(g, c, counts, p) && p[|p| - 1] == c.sink
    ensures |p| > 1 && Edge(g, c.source, p[1])
  {
    assert Edge(g, p[0], p[0 + 1]);
  }

  lemma NoWayIsBlocked(nets: nat, s: State)
    requires nets > 0 && Fitted(NoWay(nets), s)
    ensures NoWay(nets).Valid() && !SinkConnected(NoWay(nets).g, NoWay(nets).Term(0), s.users[0])
  {
    var site := NoWay(nets);
    if p :| PassableWalk(site.g, site.Term(0), s.users[0], p) && p[|p| - 1] == site.Term(0).sink {
      FirstEdge(site.g, site.Term(0), s.users[0], p);
    }
  }

  /**
   The loop may end without overuse and yet without a path for every connection: from the
   reserved sinks, every batch with the first net of this design, answered as the searches
   answer with spare stamps, leaves no overuse and no path.
   */
  lemma QuietFailure(nets: nat, site: Site, s: State, tries: seq<Event>)
    requires nets > 0 && site == NoWay(nets) && s == Reserved(site.D(), 0.5, 1)
    requires Fitted(site, s) && Tries(site.D(), tries) && Visited(site.D(), s, tries, 0)
    requires BatchAnswered(site, s, tries)
    ensures Exact(site.D(), s) && AllCovered(site.D(), s, tries)
    ensures NoOveruse(site.D(), Run(site.D(), s, tries)) && !AllPathsPresent(site.D(), Run(site.D(), s, tries))
  {
    var d, r := site.D(), Run(site.D(), s, tries);
    NoWayIsBlocked(nets, s);
    assert PinTypes(d);
    ReservedIsExact(d, 0.5);
    ExactCovers(d, s, tries);
    SamePaths(d, s, tries);
    BlockedStays(site, s, tries, 0);
    assert Blocked(site, s, 0);
    forall v: nat | v < 2 ensures r.occ[v] <= 1 {
      assert TalliedAt(d, s, v) && CoveredAt(d, s, tries, v);
      RunTallied(d, s, tries, v);
      forall n: nat | n < nets && n != 0 ensures v !in r.users[n] {
        OtherTables(d, s, tries, n);
        ReservedKeys(d, 0.5, 1, n, v);
      }
      OnlyOneUser(r.users, v, 0);
    }
  }

  // The labelled nets

  /** At its visit the connection needs routing, but its sink is not connected once it is ripped up. */
  ghost predicate Barred(site: Site, s: State, c: nat)
    requires Fitted(site, s) && c < |site.conns|
  {
    ShouldRoute(site.D(), s, c) &&
    !SinkConnected(site.g, site.Term(c), RipUp(site.D(), s, c).users[site.conns[c].net])
  }

  /** The state that the k-th visit of an iteration meets. */
  ghost function Met(site: Site, s: State, order: seq<nat>, answers: seq<seq<nat>>, k: nat): State
    requires Fitted(site, s) && Visits(site.D(), order, answers) && k <= |order|
  {
    Iteration(site.D(), s, order[..k], answers[..k])
  }

  lemma VisitOutcome(site: Site, s: State, c: nat, answer: seq<nat>)
    requires Fitted(site, s) && Sound(site.D(), s) && c < |site.conns| && InNodes(answer, |site.g|)
    requires VisitAnswered(site, s, c, answer)
    ensures Visit(site.D(), s, c, answer).paths[c] == [] <==> Barred(site, s, c)
  {
  }

  /** After an answered iteration a connection is without a path exactly if it was barred at its visit. */
  lemma {:induction false} BarredStays(site: Site, s: State, order: seq<nat>, answers: seq<seq<nat>>, k: nat)
    requires Fitted(site, s) && Sound(site.D(), s) && Visits(site.D(), order, answers) && NoRepeat(order) && k < |order|
    requires IterationAnswered(site, s, order, answers)
    ensures Iteration(site.D(), s, order, answers).paths[order[k]] == [] <==>
            Barred(site, Met(site, s, order, answers, k), order[k])
  {
    var d, last := site.D(), |order| - 1;
    var front, before := order[..last], answers[..last];
    if k == last {
      IterationKeepsSound(d, s, front, before);
      VisitOutcome(site, Iteration(d, s, front, before), order[k], answers[k]);
    } else {
      BarredStays(site, s, front, before, k);
      TakeTake(order, last, k);
      TakeTake(answers, last, k);
      LastVisitLeaves(d, s, order, answers, order[k]);
    }
  }

  lemma LastVisitLeaves(d: Design, s: State, order: seq<nat>, answers: seq<seq<nat>>, c: nat)
    requires Shaped(d, s) && Visits(d, order, answers) && order != [] && order[|order| - 1] != c && c < |d.conns|
    ensures var last := |order| - 1;
            Iteration(d, s, order, answers).paths[c] == Iteration(d, s, order[..last], answers[..last]).paths[c]
  {
  }

  /** The pass visits, once each, exactly the connections of the nets that the batches left out. */
  ghost predicate LabelledPass(site: Site, t: State, table: seq<NodeInfo>, done: seq<nat>, levels: seq<Level>) {
    && |levels| > 0 && Pass(levels) && levels[0].w.site == site && levels[0].m.s == t && levels[0].m.info == table
    && NoRepeat(OrderOf(levels))
    && forall c: nat :: c < |site.conns| ==> (c in OrderOf(levels) <==> site.conns[c].net !in done)
  }

  /** No table holds a stamp of the iteration. */
  ghost predicate AllSpare(site: Site, infos: seq<seq<NodeInfo>>) {
    forall u: nat, c: nat :: u < |infos| && c < |site.conns| ==> Unused(site.Uid(c), infos[u])
  }

  lemma AllSpareLater(site: Site, batches: seq<seq<seq<nat>>>, infos: seq<seq<NodeInfo>>)
    requires AllSpare(site, infos)
    ensures SpareLater(site.D(), batches, 0, site.connectionIdBase, infos)
  {
    var nets := SetOf(FlatAll(batches)) - SetOf(FlatAll(batches[..0]));
    forall u: nat, c: nat | u < |infos| && c < |site.conns| && site.conns[c].net in nets
      ensures Unused(c + site.connectionIdBase, infos[u])
    {
      assert Unused(site.Uid(c), infos[u]);
    }
  }

  /** The batches leave the stamps of the other nets' connections unused. */
  lemma LabelledSpare(site: Site, events: seq<Event>, done: seq<nat>, before: seq<NodeInfo>, after: seq<NodeInfo>,
                      order: seq<nat>)
    requires Tries(site.D(), events) && OnlyOf(site.D(), events, done)
    requires StampedBy(before, after, site.connectionIdBase, TriedIn(site.D(), events))
    requires forall c: nat :: c < |site.conns| ==> Unused(site.Uid(c), before)
    requires forall i :: 0 <= i < |order| ==> order[i] < |site.conns| && site.conns[order[i]].net !in done
    ensures Spare(order, 0, site.connectionIdBase, after)
  {
    forall j | 0 <= j < |order| ensures Unused(order[j] + site.connectionIdBase, after) {
      assert Unused(site.Uid(order[j]), before);
      assert order[j] !in TriedIn(site.D(), events);
    }
  }

  lemma {:induction false} OrderInRange(levels: seq<Level>)
    requires |levels| > 0 && Pass(levels)
    ensures forall i :: 0 <= i < |OrderOf(levels)| ==> OrderOf(levels)[i] < |levels[0].w.site.conns|
    decreases |levels|
  {
    var last := |levels| - 1;
    assert GoodLevel(levels[last]) && SameDesign(levels[0].w, levels[last].w);
    TasksInRange(levels[last].w.tasks, |levels[0].w.site.conns|);
    if last > 0 { OrderInRange(levels[..last]); } else { assert levels[..0] == []; }
  }

  lemma {:induction false} TasksInRange(tasks: seq<seq<nat>>, n: nat)
    requires forall t, k :: 0 <= t < |tasks| && 0 <= k < |tasks[t]| ==> tasks[t][k] < n
    ensures forall i :: 0 <= i < |Flat(tasks)| ==> Flat(tasks)[i] < n
  {
    if |tasks| > 0 { TasksInRange(tasks[..|tasks| - 1], n); }
  }

  /** After the batches, the pass over the labelled nets meets paths inside their boxes and unused stamps. */
  lemma LabelledReady(site: Site, batches: seq<seq<seq<nat>>>, s: State, infos0: seq<seq<NodeInfo>>,
                      changes0: seq<seq<Change>>, t: State, infos: seq<seq<NodeInfo>>, changes: seq<seq<Change>>,
                      events: seq<Event>, starts: map<nat, State>, levels: seq<Level>)
    requires Arrived(site, batches, |batches|, s, infos0, changes0, t, infos, changes, events, starts, true)
    requires Joined(site, s) && AllSpare(site, infos0) && |infos0| > 0 && SinksDistinct(site.D()) && PinTypes(site.D())
    requires LabelledPass(site, t, infos[0], FlatAll(batches), levels)
    ensures PathsNear(levels[0].w, levels[0].m.s) && Prepared(levels[0].w, OrderOf(levels), levels[0].m)
  {
    assert batches[..|batches|] == batches && GoodLevel(levels[0]);
    JoinedIsNear(levels[0].w, t);
    OrderInRange(levels);
    var order := OrderOf(levels);
    forall i | 0 <= i < |order| ensures site.conns[order[i]].net !in FlatAll(batches) { assert order[i] in order; }
    assert StampedBy(infos0[0], infos[0], site.connectionIdBase, TriedIn(site.D(), events));
    forall c: nat | c < |site.conns| ensures Unused(site.Uid(c), infos0[0]) { }
    LabelledSpare(site, events, FlatAll(batches), infos0[0], infos[0], order);
  }

  /**
   The whole iteration, from a state whose paths join their ends and tables without its
   stamps: batches, then the pass over the labelled nets. Books stay sound, sinks stay with
   their owners, paths join their ends. A connection of the batches' nets is without a path
   exactly if it was blocked at the start of its batch, one of a labelled net exactly if it
   was barred at its visit. Without overuse the result is legal exactly if every routed flag is
   set.
   */
  lemma IterationOutcome(site: Site, batches: seq<seq<seq<nat>>>, s: State, infos0: seq<seq<NodeInfo>>,
                         changes0: seq<seq<Change>>, t: State, infos: seq<seq<NodeInfo>>, changes: seq<seq<Change>>,
                         events: seq<Event>, starts: map<nat, State>, levels: seq<Level>)
    returns (answers: seq<seq<nat>>)
    requires Arrived(site, batches, |batches|, s, infos0, changes0, t, infos, changes, events, starts, true)
    requires Joined(site, s) && AllSpare(site, infos0) && |infos0| > 0
    requires SinksDistinct(site.D()) && PinTypes(site.D()) && SinksOwned(site.D(), s)
    requires LabelledPass(site, t, infos[0], FlatAll(batches), levels)
    ensures var d, r := site.D(), EndOf(levels[|levels| - 1]).s;
            && Sound(d, r) && SinksOwned(d, r) && Joined(site, r)
            && (forall c: nat :: c < |site.conns| && site.conns[c].net in FlatAll(batches) ==>
                  site.conns[c].net in starts && Fitted(site, starts[site.conns[c].net]) &&
                  (r.paths[c] == [] <==> Blocked(site, starts[site.conns[c].net], c)))
            && (NoOveruse(d, r) ==>
                  (AllPathsPresent(d, r) && NodesDisjoint(d, r) <==> forall c :: 0 <= c < |site.conns| ==> r.routed[c]))
    ensures Visits(site.D(), OrderOf(levels), answers)
    ensures forall k :: 0 <= k < |OrderOf(levels)| ==>
              (EndOf(levels[|levels| - 1]).s.paths[OrderOf(levels)[k]] == [] <==>
               Barred(site, Met(site, t, OrderOf(levels), answers, k), OrderOf(levels)[k]))
  {
    var d, r, order := site.D(), EndOf(levels[|levels| - 1]).s, OrderOf(levels);
    assert batches[..|batches|] == batches;
    LabelledReady(site, batches, s, infos0, changes0, t, infos, changes, events, starts, levels);
    PassKeepsOwned(levels);
    PassJoins(levels);
    answers := PassIsAnswered(levels);
    forall k | 0 <= k < |order|
      ensures r.paths[order[k]] == [] <==> Barred(site, Met(site, t, order, answers, k), order[k])
    {
      BarredStays(site, t, order, answers, k);
    }
    forall c: nat | c < |site.conns| && c !in order
      ensures r.paths[c] == t.paths[c]
    {
      IterationRoutes(d, t, order, answers, c);
    }
    if NoOveruse(d, r) { LegalIffRouted(d, r); }
  }
}
