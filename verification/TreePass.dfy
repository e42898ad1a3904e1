/**
 A whole pass of the partition-tree mode (aStarRoute::routePartitionTree,
 src/route/aStarRoute.cpp, lines 926-954): level after level, each with its tasks in any
 interleaving. The levels are those that the schedule of the partition tree provides.
 */
module TreePass {
  import opened Counting
  import opened Interleaving
  import opened RoutingGraph
  import opened Search
  import opened Congestion
  import opened Convergence
  import opened Exclusive
  import opened Site
  import opened Answered
  import opened IterationLog
  import opened LevelMachine
  import opened LevelSchedule
  import opened LevelConfluence
  import opened LevelOutcome
  import opened Geometry
  import BoundingBox
  import PartitionTree
  import LevelSafety

  /** The connections with the end tiles of their pins. */
  function TilesOf(site: Site): (r: seq<BoundingBox.TileConn>)
    requires ValidDesign(site.D())
    ensures |r| == |site.conns|
  {
    seq(|site.conns|, c requires 0 <= c < |site.conns| =>
      BoundingBox.TileConn(site.conns[c].net, TileOf(site.g, site.conns[c].source), TileOf(site.g, site.conns[c].sink)))
  }

  function TileOf(g: Graph, v: nat): BoundingBox.Tile
    requires v < |g|
  {
    BoundingBox.Tile(g[v].endX, g[v].endY)
  }

  /** The tasks of the world are the leaves of one level. */
  predicate TasksOfLevel(w: World, leaves: seq<PartitionTree.TreeNode>, level: seq<nat>) {
    && |w.tasks| == |level| && (forall a :: 0 <= a < |level| ==> level[a] < |leaves|)
    && forall a :: 0 <= a < |level| ==> w.tasks[a] == leaves[level[a]].connectionIds
  }

  /** A plan gives independent tasks on every level. */
  lemma PlannedIsIndependent(w: World, leaves: seq<PartitionTree.TreeNode>, plan: seq<seq<nat>>, l: nat)
    requires w.site.Valid() && LevelSafety.Planned(TilesOf(w.site), w.site.boxes, leaves, plan)
    requires l < |plan| && TasksOfLevel(w, leaves, plan[l])
    ensures Independent(w)
  {
    forall c | 0 <= c < |w.site.conns| ensures w.Near(c, w.site.conns[c].source) && w.Near(c, w.site.conns[c].sink) {
      assert TilesOf(w.site)[c].source == TileOf(w.site.g, w.site.conns[c].source);
    }
    forall t: nat | t < |w.tasks|
      ensures NoRepeat(w.tasks[t]) && forall k :: 0 <= k < |w.tasks[t]| ==> w.tasks[t][k] < |w.site.conns|
    {
      assert LevelSafety.LeafIds(leaves[plan[l][t]], |w.site.conns|);
    }
    assert w.Valid();
    forall t: nat, u: nat | t < |w.tasks| && u < |w.tasks| && t != u ensures TasksApart(w, t, u) {
      if t < u { PlannedApart(w, leaves, plan, l, t, u); } else { PlannedApart(w, leaves, plan, l, u, t); }
      assert forall c: nat, e: nat :: c < |w.site.conns| && e < |w.site.conns| && Apart(w, c, e) ==> Apart(w, e, c);
    }
  }

  lemma PlannedApart(w: World, leaves: seq<PartitionTree.TreeNode>, plan: seq<seq<nat>>, l: nat, t: nat, u: nat)
    requires w.Valid() && LevelSafety.Planned(TilesOf(w.site), w.site.boxes, leaves, plan) && l < |plan|
    requires TasksOfLevel(w, leaves, plan[l]) && t < u < |w.tasks|
    ensures TasksApart(w, t, u)
  {
    var a, b := plan[l][t], plan[l][u];
    LevelSafety.EntriesDiffer(plan, |leaves|, l, t, u);
    assert LevelSafety.Independent(TilesOf(w.site), w.site.boxes, leaves[a].connectionIds, leaves[b].connectionIds);
    forall j, k | 0 <= j < |w.tasks[t]| && 0 <= k < |w.tasks[u]| ensures Apart(w, w.tasks[t][j], w.tasks[u][k]) {
      var c, e := w.tasks[t][j], w.tasks[u][k];
      assert c in leaves[a].connectionIds && e in leaves[b].connectionIds;
      assert TilesOf(w.site)[c].net != TilesOf(w.site)[e].net;
      assert LevelSafety.InOneLeaf(leaves, c);
      forall v: nat ensures !(w.Near(c, v) && w.Near(e, v)) {
        if v < |w.site.g| {
          assert !LevelSafety.SharedTile(w.site.boxes[c], w.site.boxes[e], w.site.g[v].endX, w.site.g[v].endY);
        }
      }
    }
  }

  // Passing from level to level

  /** All stored paths keep to the boxes of their connections. */
  ghost predicate PathsNear(w: World, s: State)
    requires w.Valid() && Shaped(w.D(), s)
  {
    forall c: nat :: c < |w.site.conns| ==> AllNear(w, c, s.paths[c])
  }

  /** At the start of a level, paths that keep to their boxes are all that is needed. */
  lemma ReadyIsFine(w: World, m: Memory)
    requires Fit(w, m) && Ready(w, m) && PathsNear(w, m.s)
    ensures Fine(w, m)
  {
    forall t: nat | t < |w.tasks| ensures TaskOk(w, m, t) { assert m.ctl[t] == Control(0, Idle); }
  }

  /** At its end they still keep to their boxes. */
  lemma LevelKeepsNear(w: World, m: Memory, a: seq<nat>)
    requires Independent(w) && Fine(w, m) && PathsNear(w, m.s) && Names(a, |w.tasks|)
    ensures Fine(w, Play(StepIn(w), m, a)) && PathsNear(w, Play(StepIn(w), m, a).s)
  {
    PlayUntouched(w, m, a);
    var r := Play(StepIn(w), m, a);
    forall c: nat | c < |w.site.conns| ensures AllNear(w, c, r.s.paths[c]) {
      if Listed(w, c) {
        var t, k :| 0 <= t < |w.tasks| && 0 <= k < |w.tasks[t]| && w.tasks[t][k] == c;
        assert TaskOk(w, r, t);
      }
    }
  }

  /** One level of a pass: its world, the memory it starts from, and the schedule it follows. */
  datatype Level = Level(w: World, m: Memory, schedule: seq<nat>)

  /** The worlds of a pass differ only in their tasks. */
  predicate SameDesign(w: World, w': World) { w' == w.(tasks := w'.tasks) }

  /** The level runs from its memory, by its schedule, until all its tasks have come through. */
  ghost predicate GoodLevel(x: Level) {
    && Independent(x.w) && Fit(x.w, x.m) && Ready(x.w, x.m) && Names(x.schedule, |x.w.tasks|)
    && Through(x.w, EndOf(x))
  }

  /** Levels one after another, each starting from the state and scratch table that the one before has left. */
  ghost predicate Pass(levels: seq<Level>) {
    && (forall l :: 0 <= l < |levels| ==> GoodLevel(levels[l]) && SameDesign(levels[0].w, levels[l].w))
    && (forall l :: 0 < l < |levels| ==> Follows(levels[l - 1], levels[l]))
  }

  ghost predicate Follows(x: Level, y: Level) { y.m.s == EndOf(x).s && y.m.info == EndOf(x).info }

  ghost function EndOf(x: Level): Memory { Play(StepIn(x.w), x.m, x.schedule) }

  /** The connections in the order in which the pass visits them, level by level and leaf by leaf. */
  function OrderOf(levels: seq<Level>): seq<nat> {
    if |levels| == 0 then [] else OrderOf(levels[..|levels| - 1]) + Flat(levels[|levels| - 1].w.tasks)
  }

  lemma NearCarriesOver(w: World, w': World, s: State)
    requires w.Valid() && w'.Valid() && SameDesign(w, w') && Shaped(w.D(), s) && PathsNear(w, s)
    ensures Shaped(w'.D(), s) && PathsNear(w', s)
  {
    forall c: nat | c < |w'.site.conns| ensures AllNear(w', c, s.paths[c]) { assert AllNear(w, c, s.paths[c]); }
  }

  lemma LevelLog(x: Level) returns (log: seq<Entry>)
    requires GoodLevel(x) && PathsNear(x.w, x.m.s)
    ensures Logs(x.w, Flat(x.w.tasks), x.m, EndOf(x), log) && Fit(x.w, EndOf(x)) && PathsNear(x.w, EndOf(x).s)
  {
    ReadyIsFine(x.w, x.m);
    LevelKeepsNear(x.w, x.m, x.schedule);
    log := LevelIsIteration(x.w, x.m, x.schedule);
  }

  /**
   A pass whose levels run in any interleavings amounts to sequential visits of all
   connections of the tree; the log holds them.
   */
  lemma {:induction false} PassIsIteration(levels: seq<Level>) returns (log: seq<Entry>)
    requires |levels| > 0 && Pass(levels) && PathsNear(levels[0].w, levels[0].m.s)
    ensures var last := levels[|levels| - 1];
            && Logs(levels[0].w, OrderOf(levels), levels[0].m, EndOf(last), log)
            && Fit(last.w, EndOf(last)) && PathsNear(last.w, EndOf(last).s)
  {
    var x := levels[|levels| - 1];
    assert GoodLevel(x);
    if |levels| == 1 {
      log := LevelLog(x);
      assert levels[..0] == [];
      assert OrderOf(levels) == Flat(x.w.tasks);
    } else {
      var front := levels[..|levels| - 1];
      var before := PassIsIteration(front);
      var y := front[|front| - 1];
      assert Follows(y, x);
      NearCarriesOver(y.w, x.w, x.m.s);
      var more := LevelLog(x);
      LogsAppend(levels[0].w, OrderOf(front), Flat(x.w.tasks), levels[0].m, EndOf(y), EndOf(x), before, more);
      log := before + more;
    }
  }

  // Every connection once

  lemma {:induction false} LeafCount(tasks: seq<seq<nat>>, leaves: seq<PartitionTree.TreeNode>, level: seq<nat>, c: nat,
                                     k: nat)
    requires |tasks| == |level|
    requires forall a :: 0 <= a < |level| ==> level[a] < |leaves| && tasks[a] == leaves[level[a]].connectionIds
    requires LevelSafety.OnlyIn(leaves, c, k) && NoRepeat(leaves[k].connectionIds)
    ensures Count(Flat(tasks), c) == Count(level, k)
  {
    if |tasks| > 0 {
      var last := |tasks| - 1;
      LeafCount(tasks[..last], leaves, level[..last], c, k);
      CountAppend(Flat(tasks[..last]), tasks[last], c);
      CountIn(tasks[last], c);
      if level[last] == k { CountOnce(tasks[last]); }
    }
  }

  lemma {:induction false} StrangerCount(tasks: seq<seq<nat>>, c: nat)
    requires forall t, i :: 0 <= t < |tasks| && 0 <= i < |tasks[t]| ==> tasks[t][i] != c
    ensures Count(Flat(tasks), c) == 0
  {
    if |tasks| > 0 {
      var last := |tasks| - 1;
      StrangerCount(tasks[..last], c);
      CountAppend(Flat(tasks[..last]), tasks[last], c);
      CountIn(tasks[last], c);
    }
  }

  /** The levels of the pass follow the plan. */
  ghost predicate FollowsPlan(levels: seq<Level>, leaves: seq<PartitionTree.TreeNode>, plan: seq<seq<nat>>) {
    |levels| == |plan| && forall l :: 0 <= l < |levels| ==> TasksOfLevel(levels[l].w, leaves, plan[l])
  }

  lemma {:induction false} OrderCount(levels: seq<Level>, leaves: seq<PartitionTree.TreeNode>, plan: seq<seq<nat>>,
                                      c: nat, k: nat)
    requires FollowsPlan(levels, leaves, plan) && LevelSafety.OnlyIn(leaves, c, k) && NoRepeat(leaves[k].connectionIds)
    ensures Count(OrderOf(levels), c) == Total(plan, k)
  {
    if |levels| > 0 {
      var last := |levels| - 1;
      OrderCount(levels[..last], leaves, plan[..last], c, k);
      CountAppend(OrderOf(levels[..last]), Flat(levels[last].w.tasks), c);
      LeafCount(levels[last].w.tasks, leaves, plan[last], c, k);
    }
  }

  lemma {:induction false} StrangerOrder(levels: seq<Level>, leaves: seq<PartitionTree.TreeNode>, plan: seq<seq<nat>>,
                                         n: nat, c: nat)
    requires FollowsPlan(levels, leaves, plan) && n <= c
    requires forall k :: 0 <= k < |leaves| ==> LevelSafety.LeafIds(leaves[k], n)
    ensures Count(OrderOf(levels), c) == 0
  {
    if |levels| > 0 {
      var last := |levels| - 1;
      StrangerOrder(levels[..last], leaves, plan[..last], n, c);
      CountAppend(OrderOf(levels[..last]), Flat(levels[last].w.tasks), c);
      var tasks := levels[last].w.tasks;
      forall t, i | 0 <= t < |tasks| && 0 <= i < |tasks[t]| ensures tasks[t][i] != c {
        assert LevelSafety.LeafIds(leaves[plan[last][t]], n);
      }
      StrangerCount(tasks, c);
    }
  }

  /** A pass that follows the plan visits every connection exactly once. */
  lemma PlanVisitsOnce(levels: seq<Level>, leaves: seq<PartitionTree.TreeNode>, plan: seq<seq<nat>>,
                       conns: seq<BoundingBox.TileConn>, boxes: seq<Box>)
    requires FollowsPlan(levels, leaves, plan) && LevelSafety.Planned(conns, boxes, leaves, plan)
    ensures Enumerates(OrderOf(levels), |conns|)
  {
    forall c: nat ensures Count(OrderOf(levels), c) == if c < |conns| then 1 else 0 {
      if c < |conns| {
        assert LevelSafety.InOneLeaf(leaves, c);
        var k: nat :| LevelSafety.OnlyIn(leaves, c, k);
        assert LevelSafety.LeafIds(leaves[k], |conns|);
        OrderCount(levels, leaves, plan, c, k);
        assert Total(plan, k) == 1;
      } else {
        StrangerOrder(levels, leaves, plan, |conns|, c);
      }
    }
    CountedOnce(OrderOf(levels), |conns|);
  }

  // What a pass keeps

  /** Nets with sinks of their own, and a table without the stamps that the pass is going to use. */
  ghost predicate Prepared(w: World, order: seq<nat>, m: Memory) {
    && ValidDesign(w.D()) && PinTypes(w.D()) && SinksDistinct(w.D()) && NoRepeat(order)
    && Spare(order, 0, w.site.connectionIdBase, m.info)
  }

  /** A pass keeps the books sound and every sink with its owner, whatever its interleavings and failures. */
  lemma PassKeepsOwned(levels: seq<Level>)
    requires |levels| > 0 && Pass(levels) && PathsNear(levels[0].w, levels[0].m.s)
    requires Sound(levels[0].w.D(), levels[0].m.s) && Prepared(levels[0].w, OrderOf(levels), levels[0].m)
    ensures var d, s, r := levels[0].w.D(), levels[0].m.s, EndOf(levels[|levels| - 1]).s;
            Sound(d, r) && (SinksOwned(d, s) ==> SinksOwned(d, r))
  {
    var w, m, order := levels[0].w, levels[0].m, OrderOf(levels);
    var log := PassIsIteration(levels);
    LogSummary(w.site, order, m.s, m.info, log);
    RoundKeeps(w.site, m.s, order, AnswersOf(log), true);
  }

  /** Paths that join the ends of their connections keep to the boxes. */
  lemma JoinedIsNear(w: World, s: State)
    requires w.Valid() && Joined(w.site, s)
    ensures PathsNear(w, s)
  {
    forall c: nat | c < |w.site.conns| ensures AllNear(w, c, s.paths[c]) {
      assert s.paths[c] == [] || JoinedPath(w.site.g, w.site.Term(c), s.paths[c]);
      forall i | 0 <= i < |s.paths[c]| ensures w.Near(c, s.paths[c][i]) {
        assert w.Near(c, w.site.conns[c].source) && w.Near(c, w.site.conns[c].sink);
      }
    }
  }

  /** A pass stores nothing but such paths. */
  lemma PassJoins(levels: seq<Level>)
    requires |levels| > 0 && Pass(levels) && Joined(levels[0].w.site, levels[0].m.s)
    ensures Joined(levels[0].w.site, EndOf(levels[|levels| - 1]).s)
  {
    assert GoodLevel(levels[0]);
    JoinedIsNear(levels[0].w, levels[0].m.s);
    var log := PassIsIteration(levels);
    LogJoins(levels[0].w.site, OrderOf(levels), levels[0].m.s, levels[0].m.info, log);
  }

  /** The searches of the pass found a path exactly where the sink was in reach. */
  lemma PassIsAnswered(levels: seq<Level>) returns (answers: seq<seq<nat>>)
    requires |levels| > 0 && Pass(levels) && PathsNear(levels[0].w, levels[0].m.s)
    requires Prepared(levels[0].w, OrderOf(levels), levels[0].m)
    ensures var w, s := levels[0].w, levels[0].m.s;
            && Visits(w.D(), OrderOf(levels), answers)
            && EndOf(levels[|levels| - 1]).s == Iteration(w.D(), s, OrderOf(levels), answers)
            && IterationAnswered(w.site, s, OrderOf(levels), answers)
  {
    var w, m := levels[0].w, levels[0].m;
    var log := PassIsIteration(levels);
    LogSummary(w.site, OrderOf(levels), m.s, m.info, log);
    answers := AnswersOf(log);
  }

  /**
   Convergence in partition-tree mode, after whatever failures there were before: a pass over
   all connections that adds no failed search leaves every connection with a path, and if it
   ends without overuse the routing is legal.
   */
  lemma PassConverges(levels: seq<Level>)
    requires |levels| > 0 && Pass(levels) && PathsNear(levels[0].w, levels[0].m.s)
    requires Sound(levels[0].w.D(), levels[0].m.s) && Prepared(levels[0].w, OrderOf(levels), levels[0].m)
    requires SinksOwned(levels[0].w.D(), levels[0].m.s) && Enumerates(OrderOf(levels), |levels[0].w.site.conns|)
    requires EndOf(levels[|levels| - 1]).s.fails == levels[0].m.s.fails
    ensures var d, r := levels[0].w.D(), EndOf(levels[|levels| - 1]).s;
            && Sound(d, r) && SinksOwned(d, r) && AllPathsPresent(d, r) && (NoOveruse(d, r) ==> NodesDisjoint(d, r))
            && (Exact(d, r) ==> (NoOveruse(d, r) <==> NodesDisjoint(d, r)))
    ensures Joined(levels[0].w.site, levels[0].m.s) ==> Joined(levels[0].w.site, EndOf(levels[|levels| - 1]).s)
  {
    var d, s, r, order := levels[0].w.D(), levels[0].m.s, EndOf(levels[|levels| - 1]).s, OrderOf(levels);
    PassKeepsOwned(levels);
    var answers := PassIsAnswered(levels);
    forall c: nat | c < |d.conns| ensures r.paths[c] != [] { VisitedOrFailed(d, s, order, answers, c); }
    if NoOveruse(d, r) { DisjointDespiteFailures(d, r); }
    if Exact(d, r) { OveruseIsSharing(d, r); }
    if Joined(levels[0].w.site, s) { PassJoins(levels); }
  }

  // From the pins to the converged pass

  /** A pass by the plan that starts from sound books with owned sinks, unused stamps and paths inside their boxes. */
  ghost predicate PassOfPlan(site: Site, leaves: seq<PartitionTree.TreeNode>, plan: seq<seq<nat>>, levels: seq<Level>) {
    && |levels| > 0 && FollowsPlan(levels, leaves, plan)
    && (forall l :: 0 <= l < |levels| ==> levels[l].w == World(site, levels[0].w.factor, levels[l].w.tasks))
    && (forall l :: 0 <= l < |levels| ==> RunsThrough(levels[l]))
    && (forall l :: 0 < l < |levels| ==> Follows(levels[l - 1], levels[l]))
    && site.Valid() && Sound(site.D(), levels[0].m.s) && SinksOwned(site.D(), levels[0].m.s)
    && PinTypes(site.D()) && SinksDistinct(site.D()) && InBoxes(site, levels[0].m.s)
    && (forall c: nat :: c < |site.conns| ==> Unused(site.Uid(c), levels[0].m.info))
  }

  /** The level's memory fits, and its schedule brings every task through. */
  ghost predicate RunsThrough(x: Level) {
    && Shaped(x.w.D(), x.m.s) && x.m.s.factor == x.w.factor && |x.m.info| == |x.w.site.g| && Ready(x.w, x.m)
    && Names(x.schedule, |x.w.tasks|) && Through(x.w, EndOf(x))
  }

  ghost predicate InBoxes(site: Site, s: State) {
    Shaped(site.D(), s) && |site.boxes| == |site.conns| &&
    forall c, i :: 0 <= c < |site.conns| && 0 <= i < |s.paths[c]| ==> InBox(site.g, site.Term(c), s.paths[c][i])
  }

  /**
   Legal as far as the pass can make it: if no search failed, all paths are there, and
   without overuse nets are disjoint.
   */
  ghost predicate Succeeds(site: Site, s: State, r: State) {
    var d := site.D();
    && Sound(d, r) && SinksOwned(d, r) && |s.fails| == |r.fails| && (Joined(site, s) ==> Joined(site, r))
    && (r.fails == s.fails ==> AllPathsPresent(d, r) && (NoOveruse(d, r) ==> NodesDisjoint(d, r)))
  }

  lemma PlannedIsPass(site: Site, leaves: seq<PartitionTree.TreeNode>, plan: seq<seq<nat>>, levels: seq<Level>)
    requires PassOfPlan(site, leaves, plan, levels) && LevelSafety.Planned(TilesOf(site), site.boxes, leaves, plan)
    ensures Pass(levels) && levels[0].w.Valid() && levels[0].w.site == site
  {
    forall l | 0 <= l < |levels| ensures GoodLevel(levels[l]) {
      assert RunsThrough(levels[l]);
      PlannedIsIndependent(levels[l].w, leaves, plan, l);
    }
    assert GoodLevel(levels[0]);
  }

  lemma PlannedIsPrepared(site: Site, leaves: seq<PartitionTree.TreeNode>, plan: seq<seq<nat>>, levels: seq<Level>)
    requires PassOfPlan(site, leaves, plan, levels) && LevelSafety.Planned(TilesOf(site), site.boxes, leaves, plan)
    requires levels[0].w.Valid()
    ensures Prepared(levels[0].w, OrderOf(levels), levels[0].m) && Enumerates(OrderOf(levels), |site.conns|)
    ensures Shaped(levels[0].w.D(), levels[0].m.s) && PathsNear(levels[0].w, levels[0].m.s)
  {
    PlanVisitsOnce(levels, leaves, plan, TilesOf(site), site.boxes);
    assert levels[0].w.site == site;
    forall c: nat | c < |site.conns| ensures AllNear(levels[0].w, c, levels[0].m.s.paths[c]) { }
    var order := OrderOf(levels);
    forall j | 0 <= j < |order| ensures Unused(order[j] + site.connectionIdBase, levels[0].m.info) {
      assert Unused(site.Uid(order[j]), levels[0].m.info);
    }
  }

  /** Every pass by a plan succeeds, whatever the interleavings of its levels. */
  lemma PlannedPassSucceeds(site: Site, leaves: seq<PartitionTree.TreeNode>, plan: seq<seq<nat>>, levels: seq<Level>)
    requires PassOfPlan(site, leaves, plan, levels) && LevelSafety.Planned(TilesOf(site), site.boxes, leaves, plan)
    ensures Succeeds(site, levels[0].m.s, EndOf(levels[|levels| - 1]).s)
  {
    PlannedIsPass(site, leaves, plan, levels);
    PlannedIsPrepared(site, leaves, plan, levels);
    PassKeepsOwned(levels);
    if EndOf(levels[|levels| - 1]).s.fails == levels[0].m.s.fails { PassConverges(levels); }
    if Joined(site, levels[0].m.s) { PassJoins(levels); }
  }

  /**
   From the pins to the converged pass: for a netlist with its pins in the layout, the boxes,
   leaves and levels that the program computes make every pass by them succeed, whatever the
   interleavings.
   */
  method PlanPass(nets: seq<seq<nat>>, site: Site)
    returns (boxes: seq<Box>, leaves: seq<PartitionTree.TreeNode>, plan: seq<seq<nat>>,
             ghost centers: seq<BoundingBox.Tile>)
    requires ValidDesign(site.D())
    requires BoundingBox.ListsCover(nets, TilesOf(site)) && BoundingBox.OneSourcePerNet(TilesOf(site))
    requires forall c :: 0 <= c < |site.conns| ==>
               BoundingBox.InLayout(TilesOf(site)[c].source) && BoundingBox.InLayout(TilesOf(site)[c].sink)
    ensures LevelSafety.Planned(TilesOf(site), boxes, leaves, plan) && LevelSafety.TreePlan(boxes, leaves, plan)
    ensures BoundingBox.AreCenters(nets, TilesOf(site), centers)
    ensures BoundingBox.BoxesAreReach(TilesOf(site), boxes, centers)
    ensures forall levels: seq<Level> :: PassOfPlan(site.(boxes := boxes), leaves, plan, levels) ==>
              Succeeds(site.(boxes := boxes), levels[0].m.s, EndOf(levels[|levels| - 1]).s)
  {
    boxes, leaves, plan, centers := LevelSafety.PlanLevels(nets, TilesOf(site));
    ghost var boxed := site.(boxes := boxes);
    assert TilesOf(boxed) == TilesOf(site) && boxed.D() == site.D();
    forall levels: seq<Level> | PassOfPlan(boxed, leaves, plan, levels)
      ensures Succeeds(boxed, levels[0].m.s, EndOf(levels[|levels| - 1]).s)
    {
      PlannedPassSucceeds(boxed, leaves, plan, levels);
    }
  }
}
