/**
 The tasks of one level of the partition tree as a machine that takes one small step at a
 time (aStarRoute::routePartitionTreeLeafNode with everything it calls,
 src/route/aStarRoute.cpp). All tasks share one scratch table, the nodes, the nets and the
 connections; a step reads and writes a few entries.
 */
module LevelMachine {
  import opened Options
  import opened RoutingGraph
  import opened Search
  import opened SearchMachine
  import opened Ledger
  import opened Congestion
  import opened Convergence
  import opened Site

  /** What no task changes: the site, the present factor and the tasks' connection lists. */
  datatype World = World(site: Site, factor: real, tasks: seq<seq<nat>>) {
    function D(): Design { site.D() }

    /** Node v is accessible to connection c. */
    predicate Near(c: nat, v: nat)
      requires c < |site.conns| == |site.boxes|
    {
      v < |site.g| && InBox(site.g, site.Term(c), v)
    }

    ghost predicate Valid() {
      && site.Valid()
      && (forall c :: 0 <= c < |site.conns| ==> Near(c, site.conns[c].source) && Near(c, site.conns[c].sink))
      && (forall t, k :: 0 <= t < |tasks| && 0 <= k < |tasks[t]| ==> tasks[t][k] < |site.conns|)
    }
  }

  /** Where a task stands. */
  datatype Stage =
    | Idle
    | Releasing(nodes: seq<nat>, i: nat)
    | Searching(probe: Probe)
    | Claiming(path: seq<nat>, j: nat)
    | Halted

  datatype Control = Control(next: nat, stage: Stage)

  datatype Memory = Memory(info: seq<NodeInfo>, s: State, ctl: seq<Control>)

  ghost predicate Fit(w: World, m: Memory) {
    && w.Valid() && Shaped(w.D(), m.s) && m.s.factor == w.factor
    && |m.info| == |w.site.g| && |m.ctl| == |w.tasks|
    && forall t :: 0 <= t < |m.ctl| ==> m.ctl[t].next <= |w.tasks[t]|
  }

  /** The books of one net with one node. */
  datatype Claim = Claim(net: nat, users: Users, v: nat, occ: int, present: real)

  /** New path, flag and failure count of a connection. */
  datatype Result = Result(c: nat, path: seq<nat>, routed: bool, fails: nat)

  /** What a step writes. */
  datatype Effect = Effect(ctl: Control, info: map<nat, NodeInfo>, claim: Option<Claim>, result: Option<Result>)

  function Write(m: Memory, t: nat, e: Effect): Memory
    requires t < |m.ctl|
    requires forall v :: v in e.info ==> v < |m.info|
    requires e.claim.Some? ==> e.claim.value.net < |m.s.users| && e.claim.value.v < |m.s.occ| == |m.s.present|
    requires e.result.Some? ==> e.result.value.c < |m.s.paths| == |m.s.routed| == |m.s.fails|
  {
    Memory(
      Written(m.info, e.info),
      Stored(Claimed(m.s, e.claim), e.result),
      m.ctl[t := e.ctl])
  }

  function Claimed(s: State, claim: Option<Claim>): State
    requires claim.Some? ==> claim.value.net < |s.users| && claim.value.v < |s.occ| == |s.present|
  {
    match claim
    case None => s
    case Some(k) => s.(users := s.users[k.net := k.users], occ := s.occ[k.v := k.occ],
                       present := s.present[k.v := k.present])
  }

  function Stored(s: State, result: Option<Result>): State
    requires result.Some? ==> result.value.c < |s.paths| == |s.routed| == |s.fails|
  {
    match result
    case None => s
    case Some(r) =>
      s.(paths := s.paths[r.c := r.path], routed := s.routed[r.c := r.routed], fails := s.fails[r.c := r.fails])
  }

  // Steps

  function Quiet(ctl: Control): Effect { Effect(ctl, map[], None, None) }

  /** Between two connections: go on to the next one, and release what it holds if it needs routing. */
  function StartConnection(w: World, m: Memory, t: nat): Effect
    requires Fit(w, m) && t < |w.tasks| && m.ctl[t].next < |w.tasks[t]|
  {
    var p := m.ctl[t].next;
    var c := w.tasks[t][p];
    if ShouldRoute(w.D(), m.s, c) then Quiet(Control(p, Releasing(Held(w.D(), m.s, c), 0)))
    else Quiet(Control(p + 1, Idle))
  }

  /** Release one node, or begin the search when all are released. */
  function ReleaseStep(w: World, m: Memory, t: nat, c: nat): Effect
    requires Fit(w, m) && t < |w.tasks| && c < |w.site.conns| && m.ctl[t].stage.Releasing?
    requires InNodes(m.ctl[t].stage.nodes, |w.site.g|)
  {
    var p, nodes, i := m.ctl[t].next, m.ctl[t].stage.nodes, m.ctl[t].stage.i;
    var n := w.site.conns[c].net;
    if i < |nodes| then
      var v := nodes[i];
      var (users, erased) := DecUser(m.s.users[n], v);
      var o := if erased then m.s.occ[v] - 1 else m.s.occ[v];
      Effect(Control(p, Releasing(nodes, i + 1)), map[], Some(Claim(n, users, v, o, PresentCost(o, w.factor))), None)
    else
      var first := Begin(QueryAt(w, m, c));
      Effect(Control(p, Searching(first.probe)), first.info, None, Some(Result(c, [], false, m.s.fails[c])))
  }

  /** The search of connection c in the memory as it is. */
  function QueryAt(w: World, m: Memory, c: nat): (q: Query)
    requires Fit(w, m) && c < |w.site.conns|
    ensures q.g == w.site.g && q.c == w.site.Term(c) && q.uid == w.site.Uid(c)
  {
    PlainQuery(w.site, m.s, c)
  }

  /** One step of the search; when it has ended, store its path, note its failure, or stop. */
  function SearchStep(w: World, m: Memory, t: nat, c: nat): Effect
    requires Fit(w, m) && t < |w.tasks| && c < |w.site.conns| && m.ctl[t].stage.Searching?
    requires InRange(QueryAt(w, m, c), m.info, m.ctl[t].stage.probe)
  {
    var p, probe := m.ctl[t].next, m.ctl[t].stage.probe;
    match probe.phase
    case Ended(Found, path) => Effect(Control(p, Claiming(path, 0)), map[], None,
                                      Some(Result(c, path, true, m.s.fails[c])))
    case Ended(NotFound, _) => Effect(Control(p + 1, Idle), map[], None, Some(Result(c, [], false, m.s.fails[c] + 1)))
    case Ended(Stopped, _) => Quiet(Control(p, Halted))
    case _ =>
      var move := Next(QueryAt(w, m, c), m.info, probe);
      Effect(Control(p, Searching(move.probe)), move.info, None, None)
  }

  /** Count one node of the new path, or turn to the next connection when all are counted. */
  function ClaimStep(w: World, m: Memory, t: nat, c: nat): Effect
    requires Fit(w, m) && t < |w.tasks| && c < |w.site.conns| && m.ctl[t].stage.Claiming?
    requires InNodes(m.ctl[t].stage.path, |w.site.g|)
  {
    var p, path, j, n := m.ctl[t].next, m.ctl[t].stage.path, m.ctl[t].stage.j, w.site.conns[c].net;
    if j < |path| then
      var v := path[j];
      var (users, newlyAdd) := IncUser(m.s.users[n], v);
      var o := if newlyAdd then m.s.occ[v] + 1 else m.s.occ[v];
      Effect(Control(p, Claiming(path, j + 1)), map[], Some(Claim(n, users, v, o, PresentCost(o, w.factor))), None)
    else Quiet(Control(p + 1, Idle))
  }

  // Where a task may be

  ghost predicate AllNear(w: World, c: nat, nodes: seq<nat>)
    requires c < |w.site.conns| == |w.site.boxes|
  {
    forall i :: 0 <= i < |nodes| ==> w.Near(c, nodes[i])
  }

  ghost predicate StageOk(w: World, m: Memory, c: nat, stage: Stage)
    requires Fit(w, m) && c < |w.site.conns|
  {
    match stage
    case Idle => true
    case Halted => true
    case Releasing(nodes, i) => AllNear(w, c, nodes) && i <= |nodes|
    case Claiming(path, j) => AllNear(w, c, path) && j <= |path|
    case Searching(probe) => Kept(QueryAt(w, m, c), m.info, probe)
  }

  /** Task t stays among the nodes near its connections. */
  ghost predicate TaskOk(w: World, m: Memory, t: nat)
    requires Fit(w, m) && t < |w.tasks|
  {
    && (forall k :: 0 <= k < |w.tasks[t]| ==> AllNear(w, w.tasks[t][k], m.s.paths[w.tasks[t][k]]))
    && (m.ctl[t].next < |w.tasks[t]| ==> StageOk(w, m, w.tasks[t][m.ctl[t].next], m.ctl[t].stage))
  }

  lemma NearInNodes(w: World, c: nat, nodes: seq<nat>)
    requires c < |w.site.conns| == |w.site.boxes| && AllNear(w, c, nodes)
    ensures InNodes(nodes, |w.site.g|)
  {
  }

  /** Nothing more to do: all connections are through, or the program has stopped. */
  predicate Resting(w: World, m: Memory, t: nat)
    requires t < |w.tasks| == |m.ctl|
  {
    m.ctl[t].stage.Halted? || m.ctl[t].next == |w.tasks[t]|
  }

  /** A search that keeps to its box looks only at nodes that exist. */
  lemma SearchInRange(w: World, m: Memory, c: nat, stage: Stage)
    requires Fit(w, m) && c < |w.site.conns| && StageOk(w, m, c, stage) && stage.Searching?
    ensures InRange(QueryAt(w, m, c), m.info, stage.probe)
  {
    KeptInRange(QueryAt(w, m, c), m.info, stage.probe);
  }

  /** One step of task t. */
  ghost function StepEffect(w: World, m: Memory, t: nat): Effect
    requires Fit(w, m) && t < |w.tasks| && TaskOk(w, m, t) && !Resting(w, m, t)
  {
    var c := w.tasks[t][m.ctl[t].next];
    match m.ctl[t].stage
    case Idle => StartConnection(w, m, t)
    case Releasing(nodes, i) => ReleaseStep(w, m, t, c)
    case Claiming(path, j) => ClaimStep(w, m, t, c)
    case Searching(probe) => SearchInRange(w, m, c, m.ctl[t].stage); SearchStep(w, m, t, c)
  }
}
