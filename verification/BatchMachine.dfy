/**
 The routing threads of a batch as a machine (aStarRoute::routeWorker with everything it
 calls under sync, src/route/stableFirstRouting.cpp, lines 53-112): counts, occupancies and
 costs are frozen; a thread writes its own tables, the notes of its own nets and the paths of
 their connections. A step takes what a thread does on its own data together, up to the next
 step of a search.
 */
module BatchMachine {
  import opened Counting
  import opened Options
  import opened Interleaving
  import opened Search
  import opened SearchMachine
  import opened Ledger
  import opened Congestion
  import opened Convergence
  import opened SwiftSync
  import opened OccChange
  import opened PendingChange
  import opened BatchNotes
  import opened Site

  /** What no thread changes: the site, the connections of each net, each thread's nets, and the stamp of the batch. */
  datatype World = World(site: Site, netConns: seq<seq<nat>>, lists: seq<seq<nat>>, batch: int) {
    function D(): Design { site.D() }

    ghost predicate Valid() {
      && site.Valid() && NetLists(D(), netConns) && (forall n: nat :: n < site.nets ==> NoRepeat(netConns[n]))
      && NoRepeat(Flat(lists)) && (forall t, i :: 0 <= t < |lists| && 0 <= i < |lists[t]| ==> lists[t][i] < site.nets)
    }
  }

  /** Fetch the next net, visit connection j of the current one, search for it, or stay where the program stopped. */
  datatype Stage =
    | Fetch
    | Visit(before: seq<seq<nat>>, j: nat)
    | Searching(before: seq<seq<nat>>, j: nat, probe: Probe)
    | Halted(uncovered: bool)

  datatype Control = Control(k: nat, stage: Stage)

  datatype Memory = Memory(
    s: State, incs: seq<Users>, decs: seq<Users>, tables: seq<seq<NodeInfo>>, changes: seq<seq<Change>>,
    ctl: seq<Control>)

  ghost predicate Fit(w: World, m: Memory) {
    && w.Valid() && Shaped(w.D(), m.s) && |m.incs| == |m.decs| == w.site.nets
    && |m.tables| == |m.changes| == |m.ctl| == |w.lists|
    && forall t :: 0 <= t < |w.lists| ==> ThreadFits(w, m, t)
  }

  predicate ThreadFits(w: World, m: Memory, t: nat)
    requires |m.tables| == |m.changes| == |m.ctl| == |w.lists| && t < |w.lists|
  {
    |m.tables[t]| == |m.changes[t]| == |w.site.g| && m.ctl[t].k <= |w.lists[t]|
  }

  // What a step writes

  datatype Notes = Notes(net: nat, inc: Users, dec: Users)
  datatype Result = Result(c: nat, path: seq<nat>, routed: bool, fails: nat)
  datatype Effect = Effect(ctl: Control, table: seq<NodeInfo>, changes: seq<Change>, notes: Option<Notes>,
                           result: Option<Result>)

  function Stored(s: State, result: Option<Result>): State
    requires result.Some? ==> result.value.c < |s.paths| == |s.routed| == |s.fails|
  {
    match result
    case None => s
    case Some(r) =>
      s.(paths := s.paths[r.c := r.path], routed := s.routed[r.c := r.routed], fails := s.fails[r.c := r.fails])
  }

  function Write(m: Memory, t: nat, e: Effect): Memory
    requires t < |m.tables| == |m.changes| == |m.ctl|
    requires e.notes.Some? ==> e.notes.value.net < |m.incs| == |m.decs|
    requires e.result.Some? ==> e.result.value.c < |m.s.paths| == |m.s.routed| == |m.s.fails|
  {
    Memory(Stored(m.s, e.result),
           if e.notes.Some? then m.incs[e.notes.value.net := e.notes.value.inc] else m.incs,
           if e.notes.Some? then m.decs[e.notes.value.net := e.notes.value.dec] else m.decs,
           m.tables[t := e.table], m.changes[t := e.changes], m.ctl[t := e.ctl])
  }

  // Notes of counts and numbers

  /** The table with one more for every occurrence of a node. */
  function AddAll(u: Users, nodes: seq<nat>): Users {
    if |nodes| == 0 then u
    else
      var v, r := nodes[|nodes| - 1], AddAll(u, nodes[..|nodes| - 1]);
      r[v := Cnt(r, v) + 1]
  }

  lemma {:induction false} AddAllAdds(u: Users, nodes: seq<nat>, n: nat)
    requires SwiftSync.Positive(u, n) && InNodes(nodes, n)
    ensures Adds(u, nodes, AddAll(u, nodes)) && SwiftSync.Positive(AddAll(u, nodes), n)
  {
    if |nodes| > 0 { AddAllAdds(u, nodes[..|nodes| - 1], n); }
  }

  /** A node's number after the net's shift: a number that is not touched keeps its stamp. */
  function Moved(c: Change, batch: int, shift: int): Change {
    if shift == 0 then c else Change(Get(c, batch) + shift, batch)
  }

  function Shifted(changes: seq<Change>, batch: int, before: seq<seq<nat>>, after: seq<seq<nat>>): (r: seq<Change>)
    ensures ShiftNoted(changes, r, batch, before, after) && Dated(changes, r, batch)
  {
    seq(|changes|, v requires 0 <= v < |changes| => Moved(changes[v], batch, Shift(before, after, v)))
  }

  /** The number after k increments one by one. */
  function Raised(c: Change, batch: int, k: nat): Change {
    if k == 0 then c else OccChange.Inc(Raised(c, batch, k - 1), batch)
  }

  /** Moving a number at once is what the increments, or the one decrement, of the program do. */
  lemma {:induction false} MovedIsCounted(c: Change, batch: int, k: nat)
    ensures Raised(c, batch, k) == Moved(c, batch, k) && OccChange.Dec(c, batch) == Moved(c, batch, -1)
  {
    if k > 0 { MovedIsCounted(c, batch, k - 1); }
  }

  // Steps

  function QueryAt(w: World, m: Memory, t: nat, c: nat): (q: Query)
    requires Fit(w, m) && t < |w.lists| && c < |w.site.conns|
    ensures q.g == w.site.g && q.c == w.site.Term(c) && q.uid == w.site.Uid(c)
  {
    var n := w.site.conns[c].net;
    SyncQuery(w.site, m.s, c, m.incs[n], m.decs[n], m.changes[t], w.batch)
  }

  predicate Resting(w: World, m: Memory, t: nat)
    requires t < |w.lists| == |m.ctl|
  {
    m.ctl[t].stage.Halted? || m.ctl[t].k == |w.lists[t]|
  }

  function Keep(m: Memory, t: nat, ctl: Control): Effect
    requires t < |m.tables| == |m.changes|
  {
    Effect(ctl, m.tables[t], m.changes[t], None, None)
  }

  /** Clear the net's notes and remember its paths. */
  function FetchStep(w: World, m: Memory, t: nat, n: nat): Effect
    requires Fit(w, m) && t < |w.lists| && n < w.site.nets
  {
    Effect(Control(m.ctl[t].k, Visit(PathsOf(m.s.paths, w.netConns[n]), 0)), m.tables[t], m.changes[t],
           Some(Notes(n, map[], map[])), None)
  }

  /** Some node would be given up more often than the net counts it. */
  predicate Overdrawn(users: Users, dec: Users, held: seq<nat>) {
    exists i :: 0 <= i < |held| && Cnt(AddAll(dec, held), held[i]) > Cnt(users, held[i])
  }

  /** Look at a connection: pass it by, or note its release and begin its search. */
  function VisitStep(w: World, m: Memory, t: nat, n: nat, before: seq<seq<nat>>, j: nat): Effect
    requires Fit(w, m) && t < |w.lists| && n < w.site.nets && j < |w.netConns[n]|
  {
    var k, c := m.ctl[t].k, w.netConns[n][j];
    if !ShouldRoute(w.D(), m.s, c) then Keep(m, t, Control(k, Visit(before, j + 1)))
    else
      var held := Held(w.D(), m.s, c);
      if Overdrawn(m.s.users[n], m.decs[n], held) then Keep(m, t, Control(k, Halted(true)))
      else
        var first := Begin(QueryAt(w, m, t, c));
        Effect(Control(k, Searching(before, j, first.probe)), Written(m.tables[t], first.info), m.changes[t],
               Some(Notes(n, m.incs[n], AddAll(m.decs[n], held))), Some(Result(c, [], false, m.s.fails[c])))
  }

  /** All connections visited: note the changes of the net. */
  function NoteStep(w: World, m: Memory, t: nat, n: nat, before: seq<seq<nat>>): Effect
    requires Fit(w, m) && t < |w.lists| && n < w.site.nets
  {
    Effect(Control(m.ctl[t].k + 1, Fetch), m.tables[t],
           Shifted(m.changes[t], w.batch, before, PathsOf(m.s.paths, w.netConns[n])), None, None)
  }

  /** One step of the search; when it has ended, store and note its path, record its failure, or stop. */
  function SearchStep(w: World, m: Memory, t: nat, n: nat, before: seq<seq<nat>>, j: nat, probe: Probe): Effect
    requires Fit(w, m) && t < |w.lists| && n < w.site.nets && j < |w.netConns[n]|
  {
    var k, c := m.ctl[t].k, w.netConns[n][j];
    match probe.phase
    case Ended(Found, path) =>
      if InNodes(path, |w.site.g|) then
        Effect(Control(k, Visit(before, j + 1)), m.tables[t], m.changes[t],
               Some(Notes(n, AddAll(m.incs[n], path), m.decs[n])), Some(Result(c, path, true, m.s.fails[c])))
      else Keep(m, t, m.ctl[t])
    case Ended(NotFound, _) =>
      Effect(Control(k, Visit(before, j + 1)), m.tables[t], m.changes[t], None,
             Some(Result(c, [], false, m.s.fails[c] + 1)))
    case Ended(Stopped, _) => Keep(m, t, Control(k, Halted(false)))
    case _ =>
      var q := QueryAt(w, m, t, c);
      if InRange(q, m.tables[t], probe) then
        var move := Next(q, m.tables[t], probe);
        Effect(Control(k, Searching(before, j, move.probe)), Written(m.tables[t], move.info), m.changes[t], None, None)
      else Keep(m, t, m.ctl[t])
  }

  /** One step of thread t. */
  function StepEffect(w: World, m: Memory, t: nat): Effect
    requires Fit(w, m) && t < |w.lists| && !Resting(w, m, t)
  {
    assert ThreadFits(w, m, t);
    var n := w.lists[t][m.ctl[t].k];
    match m.ctl[t].stage
    case Fetch => FetchStep(w, m, t, n)
    case Visit(before, j) =>
      if j < |w.netConns[n]| then VisitStep(w, m, t, n, before, j) else NoteStep(w, m, t, n, before)
    case Searching(before, j, probe) =>
      if j < |w.netConns[n]| then SearchStep(w, m, t, n, before, j, probe) else Keep(m, t, m.ctl[t])
  }

  // Separate parts

  /** The effect touches only what belongs to thread t. */
  ghost predicate Own(w: World, t: nat, e: Effect)
    requires t < |w.lists|
  {
    && |e.table| == |e.changes| == |w.site.g| && e.ctl.k <= |w.lists[t]|
    && (e.notes.Some? ==> e.notes.value.net < w.site.nets && e.notes.value.net in w.lists[t])
    && (e.result.Some? ==>
          && e.result.value.c < |w.site.conns| && w.site.conns[e.result.value.c].net in w.lists[t]
          && InNodes(e.result.value.path, |w.site.g|))
  }

  lemma EffectIsOwn(w: World, m: Memory, t: nat)
    requires Fit(w, m) && t < |w.lists| && !Resting(w, m, t)
    ensures Own(w, t, StepEffect(w, m, t))
  {
    assert ThreadFits(w, m, t);
    var n := w.lists[t][m.ctl[t].k];
    assert NetList(w.D(), w.netConns[n], n);
  }

  lemma WriteFits(w: World, m: Memory, t: nat, e: Effect)
    requires Fit(w, m) && t < |w.lists| && Own(w, t, e)
    ensures Fit(w, Write(m, t, e))
  {
    var m' := Write(m, t, e);
    forall u | 0 <= u < |w.lists| ensures ThreadFits(w, m', u) { assert ThreadFits(w, m, u); }
  }

  /** Counts, occupancies, costs and factor are the same. */
  predicate Frozen(a: State, b: State) {
    a.users == b.users && a.occ == b.occ && a.present == b.present && a.factor == b.factor
  }

  ghost predicate SameNets(w: World, t: nat, a: Memory, b: Memory)
    requires Fit(w, a) && Fit(w, b) && t < |w.lists|
  {
    forall n: nat :: n < w.site.nets && n in w.lists[t] ==> a.incs[n] == b.incs[n] && a.decs[n] == b.decs[n]
  }

  ghost predicate SameConns(w: World, t: nat, a: Memory, b: Memory)
    requires Fit(w, a) && Fit(w, b) && t < |w.lists|
  {
    forall c: nat :: c < |w.site.conns| && w.site.conns[c].net in w.lists[t] ==>
      a.s.paths[c] == b.s.paths[c] && a.s.routed[c] == b.s.routed[c] && a.s.fails[c] == b.s.fails[c]
  }

  /** The parts of the memory that belong to thread t are the same, and so are the frozen ones. */
  ghost predicate Agree(w: World, t: nat, a: Memory, b: Memory)
    requires Fit(w, a) && Fit(w, b) && t < |w.lists|
  {
    && Frozen(a.s, b.s) && a.tables[t] == b.tables[t] && a.changes[t] == b.changes[t] && a.ctl[t] == b.ctl[t]
    && SameNets(w, t, a, b) && SameConns(w, t, a, b)
  }

  lemma FrozenQuery(w: World, a: Memory, b: Memory, t: nat, c: nat)
    requires Fit(w, a) && Fit(w, b) && t < |w.lists| && c < |w.site.conns| && Agree(w, t, a, b)
    requires w.site.conns[c].net in w.lists[t]
    ensures QueryAt(w, a, t, c) == QueryAt(w, b, t, c)
  {
    var n := w.site.conns[c].net;
    assert BooksOf(a.s, n) == BooksOf(b.s, n);
  }

  lemma SamePaths(w: World, a: Memory, b: Memory, t: nat, n: nat)
    requires Fit(w, a) && Fit(w, b) && t < |w.lists| && n < w.site.nets && n in w.lists[t] && SameConns(w, t, a, b)
    ensures PathsOf(a.s.paths, w.netConns[n]) == PathsOf(b.s.paths, w.netConns[n])
  {
    assert NetList(w.D(), w.netConns[n], n);
  }

  /** A step is decided by what belongs to its own thread and by what is frozen. */
  lemma StepLocal(w: World, a: Memory, b: Memory, t: nat)
    requires Fit(w, a) && Fit(w, b) && t < |w.lists| && Agree(w, t, a, b) && !Resting(w, a, t)
    ensures !Resting(w, b, t) && StepEffect(w, a, t) == StepEffect(w, b, t)
  {
    assert ThreadFits(w, a, t);
    var n := w.lists[t][a.ctl[t].k];
    assert n in w.lists[t] && NetList(w.D(), w.netConns[n], n);
    SamePaths(w, a, b, t, n);
    match a.ctl[t].stage
    case Fetch =>
    case Visit(before, j) =>
      if j < |w.netConns[n]| { FrozenQuery(w, a, b, t, w.netConns[n][j]); }
    case Searching(before, j, probe) =>
      if j < |w.netConns[n]| { FrozenQuery(w, a, b, t, w.netConns[n][j]); }
  }

  lemma WriteAgrees(w: World, a: Memory, b: Memory, t: nat, e: Effect)
    requires Fit(w, a) && Fit(w, b) && t < |w.lists| && Agree(w, t, a, b) && Own(w, t, e)
    requires Fit(w, Write(a, t, e)) && Fit(w, Write(b, t, e))
    ensures Agree(w, t, Write(a, t, e), Write(b, t, e))
  {
  }

  /** What thread t writes belongs to no other thread. */
  lemma OthersAgree(w: World, m: Memory, t: nat, u: nat, e: Effect)
    requires Fit(w, m) && t < |w.lists| && u < |w.lists| && t != u && Own(w, t, e) && Fit(w, Write(m, t, e))
    ensures Agree(w, u, m, Write(m, t, e))
  {
    FlatApart(w.lists, t, u);
    assert forall n :: n in w.lists[t] ==> n !in w.lists[u];
  }

  /** The memory after thread t has moved; a thread at rest stays where it is. */
  ghost function Step(w: World, m: Memory, t: nat): Memory {
    if Fit(w, m) && t < |w.lists| && !Resting(w, m, t) then
      EffectIsOwn(w, m, t);
      Write(m, t, StepEffect(w, m, t))
    else m
  }

  lemma StepFits(w: World, m: Memory, t: nat)
    requires Fit(w, m)
    ensures Fit(w, Step(w, m, t))
  {
    if t < |w.lists| && !Resting(w, m, t) {
      EffectIsOwn(w, m, t);
      WriteFits(w, m, t, StepEffect(w, m, t));
    }
  }

  lemma StepAgree(w: World, a: Memory, b: Memory, t: nat)
    requires Fit(w, a) && Fit(w, b) && t < |w.lists| && Agree(w, t, a, b)
    ensures Fit(w, Step(w, a, t)) && Fit(w, Step(w, b, t)) && Agree(w, t, Step(w, a, t), Step(w, b, t))
  {
    StepFits(w, a, t);
    StepFits(w, b, t);
    if !Resting(w, a, t) {
      StepLocal(w, a, b, t);
      EffectIsOwn(w, a, t);
      WriteAgrees(w, a, b, t, StepEffect(w, a, t));
    }
  }

  lemma OtherStep(w: World, a: Memory, b: Memory, t: nat, u: nat)
    requires Fit(w, a) && Fit(w, b) && t < |w.lists| && u < |w.lists| && t != u && Agree(w, t, a, b)
    ensures Fit(w, Step(w, a, u)) && Agree(w, t, Step(w, a, u), b)
  {
    StepFits(w, a, u);
    if !Resting(w, a, u) {
      EffectIsOwn(w, a, u);
      OthersAgree(w, a, u, t, StepEffect(w, a, u));
    }
  }

  ghost predicate SamePart(w: World, t: nat, a: Memory, b: Memory) {
    Fit(w, a) && Fit(w, b) && t < |w.lists| && Agree(w, t, a, b)
  }

  ghost function StepIn(w: World): (Memory, nat) -> Memory { (m: Memory, t: nat) => Step(w, m, t) }
  ghost function FitIn(w: World): Memory -> bool { (m: Memory) => Fit(w, m) }
  ghost function PartIn(w: World): (nat, Memory, Memory) -> bool {
    (t: nat, a: Memory, b: Memory) => SamePart(w, t, a, b)
  }

  /** The threads of a batch keep to separate parts of the memory. */
  lemma BatchIsSeparate(w: World)
    requires w.Valid()
    ensures Separate(StepIn(w), FitIn(w), PartIn(w), |w.lists|)
  {
    forall m: Memory, t: nat | Fit(w, m) && t < |w.lists|
      ensures Fit(w, Step(w, m, t)) && SamePart(w, t, m, m)
    {
      StepFits(w, m, t);
    }
    forall a, b, t: nat | Fit(w, a) && Fit(w, b) && t < |w.lists| && SamePart(w, t, a, b)
      ensures SamePart(w, t, Step(w, a, t), Step(w, b, t))
    {
      StepAgree(w, a, b, t);
    }
    forall a, b, t: nat, u: nat
      | Fit(w, a) && Fit(w, b) && t < |w.lists| && u < |w.lists| && t != u && SamePart(w, t, a, b)
      ensures SamePart(w, t, Step(w, a, u), b)
    {
      OtherStep(w, a, b, t, u);
    }
  }
}
