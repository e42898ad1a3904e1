/**
 What a level does to paths and books: any interleaving of its tasks that comes to an end
 amounts to one sequential pass over the connections of its leaves, so that everything
 proved about sequential iterations holds for the partition-tree mode as well.
 */
module LevelOutcome {
  import opened Counting
  import opened Options
  import opened Interleaving
  import opened Search
  import opened SearchMachine
  import opened SearchSteps
  import opened Ledger
  import opened Congestion
  import opened Convergence
  import opened Site
  import opened IterationLog
  import opened LevelMachine
  import opened LevelFootprint
  import opened LevelSchedule
  import opened LevelConfluence

  /** The state before connection c is counted in: ripped up, with the new path stored. */
  function StoredPath(d: Design, s: State, c: nat, path: seq<nat>): (r: State)
    requires Shaped(d, s) && c < |d.conns| && InNodes(path, d.nodes)
    ensures Shaped(d, r)
  {
    RipUp(d, s, c).(paths := s.paths[c := path], routed := s.routed[c := true])
  }

  /** The search that a task poses when it has ripped up connection c in state s. */
  function Posed(w: World, s: State, c: nat): (q: Query)
    requires w.site.Valid() && Shaped(w.D(), s) && c < |w.site.conns|
    ensures q.g == w.site.g && q.c == w.site.Term(c) && q.uid == w.site.Uid(c)
  {
    PlainQuery(w.site, RipUp(w.D(), s, c), c)
  }

  /** Part of what connection c held has been released. */
  ghost predicate AtRelease(w: World, s: State, table: seq<NodeInfo>, now: State, info: seq<NodeInfo>, c: nat,
                            nodes: seq<nat>, i: nat)
    requires w.site.Valid() && Shaped(w.D(), s) && c < |w.site.conns|
  {
    var n := w.site.conns[c].net;
    && ShouldRoute(w.D(), s, c) && nodes == Held(w.D(), s, c) && i <= |nodes| && info == table
    && now == WithBooks(s, n, DecAll(BooksOf(s, n), nodes[..i], s.factor))
  }

  /** The search is under way. */
  ghost predicate AtSearch(w: World, s: State, table: seq<NodeInfo>, now: State, info: seq<NodeInfo>, c: nat,
                           probe: Probe)
    requires w.site.Valid() && Shaped(w.D(), s) && c < |w.site.conns|
  {
    ShouldRoute(w.D(), s, c) && now == RipUp(w.D(), s, c) && Good(Posed(w, s, c), table, info, probe)
  }

  /** The search has found a path, part of which has been counted. */
  ghost predicate AtClaim(w: World, s: State, table: seq<NodeInfo>, now: State, info: seq<NodeInfo>, c: nat,
                          path: seq<nat>, j: nat)
    requires w.site.Valid() && Shaped(w.D(), s) && c < |w.site.conns| && |table| == |w.site.g|
  {
    && ShouldRoute(w.D(), s, c) && InNodes(path, |w.site.g|) && j <= |path| && Restamped(w.site.Uid(c), table, info)
    && Answers(w.site, Posed(w, s, c), c, table, Found, path)
    && var n, r := w.site.conns[c].net, StoredPath(w.D(), s, c, path);
       now == WithBooks(r, n, IncAll(BooksOf(r, n), path[..j], s.factor))
  }

  /** How state and scratch entries relate to s and table, which a task met when it turned to connection c. */
  ghost predicate Midway(w: World, s: State, table: seq<NodeInfo>, now: State, info: seq<NodeInfo>, c: nat,
                         stage: Stage)
    requires w.site.Valid() && Shaped(w.D(), s) && c < |w.site.conns| && |table| == |w.site.g|
  {
    match stage
    case Idle => now == s && info == table
    case Halted => ShouldRoute(w.D(), s, c) && StopInReach(Posed(w, s, c), table)
    case Releasing(nodes, i) => AtRelease(w, s, table, now, info, c, nodes, i)
    case Searching(probe) => AtSearch(w, s, table, now, info, c, probe)
    case Claiming(path, j) => AtClaim(w, s, table, now, info, c, path, j)
  }

  /** Task t has visited the first connections of its list as the log says, and is at work on the next. */
  ghost predicate Doing(w: World, m0: Memory, m: Memory, t: nat, log: seq<Entry>)
    requires Fit(w, m0) && Fit(w, m) && t < |w.tasks|
  {
    var p, s, table := m.ctl[t].next, LastState(m0.s, log), LastTable(m0.info, log);
    && |log| == p && Sequel(w.site, w.tasks[t], m0.s, m0.info, log) && Shaped(w.D(), s) && |table| == |w.site.g|
    && if p < |w.tasks[t]| then Midway(w, s, table, m.s, m.info, w.tasks[t][p], m.ctl[t].stage)
       else m.ctl[t].stage.Idle? && m.s == s && m.info == table
  }

  /** What ReleaseStep writes for one node is one decrement in the books. */
  lemma ReleaseIsDec(w: World, s: State, m: Memory, t: nat, c: nat, b: Books)
    requires Fit(w, m) && c < |w.site.conns| && t < |w.tasks| && m.ctl[t].stage.Releasing?
    requires w.site.conns[c].net < |s.users|
    requires InNodes(m.ctl[t].stage.nodes, |w.site.g|) && m.ctl[t].stage.i < |m.ctl[t].stage.nodes|
    requires Sized(b, |w.site.g|) && m.s == WithBooks(s, w.site.conns[c].net, b)
    ensures var e, v := ReleaseStep(w, m, t, c), m.ctl[t].stage.nodes[m.ctl[t].stage.i];
            && e.claim.Some? && e.result.None? && e.claim.value.net < |m.s.users| && e.claim.value.v < |m.s.occ|
            && Claimed(m.s, e.claim) == WithBooks(s, w.site.conns[c].net, Dec(b, v, w.factor))
  {
  }

  lemma ClaimIsInc(w: World, s: State, m: Memory, t: nat, c: nat, b: Books)
    requires Fit(w, m) && c < |w.site.conns| && t < |w.tasks| && m.ctl[t].stage.Claiming?
    requires w.site.conns[c].net < |s.users|
    requires InNodes(m.ctl[t].stage.path, |w.site.g|) && m.ctl[t].stage.j < |m.ctl[t].stage.path|
    requires Sized(b, |w.site.g|) && m.s == WithBooks(s, w.site.conns[c].net, b)
    ensures var e, v := ClaimStep(w, m, t, c), m.ctl[t].stage.path[m.ctl[t].stage.j];
            && e.claim.Some? && e.result.None? && e.claim.value.net < |m.s.users| && e.claim.value.v < |m.s.occ|
            && Claimed(m.s, e.claim) == WithBooks(s, w.site.conns[c].net, Inc(b, v, w.factor))
  {
  }

  /** The log entry of a visit that ends with the given effect. */
  ghost predicate EntersLog(w: World, s: State, table: seq<NodeInfo>, m': Memory, c: nat, needed: bool,
                            answer: seq<nat>) {
    EntryOkAt(w.site)(c, s, table, Entry(c, s, m'.s, table, m'.info, needed, answer)) && Shaped(w.D(), m'.s)
  }

  /** After the effect: still at connection c, midway, or done with it and entered in the log. */
  ghost predicate Advances(w: World, s: State, table: seq<NodeInfo>, m: Memory, t: nat, c: nat, e: Effect,
                           needed: bool, answer: seq<nat>)
    requires Fit(w, m) && Shaped(w.D(), s) && |table| == |w.site.g| && c < |w.site.conns| && t < |w.tasks|
    requires Own(w, c, e)
  {
    var m' := Write(m, t, e);
    if e.ctl.next == m.ctl[t].next then Midway(w, s, table, m'.s, m'.info, c, e.ctl.stage)
    else e.ctl == Control(m.ctl[t].next + 1, Idle) && EntersLog(w, s, table, m', c, needed, answer)
  }

  lemma NothingWritten(info: seq<NodeInfo>)
    ensures Written(info, map[]) == info
  {
  }

  lemma ReleaseMoves(w: World, s: State, table: seq<NodeInfo>, m: Memory, t: nat, c: nat, nodes: seq<nat>, i: nat)
    requires Fit(w, m) && Shaped(w.D(), s) && c < |w.site.conns| && t < |w.tasks|
    requires m.ctl[t].stage == Releasing(nodes, i) && i < |nodes|
    requires AtRelease(w, s, table, m.s, m.info, c, nodes, i) && Own(w, c, ReleaseStep(w, m, t, c))
    ensures var m' := Write(m, t, ReleaseStep(w, m, t, c));
            && AtRelease(w, s, table, m'.s, m'.info, c, nodes, i + 1)
            && m'.ctl[t] == Control(m.ctl[t].next, Releasing(nodes, i + 1))
  {
    var n := w.site.conns[c].net;
    AllInPlace(BooksOf(s, n), nodes, i, s.factor);
    ReleaseIsDec(w, s, m, t, c, DecAll(BooksOf(s, n), nodes[..i], s.factor));
    NothingWritten(m.info);
  }

  lemma SearchOpens(w: World, s: State, table: seq<NodeInfo>, m: Memory, t: nat, c: nat, nodes: seq<nat>)
    requires Fit(w, m) && Shaped(w.D(), s) && |table| == |w.site.g| && c < |w.site.conns| && t < |w.tasks|
    requires m.ctl[t].stage == Releasing(nodes, |nodes|)
    requires AtRelease(w, s, table, m.s, m.info, c, nodes, |nodes|) && Own(w, c, ReleaseStep(w, m, t, c))
    ensures var m' := Write(m, t, ReleaseStep(w, m, t, c));
            && m'.ctl[t].next == m.ctl[t].next && m'.ctl[t].stage.Searching?
            && AtSearch(w, s, table, m'.s, m'.info, c, m'.ctl[t].stage.probe)
  {
    assert nodes[..|nodes|] == nodes;
    BeginGood(Posed(w, s, c), table);
  }

  lemma ClaimMoves(w: World, s: State, table: seq<NodeInfo>, m: Memory, t: nat, c: nat, path: seq<nat>, j: nat)
    requires Fit(w, m) && Shaped(w.D(), s) && |table| == |w.site.g| && c < |w.site.conns| && t < |w.tasks|
    requires m.ctl[t].stage == Claiming(path, j) && j < |path|
    requires AtClaim(w, s, table, m.s, m.info, c, path, j) && Own(w, c, ClaimStep(w, m, t, c))
    ensures var m' := Write(m, t, ClaimStep(w, m, t, c));
            && AtClaim(w, s, table, m'.s, m'.info, c, path, j + 1)
            && m'.ctl[t] == Control(m.ctl[t].next, Claiming(path, j + 1))
  {
    var n, r := w.site.conns[c].net, StoredPath(w.D(), s, c, path);
    AllInPlace(BooksOf(r, n), path, j, s.factor);
    ClaimIsInc(w, r, m, t, c, IncAll(BooksOf(r, n), path[..j], s.factor));
    NothingWritten(m.info);
  }

  lemma ClaimedAll(w: World, s: State, table: seq<NodeInfo>, now: State, info: seq<NodeInfo>, c: nat, path: seq<nat>)
    requires w.site.Valid() && Shaped(w.D(), s) && |table| == |w.site.g| && c < |w.site.conns|
    requires AtClaim(w, s, table, now, info, c, path, |path|)
    ensures Shaped(w.D(), now) && EntryOkAt(w.site)(c, s, table, Entry(c, s, now, table, info, true, path))
  {
    ClaimedIsReroute(w.D(), s, c, path, now);
    SearchedEntry(w.site, s, c, table, info, Found, path);
  }

  lemma ClaimedIsReroute(d: Design, s: State, c: nat, path: seq<nat>, now: State)
    requires Shaped(d, s) && c < |d.conns| && InNodes(path, d.nodes) && path != []
    requires var n, r := d.conns[c].net, StoredPath(d, s, c, path);
             now == WithBooks(r, n, IncAll(BooksOf(r, n), path[..|path|], s.factor))
    ensures now == Reroute(d, s, c, path) && Shaped(d, now)
  {
    assert path[..|path|] == path;
  }

  lemma ClaimEnds(w: World, s: State, table: seq<NodeInfo>, m: Memory, t: nat, c: nat, path: seq<nat>)
    requires Fit(w, m) && Shaped(w.D(), s) && |table| == |w.site.g| && c < |w.site.conns| && t < |w.tasks|
    requires m.ctl[t].stage == Claiming(path, |path|)
    requires AtClaim(w, s, table, m.s, m.info, c, path, |path|) && Own(w, c, ClaimStep(w, m, t, c))
    ensures var m' := Write(m, t, ClaimStep(w, m, t, c));
            m'.ctl[t] == Control(m.ctl[t].next + 1, Idle) && EntersLog(w, s, table, m', c, true, path)
  {
    var next := Control(m.ctl[t].next + 1, Idle);
    ClaimQuiet(w, m, t, c, path, next);
    ClaimedAll(w, s, table, m.s, m.info, c, path);
  }

  /** When all nodes are claimed, the step only moves on. */
  lemma ClaimQuiet(w: World, m: Memory, t: nat, c: nat, path: seq<nat>, next: Control)
    requires Fit(w, m) && t < |w.tasks| && c < |w.site.conns| && InNodes(path, |w.site.g|)
    requires m.ctl[t].stage == Claiming(path, |path|) && next == Control(m.ctl[t].next + 1, Idle)
    ensures ClaimStep(w, m, t, c) == Quiet(next) && Write(m, t, Quiet(next)) == m.(ctl := m.ctl[t := next])
  {
    QuietWrites(w, m, t, next);
  }

  lemma QuietWrites(w: World, m: Memory, t: nat, ctl: Control)
    requires Fit(w, m) && t < |w.tasks|
    ensures Write(m, t, Quiet(ctl)) == m.(ctl := m.ctl[t := ctl])
  {
    NothingWritten(m.info);
  }

  lemma StartRelease(d: Design, s: State, c: nat)
    requires Shaped(d, s) && c < |d.conns|
    ensures s == WithBooks(s, d.conns[c].net, DecAll(BooksOf(s, d.conns[c].net), Held(d, s, c)[..0], s.factor))
  {
    var n := d.conns[c].net;
    assert DecAll(BooksOf(s, n), Held(d, s, c)[..0], s.factor) == BooksOf(s, n);
    assert s.users[n := s.users[n]] == s.users;
  }

  lemma StartMoves(w: World, s: State, table: seq<NodeInfo>, m: Memory, t: nat)
    requires Fit(w, m) && Shaped(w.D(), s) && |table| == |w.site.g| && t < |w.tasks| && m.ctl[t].next < |w.tasks[t]|
    requires m.s == s && m.info == table && Own(w, w.tasks[t][m.ctl[t].next], StartConnection(w, m, t))
    ensures Advances(w, s, table, m, t, w.tasks[t][m.ctl[t].next], StartConnection(w, m, t), false, [])
  {
    var c := w.tasks[t][m.ctl[t].next];
    NothingWritten(m.info);
    if ShouldRoute(w.D(), s, c) { StartRelease(w.D(), s, c); } else { QuietEntry(w.site, s, c, table, []); }
  }

  lemma SearchMoves(w: World, s: State, table: seq<NodeInfo>, m: Memory, t: nat, c: nat, probe: Probe)
    requires Fit(w, m) && Shaped(w.D(), s) && c < |w.site.conns| && t < |w.tasks|
    requires m.ctl[t].stage == Searching(probe) && !probe.phase.Ended? && InRange(QueryAt(w, m, c), m.info, probe)
    requires AtSearch(w, s, table, m.s, m.info, c, probe) && Own(w, c, SearchStep(w, m, t, c))
    ensures var m' := Write(m, t, SearchStep(w, m, t, c));
            && m'.ctl[t].next == m.ctl[t].next && m'.ctl[t].stage.Searching?
            && AtSearch(w, s, table, m'.s, m'.info, c, m'.ctl[t].stage.probe)
  {
    assert QueryAt(w, m, c) == Posed(w, s, c);
    NextGood(Posed(w, s, c), table, m.info, probe);
  }

  lemma FoundClaim(w: World, s: State, table: seq<NodeInfo>, info: seq<NodeInfo>, c: nat, path: seq<nat>)
    requires w.site.Valid() && Shaped(w.D(), s) && |table| == |w.site.g| && c < |w.site.conns|
    requires ShouldRoute(w.D(), s, c)
    requires Restamped(w.site.Uid(c), table, info) && Concluded(Posed(w, s, c), table, Found, path)
    ensures var r := RipUp(w.D(), s, c);
            AtClaim(w, s, table, Stored(r, Some(Result(c, path, true, r.fails[c]))), info, c, path, 0)
  {
    ConcludedAnswers(w.site, Posed(w, s, c), c, table, Found, path);
    PathStored(w, s, c, path);
  }

  /** The state after the failure of a search for c has been recorded. */
  function Unserved(s: State, c: nat): State
    requires c < |s.paths| == |s.routed| == |s.fails|
  {
    Stored(s, Some(Result(c, [], false, s.fails[c] + 1)))
  }

  lemma FailedEntry(w: World, s: State, table: seq<NodeInfo>, now: State, info: seq<NodeInfo>, m': Memory, c: nat,
                    probe: Probe, path: seq<nat>)
    requires w.site.Valid() && Shaped(w.D(), s) && |table| == |w.site.g| && c < |w.site.conns|
    requires AtSearch(w, s, table, now, info, c, probe) && probe.phase == Ended(NotFound, path) && Shaped(w.D(), now)
    requires m'.info == info && m'.s == Unserved(now, c)
    ensures EntersLog(w, s, table, m', c, true, [])
  {
    FailedState(w.D(), s, c);
    ConcludedAnswers(w.site, Posed(w, s, c), c, table, NotFound, []);
    SearchedEntry(w.site, s, c, table, m'.info, NotFound, []);
  }

  lemma FailedState(d: Design, s: State, c: nat)
    requires Shaped(d, s) && c < |d.conns|
    ensures Unserved(RipUp(d, s, c), c) == Reroute(d, s, c, [])
  {
  }

  lemma SearchFinds(w: World, s: State, table: seq<NodeInfo>, m: Memory, t: nat, c: nat, probe: Probe, path: seq<nat>)
    requires Fit(w, m) && Shaped(w.D(), s) && |table| == |w.site.g| && c < |w.site.conns| && t < |w.tasks|
    requires m.ctl[t].stage == Searching(probe) && probe.phase == Ended(Found, path)
    requires InRange(QueryAt(w, m, c), m.info, probe)
    requires AtSearch(w, s, table, m.s, m.info, c, probe) && Own(w, c, SearchStep(w, m, t, c))
    ensures var m' := Write(m, t, SearchStep(w, m, t, c));
            m'.ctl[t] == Control(m.ctl[t].next, Claiming(path, 0)) && AtClaim(w, s, table, m'.s, m'.info, c, path, 0)
  {
    NothingWritten(m.info);
    FoundClaim(w, s, table, m.info, c, path);
  }

  lemma FailureWrites(w: World, m: Memory, t: nat, c: nat, probe: Probe, path: seq<nat>)
    requires Fit(w, m) && c < |w.site.conns| && t < |w.tasks|
    requires m.ctl[t].stage == Searching(probe) && probe.phase == Ended(NotFound, path)
    requires InRange(QueryAt(w, m, c), m.info, probe)
    requires Own(w, c, SearchStep(w, m, t, c))
    ensures var m' := Write(m, t, SearchStep(w, m, t, c));
            && m'.ctl[t] == Control(m.ctl[t].next + 1, Idle) && m'.info == m.info
            && m'.s == Unserved(m.s, c)
  {
    NothingWritten(m.info);
  }

  lemma SearchFails(w: World, s: State, table: seq<NodeInfo>, m: Memory, t: nat, c: nat, probe: Probe, path: seq<nat>)
    requires Fit(w, m) && Shaped(w.D(), s) && |table| == |w.site.g| && c < |w.site.conns| && t < |w.tasks|
    requires m.ctl[t].stage == Searching(probe) && probe.phase == Ended(NotFound, path)
    requires InRange(QueryAt(w, m, c), m.info, probe)
    requires AtSearch(w, s, table, m.s, m.info, c, probe) && Own(w, c, SearchStep(w, m, t, c))
    ensures var m' := Write(m, t, SearchStep(w, m, t, c));
            m'.ctl[t] == Control(m.ctl[t].next + 1, Idle) && EntersLog(w, s, table, m', c, true, [])
  {
    FailureWrites(w, m, t, c, probe, path);
    FailedEntry(w, s, table, m.s, m.info, Write(m, t, SearchStep(w, m, t, c)), c, probe, path);
  }

  lemma PathStored(w: World, s: State, c: nat, path: seq<nat>)
    requires w.site.Valid() && Shaped(w.D(), s) && c < |w.site.conns| && InNodes(path, |w.site.g|)
    ensures var n, r := w.site.conns[c].net, StoredPath(w.D(), s, c, path);
            r == WithBooks(r, n, IncAll(BooksOf(r, n), path[..0], s.factor))
  {
    var n, r := w.site.conns[c].net, StoredPath(w.D(), s, c, path);
    assert IncAll(BooksOf(r, n), path[..0], s.factor) == BooksOf(r, n);
    assert r.users[n := r.users[n]] == r.users;
  }

  lemma SearchAdvances(w: World, s: State, table: seq<NodeInfo>, m: Memory, t: nat, c: nat, probe: Probe)
    requires Fit(w, m) && Shaped(w.D(), s) && |table| == |w.site.g| && t < |w.tasks| && c < |w.site.conns|
    requires m.ctl[t].stage == Searching(probe) && InRange(QueryAt(w, m, c), m.info, probe)
    requires AtSearch(w, s, table, m.s, m.info, c, probe) && Own(w, c, SearchStep(w, m, t, c))
    ensures Advances(w, s, table, m, t, c, SearchStep(w, m, t, c), true, [])
  {
    match probe.phase
    case Ended(Found, path) => SearchFinds(w, s, table, m, t, c, probe, path);
    case Ended(NotFound, path) => SearchFails(w, s, table, m, t, c, probe, path);
    case Ended(Stopped, _) =>
    case _ => SearchMoves(w, s, table, m, t, c, probe);
  }

  lemma ConnectionAdvances(w: World, s: State, table: seq<NodeInfo>, m: Memory, t: nat, c: nat)
    returns (needed: bool, answer: seq<nat>)
    requires Fit(w, m) && Shaped(w.D(), s) && |table| == |w.site.g| && t < |w.tasks| && TaskOk(w, m, t)
    requires !Resting(w, m, t)
    requires c == w.tasks[t][m.ctl[t].next] && Midway(w, s, table, m.s, m.info, c, m.ctl[t].stage)
    requires Own(w, c, StepEffect(w, m, t))
    ensures Advances(w, s, table, m, t, c, StepEffect(w, m, t), needed, answer)
  {
    needed, answer := true, [];
    match m.ctl[t].stage
    case Idle =>
      StartMoves(w, s, table, m, t);
      needed := false;
    case Releasing(nodes, i) =>
      if i < |nodes| {
        ReleaseMoves(w, s, table, m, t, c, nodes, i); } else { SearchOpens(w, s, table, m, t, c, nodes);
      }
    case Claiming(path, j) =>
      answer := path;
      if j < |path| { ClaimMoves(w, s, table, m, t, c, path, j); } else { ClaimEnds(w, s, table, m, t, c, path); }
    case Searching(probe) =>
      SearchInRange(w, m, c, m.ctl[t].stage);
      SearchAdvances(w, s, table, m, t, c, probe);
  }

  /** Task t has come on: still at its connection, or with one more entry in its log. */
  lemma DoingOn(w: World, m0: Memory, m: Memory, t: nat, log: seq<Entry>, m': Memory, e: Effect, needed: bool,
                answer: seq<nat>)
    returns (log': seq<Entry>)
    requires Fit(w, m0) && Fit(w, m) && t < |w.tasks| && Doing(w, m0, m, t, log) && m.ctl[t].next < |w.tasks[t]|
    requires w.tasks[t][m.ctl[t].next] < |w.site.conns| && Own(w, w.tasks[t][m.ctl[t].next], e) && Fit(w, m')
    requires m' == Write(m, t, e)
    requires Advances(w, LastState(m0.s, log), LastTable(m0.info, log), m, t, w.tasks[t][m.ctl[t].next], e, needed,
                      answer)
    ensures Doing(w, m0, m', t, log')
  {
    log' := log;
    var p, list := m.ctl[t].next, w.tasks[t];
    if e.ctl.next != p {
      var entry := Entry(list[p], LastState(m0.s, log), m'.s, LastTable(m0.info, log), m'.info, needed, answer);
      SequelMore(w.site, list, m0.s, m0.info, log, entry);
      log' := log + [entry];
    }
  }

  lemma StepDoing(w: World, m0: Memory, m: Memory, t: nat, log: seq<Entry>) returns (log': seq<Entry>)
    requires Independent(w) && Fit(w, m0) && Fine(w, m) && t < |w.tasks| && Doing(w, m0, m, t, log)
    ensures Fine(w, Step(w, m, t)) && Doing(w, m0, Step(w, m, t), t, log')
  {
    log' := log;
    if !Resting(w, m, t) {
      StepIsFine(w, m, t);
      var needed, answer :=
        ConnectionAdvances(w, LastState(m0.s, log), LastTable(m0.info, log), m, t, w.tasks[t][m.ctl[t].next]);
      log' := DoingOn(w, m0, m, t, log, Step(w, m, t), StepEffect(w, m, t), needed, answer);
    }
  }

  /** Task t has done nothing but visits of its own connections since m. */
  ghost predicate AtWork(w: World, m: Memory, t: nat, x: Memory) {
    Fit(w, m) && t < |w.tasks| && Fine(w, x) && exists log :: Doing(w, m, x, t, log)
  }

  ghost function AtWorkIn(w: World, m: Memory, t: nat): Memory -> bool { (x: Memory) => AtWork(w, m, t, x) }

  lemma DoingStart(w: World, m: Memory, t: nat)
    requires Fit(w, m) && t < |w.tasks| && m.ctl[t] == Control(0, Idle)
    ensures Doing(w, m, m, t, [])
  {
  }

  lemma AloneDoing(w: World, m: Memory, t: nat, k: nat) returns (log: seq<Entry>)
    requires Independent(w) && Fine(w, m) && t < |w.tasks| && m.ctl[t] == Control(0, Idle)
    ensures Fine(w, Alone(StepIn(w), m, t, k)) && Doing(w, m, Alone(StepIn(w), m, t, k), t, log)
  {
    DoingStart(w, m, t);
    forall x | AtWork(w, m, t, x) ensures AtWork(w, m, t, Step(w, x, t)) {
      var l :| Doing(w, m, x, t, l);
      var l' := StepDoing(w, m, x, t, l);
    }
    AloneKeeps(StepIn(w), m, t, k, AtWorkIn(w, m, t));
    log :| Doing(w, m, Alone(StepIn(w), m, t, k), t, log);
  }

  /** Every task stands at the beginning of its list. */
  ghost predicate Ready(w: World, m: Memory) {
    |m.ctl| == |w.tasks| && forall t: nat :: t < |w.tasks| ==> m.ctl[t] == Control(0, Idle)
  }

  /** Every task has come through its list. */
  ghost predicate Through(w: World, m: Memory) {
    |m.ctl| == |w.tasks| && forall t: nat :: t < |w.tasks| ==> m.ctl[t].next == |w.tasks[t]| && !m.ctl[t].stage.Halted?
  }

  /** When it is its turn, a task is still at its beginning; after its turn it is where the schedule brings it. */
  lemma ControlInOrder(w: World, m: Memory, a: seq<nat>, n: nat, t: nat)
    requires Independent(w) && Fine(w, m) && Names(a, |w.tasks|) && t < |w.tasks| && n <= |w.tasks|
    ensures var r := Play(StepIn(w), m, InOrder(a, n));
            && Fine(w, r) && (t >= n ==> r.ctl[t] == m.ctl[t])
            && (t < n ==> Fine(w, Play(StepIn(w), m, a)) && r.ctl[t] == Play(StepIn(w), m, a).ctl[t])
  {
    LevelIsSeparate(w);
    InOrderCounts(a, n, t);
    PlayIsGood(StepIn(w), FineIn(w), |w.tasks|, m, InOrder(a, n));
    PlayIsGood(StepIn(w), FineIn(w), |w.tasks|, m, a);
    AsIfAlone(StepIn(w), FineIn(w), PartIn(w), |w.tasks|, m, InOrder(a, n), t);
    AsIfAlone(StepIn(w), FineIn(w), PartIn(w), |w.tasks|, m, a, t);
  }

  lemma TurnOutcome(w: World, m: Memory, t: nat, k: nat) returns (log: seq<Entry>)
    requires Independent(w) && Fine(w, m) && t < |w.tasks| && m.ctl[t] == Control(0, Idle)
    requires var c := Alone(StepIn(w), m, t, k).ctl; t < |c| && c[t].next == |w.tasks[t]| && !c[t].stage.Halted?
    ensures Logs(w, w.tasks[t], m, Alone(StepIn(w), m, t, k), log)
  {
    log := AloneDoing(w, m, t, k);
  }

  /** The complete log of visits in the given order leads from one memory to the other. */
  ghost predicate Logs(w: World, order: seq<nat>, m: Memory, m': Memory, log: seq<Entry>) {
    && |log| == |order| && Sequel(w.site, order, m.s, m.info, log)
    && m'.s == LastState(m.s, log) && m'.info == LastTable(m.info, log)
  }

  lemma LogsAppend(w: World, a: seq<nat>, b: seq<nat>, m: Memory, m1: Memory, m2: Memory, x: seq<Entry>, y: seq<Entry>)
    requires Logs(w, a, m, m1, x) && Logs(w, b, m1, m2, y)
    ensures Logs(w, a + b, m, m2, x + y)
  {
    ChainAppend(EntryOkAt(w.site), a, b, m.s, m.info, x, y);
  }

  /** Task by task, each has its turn. */
  lemma TurnInOrder(w: World, m: Memory, a: seq<nat>, t: nat, n: nat, before: Memory, after: Memory)
    returns (log: seq<Entry>)
    requires Independent(w) && Fine(w, m) && Ready(w, m) && Names(a, |w.tasks|) && t < |w.tasks| && n == t + 1
    requires Through(w, Play(StepIn(w), m, a))
    requires before == Play(StepIn(w), m, InOrder(a, t)) && after == Play(StepIn(w), m, InOrder(a, n))
    ensures Logs(w, w.tasks[t], before, after, log)
  {
    TurnIsAlone(StepIn(w), m, a, t, n);
    ControlInOrder(w, m, a, t, t);
    ControlInOrder(w, m, a, n, t);
    log := TurnOutcome(w, before, t, Count(a, t));
  }

  lemma {:induction false} InOrderOutcome(w: World, m: Memory, a: seq<nat>, n: nat) returns (log: seq<Entry>)
    requires Independent(w) && Fine(w, m) && Ready(w, m) && Names(a, |w.tasks|) && n <= |w.tasks|
    requires Through(w, Play(StepIn(w), m, a))
    ensures Logs(w, Flat(w.tasks[..n]), m, Play(StepIn(w), m, InOrder(a, n)), log)
  {
    log := [];
    if n > 0 {
      var t: nat := n - 1;
      var before, after := Play(StepIn(w), m, InOrder(a, t)), Play(StepIn(w), m, InOrder(a, n));
      log := InOrderOutcome(w, m, a, t);
      var more := TurnInOrder(w, m, a, t, n, before, after);
      TakeTake(w.tasks, n, t);
      LogsAppend(w, Flat(w.tasks[..t]), w.tasks[t], m, before, after, log, more);
      log := log + more;
    }
  }

  /**
   Every interleaving of a level's tasks that comes through amounts to sequential visits of
   the connections of its leaves, each with the answer of a search that began with the table
   the visit met. The log holds them.
   */
  lemma LevelIsIteration(w: World, m: Memory, a: seq<nat>) returns (log: seq<Entry>)
    requires Independent(w) && Fine(w, m) && Ready(w, m) && Names(a, |w.tasks|) && Through(w, Play(StepIn(w), m, a))
    ensures Logs(w, Flat(w.tasks), m, Play(StepIn(w), m, a), log)
  {
    SameAsInOrder(w, m, a);
    log := InOrderOutcome(w, m, a, |w.tasks|);
    assert w.tasks[..|w.tasks|] == w.tasks;
  }
}
