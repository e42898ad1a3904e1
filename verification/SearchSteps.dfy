/**
 The small steps of a search, taken without interference, keep the invariant of module Search,
 come to an end, and end as the search promises.
 */
module SearchSteps {
  import opened Counting
  import opened Options
  import opened RoutingGraph
  import opened Search
  import opened SearchMachine

  /** The children of u that have been looked at are settled, the others are listed. */
  ghost predicate HalfScanned(q: Query, table: seq<NodeInfo>, pushed: seq<nat>, u: nat, rest: seq<nat>)
    requires |table| == |q.g| && q.c.sink < |q.g| && u < |q.g|
  {
    var children := q.g[u].Children();
    && |rest| <= |children| && rest == children[|children| - |rest|..]
    && AllSettledIn(q, table, pushed, children[..|children| - |rest|])
  }

  /** The stored part of the solution, and where it goes on. */
  ghost predicate HalfTraced(q: Query, table: seq<NodeInfo>, info: seq<NodeInfo>, pushed: seq<nat>, at: nat,
                             path: seq<nat>)
    requires |table| == |info| == |q.g| && q.c.sink < |q.g|
  {
    && info[q.c.sink].prev.Some? && info[q.c.sink].prev.value in pushed
    && Edge(q.g, info[q.c.sink].prev.value, q.c.sink)
    && if path == [] then at == q.c.sink
       else at in pushed && Edge(q.g, at, path[|path| - 1]) && Traced(q, table, pushed, path, PlaceOf(pushed, at) + 1)
  }

  /** The nodes were taken best first; the last of them links to the sink, and the stored part follows the links. */
  ghost predicate TracedInOrder(q: Query, table: seq<NodeInfo>, info: seq<NodeInfo>, p: Probe)
    requires |table| == |info| == |q.g| && q.c.sink < |q.g| && p.phase.Tracing?
  {
    && Ordered(q, table, Unlinked(q, info), p.queue, p.pushed, p.turns)
    && p.turns != [] && info[q.c.sink].prev == Some(p.turns[|p.turns| - 1].node)
    && FollowsLinks(info, p.phase.path + [p.phase.at])
  }

  /** The state of a search that began with the given table. */
  ghost predicate Good(q: Query, table: seq<NodeInfo>, info: seq<NodeInfo>, p: Probe) {
    && ValidQuery(q) && |table| == |info| == |q.g| && Restamped(q.uid, table, info)
    && match p.phase
       case Popping => Poised(q, table, info, p.queue, p.pushed, p.turns)
       case Scan(u, rest) =>
         Scanning(q, table, info, p.queue, p.pushed, p.turns, u) && HalfScanned(q, table, p.pushed, u, rest)
       case Tracing(at, path) =>
         && Inv(q, table, Unlinked(q, info), p.queue, p.pushed) && HalfTraced(q, table, info, p.pushed, at, path)
         && TracedInOrder(q, table, info, p)
       case Ended(outcome, path) => Concluded(q, table, outcome, path)
  }

  lemma InvRestamps(q: Query, table: seq<NodeInfo>, info: seq<NodeInfo>, queue: seq<nat>, pushed: seq<nat>)
    requires ValidQuery(q) && |table| == |q.g| && Inv(q, table, info, queue, pushed)
    ensures Restamped(q.uid, table, info)
  {
    AllPriced(q, table, info, info, queue, pushed);
  }

  lemma BeginGood(q: Query, table: seq<NodeInfo>)
    requires ValidQuery(q) && |table| == |q.g|
    ensures Good(q, table, Written(table, Begin(q).info), Begin(q).probe)
  {
    var info, p := Written(table, Begin(q).info), Begin(q).probe;
    assert info == Opened(q, table);
    StartRests(q, table);
    InvRestamps(q, table, info, p.queue, p.pushed);
  }

  lemma PopGood(q: Query, table: seq<NodeInfo>, info: seq<NodeInfo>, p: Probe)
    requires Good(q, table, info, p) && p.phase.Popping?
    ensures InRange(q, info, p) && Next(q, info, p).info == map[] && Good(q, table, info, Next(q, info, p).probe)
  {
    PushedInRange(q, table, info, p.queue, p.pushed);
    if p.queue == [] {
      NothingLeft(q, table, info, p.pushed);
    } else {
      var k := Pick(info, p.queue);
      PopStep(q, table, info, p.queue, p.pushed, p.turns, k);
      Unscanned(q, table, p.pushed, p.queue[k]);
    }
  }

  lemma Unscanned(q: Query, table: seq<NodeInfo>, pushed: seq<nat>, u: nat)
    requires |table| == |q.g| && q.c.sink < |q.g| && u < |q.g|
    ensures HalfScanned(q, table, pushed, u, q.g[u].Children())
  {
    var children := q.g[u].Children();
    assert children[|children| - |children|..] == children;
  }

  lemma ScanInRange(q: Query, table: seq<NodeInfo>, info: seq<NodeInfo>, p: Probe)
    requires Good(q, table, info, p) && p.phase.Scan?
    ensures InRange(q, info, p)
    ensures forall i :: 0 <= i < |p.phase.rest| ==> Edge(q.g, p.phase.u, p.phase.rest[i])
  {
    PushedInRange(q, table, info, p.queue, p.pushed);
    var u, rest := p.phase.u, p.phase.rest;
    var children := q.g[u].Children();
    forall i | 0 <= i < |rest| ensures Edge(q.g, u, rest[i]) {
      assert rest[i] == children[|children| - |rest| + i];
    }
  }

  lemma ScannedAll(q: Query, table: seq<NodeInfo>, queue: seq<nat>, pushed: seq<nat>, u: nat)
    requires |table| == |q.g| && q.c.sink < |q.g| && u < |q.g|
    requires PoppedSettled(q, table, queue, pushed, {u}) && HalfScanned(q, table, pushed, u, [])
    ensures PoppedSettled(q, table, queue, pushed, {})
  {
    var children := q.g[u].Children();
    assert children[..|children|] == children;
    forall a, b: nat | a in pushed && a !in queue && Edge(q.g, a, b) ensures Settled(q, table, pushed, b) {
      if a == u {
        var k :| 0 <= k < |children| && children[k] == b;
        assert Settled(q, table, pushed, children[k]);
      }
    }
  }

  /** The children of u looked at before the rest. */
  function Front(q: Query, u: nat, rest: seq<nat>): seq<nat>
    requires u < |q.g| && |rest| <= |q.g[u].Children()|
  {
    q.g[u].Children()[..|q.g[u].Children()| - |rest|]
  }

  lemma ScanAdvances(q: Query, table: seq<NodeInfo>, pushed: seq<nat>, u: nat, rest: seq<nat>)
    requires |table| == |q.g| && q.c.sink < |q.g| && u < |q.g|
    requires 0 < |rest| <= |q.g[u].Children()| && rest == q.g[u].Children()[|q.g[u].Children()| - |rest|..]
    requires AllSettledIn(q, table, pushed, Front(q, u, rest) + [rest[0]])
    ensures HalfScanned(q, table, pushed, u, rest[1..])
  {
    var children := q.g[u].Children();
    assert children[..|children| - |rest[1..]|] == Front(q, u, rest) + [rest[0]];
  }

  lemma SkipGood(q: Query, table: seq<NodeInfo>, info: seq<NodeInfo>, p: Probe)
    requires Good(q, table, info, p) && p.phase.Scan? && p.phase.rest != []
    requires Settled(q, table, p.pushed, p.phase.rest[0])
    ensures Good(q, table, info, p.(phase := Scan(p.phase.u, p.phase.rest[1..])))
  {
    ScanAdvances(q, table, p.pushed, p.phase.u, p.phase.rest);
  }

  lemma EnterGood(q: Query, table: seq<NodeInfo>, info: seq<NodeInfo>, p: Probe, entry: NodeInfo)
    requires Good(q, table, info, p) && p.phase.Scan? && p.phase.rest != []
    requires p.phase.rest[0] !in p.pushed && Enterable(q, table, p.phase.rest[0])
    requires NewEntry(q, table, info, p.phase.u, p.phase.rest[0], entry)
    ensures var v := p.phase.rest[0];
            Good(q, table, info[v := entry],
                 Probe(p.queue + [v], p.pushed + [v], p.turns, Scan(p.phase.u, p.phase.rest[1..])))
  {
    ScanInRange(q, table, info, p);
    var u, v := p.phase.u, p.phase.rest[0];
    assert Edge(q.g, u, v);
    PushStep(q, table, info, p.queue, p.pushed, p.turns, u, v, entry, Front(q, u, p.phase.rest));
    ScanAdvances(q, table, p.pushed + [v], u, p.phase.rest);
    InvRestamps(q, table, info[v := entry], p.queue + [v], p.pushed + [v]);
  }

  lemma FindGood(q: Query, table: seq<NodeInfo>, info: seq<NodeInfo>, p: Probe)
    requires Good(q, table, info, p) && p.phase.Scan? && p.phase.rest != [] && p.phase.rest[0] == q.c.sink
    ensures var v := q.c.sink;
            Good(q, table, info[v := info[v].(prev := Some(p.phase.u))], p.(phase := Tracing(v, [])))
  {
    ScanInRange(q, table, info, p);
    VisitedIsPushedOrStale(q, table, info, p.queue, p.pushed, q.c.sink);
    assert Edge(q.g, p.phase.u, p.phase.rest[0]);
    assert Unlinked(q, info[q.c.sink := info[q.c.sink].(prev := Some(p.phase.u))]) == info;
  }

  lemma LookGood(q: Query, table: seq<NodeInfo>, info: seq<NodeInfo>, p: Probe)
    requires Good(q, table, info, p) && p.phase.Scan? && p.phase.rest != []
    ensures InRange(q, info, p)
    ensures var m := Next(q, info, p); Good(q, table, Written(info, m.info), m.probe)
  {
    ScanInRange(q, table, info, p);
    var u, v := p.phase.u, p.phase.rest[0];
    VisitedIsPushedOrStale(q, table, info, p.queue, p.pushed, v);
    var m, targeted := Next(q, info, p), info[v].isTarget == q.uid;
    WrittenOne(info, v, info[v]);
    if info[v].isVisited == q.uid {
      SkipGood(q, table, info, p);
    } else if targeted && v == q.c.sink {
      WrittenOne(info, v, m.info[v]);
      FindGood(q, table, info, p);
    } else {
      match JudgeIn(q, targeted, v)
      case Skip => SkipGood(q, table, info, p);
      case Stop => StopFound(q, table, info, p.queue, p.pushed, u, v);
      case Enter =>
        WrittenOne(info, v, m.info[v]);
        EnterGood(q, table, info, p, m.info[v]);
    }
  }

  /** The link of a pushed node leads to its parent, which was pushed earlier. */
  lemma LinkBack(q: Query, table: seq<NodeInfo>, info: seq<NodeInfo>, queue: seq<nat>, pushed: seq<nat>, at: nat,
                 u: nat)
    requires ValidQuery(q) && |table| == |info| == |q.g| && Inv(q, table, Unlinked(q, info), queue, pushed)
    requires at in pushed && at < |info| && info[at].prev == Some(u)
    ensures u in pushed && PlaceOf(pushed, u) < PlaceOf(pushed, at) < |pushed| && NoRepeat(pushed)
    ensures pushed[PlaceOf(pushed, at)] == at && Enterable(q, table, at) && Edge(q.g, u, at)
  {
    var clean := Unlinked(q, info);
    VisitedIsPushedOrStale(q, table, clean, queue, pushed, q.c.sink);
    var i := PlaceOf(pushed, at);
    assert PushedWell(q, table, clean, pushed, i);
    assert clean[at] == info[at];
    EarlierPlace(pushed, i, u);
  }

  /** One more node of the solution is stored. */
  lemma TraceOn(q: Query, table: seq<NodeInfo>, info: seq<NodeInfo>, p: Probe, u: nat)
    requires Good(q, table, info, p) && p.phase.Tracing? && p.phase.path != []
    requires p.phase.at < |info| && info[p.phase.at].prev == Some(u)
    ensures p.phase.at in p.pushed && u in p.pushed && PlaceOf(p.pushed, u) < PlaceOf(p.pushed, p.phase.at)
    ensures Good(q, table, info, p.(phase := Tracing(u, p.phase.path + [p.phase.at])))
  {
    var at, path := p.phase.at, p.phase.path;
    LinkBack(q, table, info, p.queue, p.pushed, at, u);
    Search.TraceStep(q, table, p.pushed, path, PlaceOf(p.pushed, at) + 1, PlaceOf(p.pushed, u) + 1);
    LinksOn(info, path, at, u);
  }

  /** The source is the last node of the solution. */
  lemma TraceEnds(q: Query, table: seq<NodeInfo>, info: seq<NodeInfo>, p: Probe)
    requires Good(q, table, info, p) && p.phase.Tracing? && p.phase.path != []
    requires p.phase.at < |info| && info[p.phase.at].prev == None
    ensures Good(q, table, info, p.(phase := Ended(Found, p.phase.path + [p.phase.at])))
  {
    var at, path, clean := p.phase.at, p.phase.path, Unlinked(q, info);
    VisitedIsPushedOrStale(q, table, clean, p.queue, p.pushed, q.c.sink);
    var i := PlaceOf(p.pushed, at);
    assert PushedWell(q, table, clean, p.pushed, i);
    assert clean[at] == info[at];
    EndTrace(q, table, p.pushed, path, i + 1);
    FoundConcludes(q, table, info, p.queue, p.pushed, p.turns, path + [at]);
  }

  /** The sink is stored first. */
  lemma TraceStarts(q: Query, table: seq<NodeInfo>, info: seq<NodeInfo>, p: Probe, u: nat)
    requires Good(q, table, info, p) && p.phase.Tracing? && p.phase.path == []
    requires info[q.c.sink].prev == Some(u)
    ensures p.phase.at == q.c.sink && q.c.sink !in p.pushed && u in p.pushed
    ensures Good(q, table, info, p.(phase := Tracing(u, [q.c.sink])))
  {
    VisitedIsPushedOrStale(q, table, Unlinked(q, info), p.queue, p.pushed, q.c.sink);
    FirstTraced(q, table, p.pushed, u);
    assert FollowsLinks(info, [q.c.sink] + [u]);
  }

  lemma TraceInRange(q: Query, table: seq<NodeInfo>, info: seq<NodeInfo>, p: Probe)
    requires Good(q, table, info, p) && p.phase.Tracing?
    ensures InRange(q, info, p) && p.phase.path + [] == p.phase.path
  {
    PushedInRange(q, table, Unlinked(q, info), p.queue, p.pushed);
  }

  lemma TraceGood(q: Query, table: seq<NodeInfo>, info: seq<NodeInfo>, p: Probe)
    requires Good(q, table, info, p) && p.phase.Tracing?
    ensures InRange(q, info, p) && Next(q, info, p).info == map[] && Good(q, table, info, Next(q, info, p).probe)
    ensures Less(RankOf(|q.g|, Next(q, info, p).probe), RankOf(|q.g|, p))
  {
    TraceInRange(q, table, info, p);
    var at, path := p.phase.at, p.phase.path;
    match info[at].prev
    case Some(u) =>
      if path == [] {
        TraceStarts(q, table, info, p, u);
        assert [] + [at] == [q.c.sink];
      } else {
        TraceOn(q, table, info, p, u);
      }
    case None => TraceEnds(q, table, info, p);
  }

  lemma EarlierPlace(s: seq<nat>, i: nat, v: nat)
    requires i <= |s| && NoRepeat(s) && v in s[..i]
    ensures v in s && PlaceOf(s, v) < i
  {
    var j :| 0 <= j < i && s[..i][j] == v;
    assert s[j] == v;
  }

  lemma FirstTraced(q: Query, table: seq<NodeInfo>, pushed: seq<nat>, u: nat)
    requires |table| == |q.g| && q.c.sink < |q.g| && q.c.sink !in pushed && u in pushed
    ensures Traced(q, table, pushed, [q.c.sink], PlaceOf(pushed, u) + 1)
  {
  }

  /** Every step keeps the invariant. */
  lemma NextGood(q: Query, table: seq<NodeInfo>, info: seq<NodeInfo>, p: Probe)
    requires Good(q, table, info, p)
    ensures InRange(q, info, p)
    ensures var m := Next(q, info, p); Good(q, table, Written(info, m.info), m.probe)
  {
    WrittenOne(info, q.c.source, info[q.c.source]);
    match p.phase
    case Popping => PopGood(q, table, info, p);
    case Scan(u, rest) =>
      ScanInRange(q, table, info, p);
      if rest != [] { LookGood(q, table, info, p); } else { ScannedAll(q, table, p.queue, p.pushed, u); }
    case Tracing(_, _) => TraceGood(q, table, info, p);
    case Ended(_, _) =>
  }

  /** At every point of a search, each node it has taken was one of least cost among those then queued. */
  lemma GoodTakesBest(q: Query, table: seq<NodeInfo>, info: seq<NodeInfo>, p: Probe)
    requires Good(q, table, info, p) && !p.phase.Ended?
    ensures AllBest(info, p.pushed, p.turns)
  {
    var clean := if p.phase.Tracing? then Unlinked(q, info) else info;
    OrderedIsBest(q, table, clean, info, p.queue, p.pushed, p.turns);
  }

  // Termination

  /** How far a search is from its end: phase, work in the queue, work in the phase. */
  datatype Rank = Rank(phase: nat, queue: nat, rest: nat)

  predicate Less(a: Rank, b: Rank) {
    a.phase < b.phase || (a.phase == b.phase && (a.queue < b.queue || (a.queue == b.queue && a.rest < b.rest)))
  }

  ghost function RankOf(nodes: nat, p: Probe): Rank {
    match p.phase
    case Popping => Rank(2, Room(nodes, p) + |p.queue|, 0)
    case Scan(_, rest) => Rank(2, Room(nodes, p) + |p.queue|, 1 + |rest|)
    case Tracing(at, _) => Rank(1, if at in p.pushed then PlaceOf(p.pushed, at) else |p.pushed|, 0)
    case Ended(_, _) => Rank(0, 0, 0)
  }

  /** Nodes that can still be pushed. */
  function Room(nodes: nat, p: Probe): nat { if |p.pushed| <= nodes then nodes - |p.pushed| else 0 }

  /** Every step of a search that has not ended brings the end nearer. */
  lemma NextProgresses(q: Query, table: seq<NodeInfo>, info: seq<NodeInfo>, p: Probe)
    requires Good(q, table, info, p) && !p.phase.Ended?
    ensures InRange(q, info, p) && Less(RankOf(|q.g|, Next(q, info, p).probe), RankOf(|q.g|, p))
  {
    match p.phase
    case Popping => PopGood(q, table, info, p);
    case Scan(u, rest) =>
      ScanInRange(q, table, info, p);
      if rest != [] { LookProgresses(q, table, info, p); }
    case Tracing(_, _) => TraceGood(q, table, info, p);
  }

  lemma LookProgresses(q: Query, table: seq<NodeInfo>, info: seq<NodeInfo>, p: Probe)
    requires Good(q, table, info, p) && p.phase.Scan? && p.phase.rest != [] && InRange(q, info, p)
    ensures Less(RankOf(|q.g|, Next(q, info, p).probe), RankOf(|q.g|, p))
  {
    MoveFits(q, table, info, p);
  }

  /** A push is only possible as long as there is room. */
  lemma MoveFits(q: Query, table: seq<NodeInfo>, info: seq<NodeInfo>, p: Probe)
    requires Good(q, table, info, p) && p.phase.Scan? && p.phase.rest != [] && InRange(q, info, p)
    ensures var m := Next(q, info, p); m.probe.phase.Scan? ==> |m.probe.pushed| <= |q.g|
  {
    LookGood(q, table, info, p);
    var m := Next(q, info, p);
    if m.probe.phase.Scan? { PushedFits(q, table, Written(info, m.info), m.probe.queue, m.probe.pushed); }
  }
}
