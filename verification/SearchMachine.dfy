/**
 The search of module Search as a machine that takes one small step at a time: one node taken
 from the queue, one child looked at, or one node of the solution stored. Concurrent routing
 interleaves these steps.
 */
module SearchMachine {
  import opened Options
  import opened RoutingGraph
  import opened Search

  /** Take the best queued node, look at its children, follow the links back, or stay at the end. */
  datatype Phase =
    | Popping
    | Scan(u: nat, rest: seq<nat>)
    | Tracing(at: nat, path: seq<nat>)
    | Ended(outcome: Outcome, path: seq<nat>)

  /** A search under way; pushed lists the nodes it has entered, turns those it has taken from the queue. */
  datatype Probe = Probe(queue: seq<nat>, pushed: seq<nat>, turns: seq<Turn>, phase: Phase)

  /** The probe after a step, and the scratch entries that the step writes. */
  datatype Move = Move(probe: Probe, info: map<nat, NodeInfo>)

  function Written(info: seq<NodeInfo>, entries: map<nat, NodeInfo>): (r: seq<NodeInfo>)
    ensures |r| == |info|
  {
    seq(|info|, v requires 0 <= v < |info| => if v in entries then entries[v] else info[v])
  }

  /** The nodes that the next step reads exist. */
  predicate InRange(q: Query, info: seq<NodeInfo>, p: Probe) {
    && |info| == |q.g| && q.c.sink < |q.g| && q.c.source < |q.g|
    && match p.phase
       case Popping => forall i :: 0 <= i < |p.queue| ==> p.queue[i] < |q.g|
       case Scan(u, rest) => u < |q.g| && forall i :: 0 <= i < |rest| ==> rest[i] < |q.g|
       case Tracing(at, path) => at < |q.g|
       case Ended(_, _) => true
  }

  /** The heap's top: the first queued node of least cost. */
  function Pick(info: seq<NodeInfo>, queue: seq<nat>): (k: nat)
    requires |queue| > 0 && forall i :: 0 <= i < |queue| ==> queue[i] < |info|
    ensures k < |queue| && forall i :: 0 <= i < |queue| ==> info[queue[k]].cost <= info[queue[i]].cost
  {
    var last := |queue| - 1;
    if last == 0 then 0
    else
      var k := Pick(info, queue[..last]);
      if info[queue[last]].cost < info[queue[k]].cost then last else k
  }

  function Begin(q: Query): Move {
    Move(Probe([q.c.source], [q.c.source], [], Popping),
         map[q.c.source := NodeInfo(None, 0.0, 0.0, q.uid, -1), q.c.sink := NodeInfo(None, 0.0, 0.0, -1, q.uid)])
  }

  function Without(queue: seq<nat>, k: nat): seq<nat>
    requires k < |queue|
  {
    queue[..k] + queue[k + 1..]
  }

  function Pop(q: Query, info: seq<NodeInfo>, p: Probe): Move
    requires InRange(q, info, p) && p.phase.Popping?
  {
    if p.queue == [] then Move(p.(phase := Ended(NotFound, [])), map[])
    else
      var k := Pick(info, p.queue);
      var u := p.queue[k];
      Move(Probe(Without(p.queue, k), p.pushed, p.turns + [Turn(u, |p.pushed|)], Scan(u, q.g[u].Children())), map[])
  }

  /** What the search does with child v of u, given the child's entry and the cost so far. */
  function Look(q: Query, p: Probe, u: nat, v: nat, rest: seq<nat>, entry: NodeInfo, sofar: real): Move
    requires v < |q.g| && q.c.sink < |q.g|
  {
    var targeted := entry.isTarget == q.uid;
    if entry.isVisited == q.uid then Move(p.(phase := Scan(u, rest)), map[])
    else if targeted && v == q.c.sink then Move(p.(phase := Tracing(v, [])), map[v := entry.(prev := Some(u))])
    else
      match JudgeIn(q, targeted, v)
      case Skip => Move(p.(phase := Scan(u, rest)), map[])
      case Stop => Move(p.(phase := Ended(Stopped, [])), map[])
      case Enter =>
        var partial := sofar + q.nodeCost(v, targeted);
        Move(Probe(p.queue + [v], p.pushed + [v], p.turns, Scan(u, rest)),
             map[v := NodeInfo(Some(u), partial + q.estimate(v), partial, q.uid, -1)])
  }

  /** One step; a search that has ended stays as it is. */
  function Next(q: Query, info: seq<NodeInfo>, p: Probe): Move
    requires InRange(q, info, p)
  {
    match p.phase
    case Popping => Pop(q, info, p)
    case Scan(u, rest) =>
      if rest == [] then Move(p.(phase := Popping), map[])
      else Look(q, p, u, rest[0], rest[1..], info[rest[0]], info[u].partialCost)
    case Tracing(at, path) =>
      (match info[at].prev
       case Some(u) => Move(p.(phase := Tracing(u, path + [at])), map[])
       case None => Move(p.(phase := Ended(Found, path + [at])), map[]))
    case Ended(_, _) => Move(p, map[])
  }

  // Keeping to the box

  /** Node v is accessible to the connection, as far as its box goes. */
  predicate Nearby(q: Query, v: nat) { v < |q.g| && InBox(q.g, q.c, v) }

  /** The entered nodes lie in the box, and their links stay among them. */
  ghost predicate Linked(q: Query, info: seq<NodeInfo>, pushed: seq<nat>) {
    forall i :: 0 <= i < |pushed| ==> LinkOk(q, info, pushed, pushed[i])
  }

  ghost predicate LinkOk(q: Query, info: seq<NodeInfo>, pushed: seq<nat>, v: nat) {
    Nearby(q, v) && v < |info| && (info[v].prev.Some? ==> info[v].prev.value in pushed)
  }

  /** The search keeps to the box. */
  ghost predicate Kept(q: Query, info: seq<NodeInfo>, p: Probe) {
    && WellFormed(q.g) && |info| == |q.g| && Nearby(q, q.c.source) && Nearby(q, q.c.sink) && q.c.source != q.c.sink
    && Linked(q, info, p.pushed)
    && (forall i :: 0 <= i < |p.queue| ==> p.queue[i] in p.pushed)
    && match p.phase
       case Popping => true
       case Scan(u, rest) => u in p.pushed && forall i :: 0 <= i < |rest| ==> rest[i] < |q.g|
       case Tracing(at, path) =>
         && (forall i :: 0 <= i < |path| ==> Nearby(q, path[i]))
         && (at in p.pushed || (at == q.c.sink && info[at].prev.Some? && info[at].prev.value in p.pushed))
       case Ended(_, path) => forall i :: 0 <= i < |path| ==> Nearby(q, path[i])
  }

  lemma KeptInRange(q: Query, info: seq<NodeInfo>, p: Probe)
    requires Kept(q, info, p)
    ensures InRange(q, info, p)
    ensures forall i :: 0 <= i < |p.queue| ==> Nearby(q, p.queue[i])
    ensures p.phase.Scan? ==> Nearby(q, p.phase.u)
    ensures p.phase.Tracing? ==> Nearby(q, p.phase.at)
  {
    forall v | v in p.pushed ensures Nearby(q, v) {
      var i :| 0 <= i < |p.pushed| && p.pushed[i] == v;
      assert LinkOk(q, info, p.pushed, p.pushed[i]);
    }
  }

  lemma LinkedMore(q: Query, info: seq<NodeInfo>, pushed: seq<nat>, v: nat, entry: NodeInfo)
    requires |info| == |q.g| && Linked(q, info, pushed) && Nearby(q, v)
    requires entry.prev.Some? && entry.prev.value in pushed
    ensures Linked(q, info[v := entry], pushed) && Linked(q, info[v := entry], pushed + [v])
  {
    forall i | 0 <= i < |pushed| ensures LinkOk(q, info[v := entry], pushed, pushed[i]) {
      assert LinkOk(q, info, pushed, pushed[i]);
    }
    forall i | 0 <= i < |pushed + [v]| ensures LinkOk(q, info[v := entry], pushed + [v], (pushed + [v])[i]) {
      if i < |pushed| { assert LinkOk(q, info, pushed, pushed[i]); }
    }
  }

  lemma WrittenOne(info: seq<NodeInfo>, v: nat, entry: NodeInfo)
    requires v < |info|
    ensures Written(info, map[v := entry]) == info[v := entry]
    ensures Written(info, map[]) == info
  {
  }

  lemma LookKept(q: Query, info: seq<NodeInfo>, p: Probe)
    requires Kept(q, info, p) && p.phase.Scan? && p.phase.rest != []
    ensures InRange(q, info, p)
    ensures var m := Next(q, info, p);
            (forall v :: v in m.info ==> Nearby(q, v)) && Kept(q, Written(info, m.info), m.probe)
  {
    KeptInRange(q, info, p);
    var u, v, m := p.phase.u, p.phase.rest[0], Next(q, info, p);
    WrittenOne(info, v, info[v]);
    if v in m.info {
      WrittenOne(info, v, m.info[v]);
      LinkedMore(q, info, p.pushed, v, m.info[v]);
    }
  }

  lemma TraceKept(q: Query, info: seq<NodeInfo>, p: Probe)
    requires Kept(q, info, p) && p.phase.Tracing?
    ensures InRange(q, info, p) && Next(q, info, p).info == map[] && Kept(q, info, Next(q, info, p).probe)
  {
    KeptInRange(q, info, p);
    var at := p.phase.at;
    if at in p.pushed {
      var i :| 0 <= i < |p.pushed| && p.pushed[i] == at;
      assert LinkOk(q, info, p.pushed, p.pushed[i]);
    }
  }

  lemma PopKept(q: Query, info: seq<NodeInfo>, p: Probe)
    requires Kept(q, info, p) && p.phase.Popping?
    ensures InRange(q, info, p) && Next(q, info, p).info == map[] && Kept(q, info, Next(q, info, p).probe)
  {
    KeptInRange(q, info, p);
    if p.queue != [] {
      var u := p.queue[Pick(info, p.queue)];
      forall k | 0 <= k < |q.g[u].Children()| ensures q.g[u].Children()[k] < |q.g| { }
    }
  }

  /** Every step keeps to the box, in what it writes and in where it goes. */
  lemma NextKept(q: Query, info: seq<NodeInfo>, p: Probe)
    requires Kept(q, info, p)
    ensures InRange(q, info, p)
    ensures var m := Next(q, info, p);
            (forall v :: v in m.info ==> Nearby(q, v)) && Kept(q, Written(info, m.info), m.probe)
  {
    KeptInRange(q, info, p);
    WrittenOne(info, q.c.source, info[q.c.source]);
    match p.phase
    case Popping => PopKept(q, info, p);
    case Scan(u, rest) => if rest != [] { LookKept(q, info, p); }
    case Tracing(_, _) => TraceKept(q, info, p);
    case Ended(_, _) =>
  }

  lemma BeginKept(q: Query, info: seq<NodeInfo>)
    requires WellFormed(q.g) && |info| == |q.g| && Nearby(q, q.c.source) && Nearby(q, q.c.sink)
    requires q.c.source != q.c.sink
    ensures Kept(q, Written(info, Begin(q).info), Begin(q).probe)
  {
    var p := Begin(q).probe;
    assert LinkOk(q, Written(info, Begin(q).info), p.pushed, p.pushed[0]);
  }

  // Locality

  /** The two searches agree about everything inside the box. */
  ghost predicate SameNearby(q: Query, q': Query, info: seq<NodeInfo>, info': seq<NodeInfo>) {
    && q'.g == q.g && q'.c == q.c && q'.uid == q.uid && q'.counts == q.counts && |info| == |info'|
    && forall v: nat :: Nearby(q, v) && v < |info| ==> SameAt(q, q', info, info', v)
  }

  ghost predicate SameAt(q: Query, q': Query, info: seq<NodeInfo>, info': seq<NodeInfo>, v: nat)
    requires v < |info| == |info'|
  {
    && info[v] == info'[v] && q.estimate(v) == q'.estimate(v)
    && (forall targeted :: q.nodeCost(v, targeted) == q'.nodeCost(v, targeted))
    && (forall targeted :: q.alarm(v, targeted) == q'.alarm(v, targeted))
  }

  lemma {:induction false} PickSame(q: Query, q': Query, info: seq<NodeInfo>, info': seq<NodeInfo>, queue: seq<nat>)
    requires SameNearby(q, q', info, info') && |info| == |q.g| && |queue| > 0
    requires forall i :: 0 <= i < |queue| ==> Nearby(q, queue[i])
    ensures Pick(info, queue) == Pick(info', queue)
  {
    forall i | 0 <= i < |queue|
      ensures info[queue[i]] == info'[queue[i]]
    {
      assert SameAt(q, q', info, info', queue[i]);
    }
    if |queue| > 1 { PickSame(q, q', info, info', queue[..|queue| - 1]); }
  }

  /** A child outside the box is passed over, whatever its scratch entry holds. */
  lemma FarChildSkipped(q: Query, p: Probe, u: nat, v: nat, rest: seq<nat>, entry: NodeInfo, sofar: real)
    requires v < |q.g| && q.c.sink < |q.g| && Nearby(q, q.c.sink) && !Nearby(q, v)
    ensures Look(q, p, u, v, rest, entry, sofar) == Move(p.(phase := Scan(u, rest)), map[])
  {
  }

  lemma LookSame(q: Query, q': Query, p: Probe, u: nat, v: nat, rest: seq<nat>, entry: NodeInfo, sofar: real)
    requires v < |q.g| && q.c.sink < |q.g| && q'.g == q.g && q'.c == q.c && q'.uid == q.uid && q'.counts == q.counts
    requires q.estimate(v) == q'.estimate(v)
    requires forall targeted :: q.nodeCost(v, targeted) == q'.nodeCost(v, targeted)
    requires forall targeted :: q.alarm(v, targeted) == q'.alarm(v, targeted)
    ensures Look(q, p, u, v, rest, entry, sofar) == Look(q', p, u, v, rest, entry, sofar)
  {
  }

  /** A step is decided by what lies inside the box. */
  lemma NextSame(q: Query, q': Query, info: seq<NodeInfo>, info': seq<NodeInfo>, p: Probe)
    requires SameNearby(q, q', info, info') && Kept(q, info, p)
    ensures InRange(q, info, p) && InRange(q', info', p) && Next(q, info, p) == Next(q', info', p)
  {
    KeptInRange(q, info, p);
    match p.phase
    case Popping => if p.queue != [] { PickSame(q, q', info, info', p.queue); }
    case Scan(u, rest) =>
      if rest != [] {
        var v := rest[0];
        if Nearby(q, v) {
          assert SameAt(q, q', info, info', v) && SameAt(q, q', info, info', u);
          LookSame(q, q', p, u, v, rest[1..], info[v], info[u].partialCost);
        } else {
          FarChildSkipped(q, p, u, v, rest[1..], info[v], info[u].partialCost);
          FarChildSkipped(q', p, u, v, rest[1..], info'[v], info'[u].partialCost);
        }
      }
    case Tracing(at, _) => assert SameAt(q, q', info, info', at);
    case Ended(_, _) =>
  }

  lemma KeptSame(q: Query, q': Query, info: seq<NodeInfo>, info': seq<NodeInfo>, p: Probe)
    requires SameNearby(q, q', info, info') && Kept(q, info, p)
    ensures Kept(q', info', p)
  {
    KeptInRange(q, info, p);
    forall i | 0 <= i < |p.pushed| ensures LinkOk(q', info', p.pushed, p.pushed[i]) {
      assert LinkOk(q, info, p.pushed, p.pushed[i]);
      assert SameAt(q, q', info, info', p.pushed[i]);
    }
    assert SameAt(q, q', info, info', q.c.sink);
  }
}
