/**
 Stability-first parallel routing (src/route/stableFirstRouting.cpp, lines 17-137): every
 batch routes its nets against frozen counts, occupancies and costs, commits what the nets
 noted, and refreshes the stamped nodes. A batch comes to the same as rerouting its
 connections one after another.
 */
module StableFirst {
  import opened Counting
  import opened Interleaving
  import opened RoutingGraph
  import opened Search
  import opened Ledger
  import opened Congestion
  import opened Convergence
  import opened Site
  import opened Answered
  import opened Alarms
  import opened SwiftSync
  import opened SyncBatch
  import opened CommitPhase
  import opened OccChange
  import opened PendingChange
  import opened BatchOutcome
  import opened BatchCover
  import opened BatchNotes
  import opened BatchPrice
  import opened BatchAnswers
  import opened BatchVisits
  import opened BatchIteration
  import opened IterationLog
  import opened Stamps

  ghost function UsersOf(nets: seq<Net>): (r: seq<Users>)
    reads nets`users
    ensures |r| == |nets| && forall i :: 0 <= i < |nets| ==> r[i] == nets[i].users
  {
    if |nets| == 0 then [] else UsersOf(nets[..|nets| - 1]) + [nets[|nets| - 1].users]
  }

  predicate AllEmpty(paths: seq<seq<nat>>) { forall c :: 0 <= c < |paths| ==> paths[c] == [] }

  /** The nodes on the paths are these. */
  ghost predicate UsesOf(paths: seq<seq<nat>>, used: set<nat>, nodes: nat) {
    && (forall v: nat :: v in used <==> Total(paths, v) > 0)
    && (forall v: nat :: Total(paths, v) > 0 ==> v < nodes)
  }

  /** Going on, stopped by the assertion in preDecrementUser, or stopped inside a search. */
  datatype Halt = Going | Uncovered | Stopped

  class StableRouter {
    const g: Graph
    const conns: seq<Conn>
    const boxes: seq<Geometry.Box>
    const shapes: seq<NetShape>
    const netConns: seq<seq<nat>>
    const nets: seq<Net>
    const nodes: Nodes

    var present: seq<real>
    var historical: seq<real>
    var factor: real
    var paths: seq<seq<nat>>
    var routed: seq<bool>
    ghost var fails: seq<nat>

    /** Nothing is routed; every cost and the factor have their initial value. */
    constructor (g: Graph, conns: seq<Conn>, boxes: seq<Geometry.Box>, shapes: seq<NetShape>, netConns: seq<seq<nat>>,
                 nets: seq<Net>, nodes: Nodes)
      requires WellFormed(g) && |boxes| == |conns| && |shapes| == |netConns| == |nets|
      requires |nodes.occ| == |g| && ValidDesign(Design(conns, |nets|, |g|, Pinfeeds(g)))
      requires Numbered(nets)
      requires forall c :: 0 <= c < |conns| ==>
        && conns[c].source != conns[c].sink
        && shapes[conns[c].net].connections > 0 && shapes[conns[c].net].doubleHpwl > 0.0
      requires NetLists(Design(conns, |nets|, |g|, Pinfeeds(g)), netConns)
      requires forall n :: 0 <= n < |nets| ==> NoRepeat(netConns[n])
      ensures Made() && Shaped(D(), View()) && this.g == g && this.conns == conns && this.nets == nets
      ensures this.nodes == nodes
      ensures AllEmpty(paths) && (forall c :: 0 <= c < |routed| ==> !routed[c] && fails[c] == 0)
      ensures factor == 0.5 && (forall v :: 0 <= v < |g| ==> present[v] == historical[v] == 1.0)
    {
      this.g, this.conns, this.boxes, this.shapes, this.netConns := g, conns, boxes, shapes, netConns;
      this.nets, this.nodes := nets, nodes;
      present, historical, factor := seq(|g|, _ => 1.0), seq(|g|, _ => 1.0), 0.5;
      paths, routed, fails := seq(|conns|, _ => []), seq(|conns|, _ => false), seq(|conns|, _ => 0);
    }

    function D(): Design { Design(conns, |nets|, |g|, Pinfeeds(g)) }

    function NetOf(c: nat): Net
      requires c < |conns| && conns[c].net < |nets|
    {
      nets[conns[c].net]
    }

    function NetAt(n: nat): Net
      requires n < |nets|
    {
      nets[n]
    }

    ghost function View(): State
      reads this, nets`users, nodes`occ
    {
      State(UsersOf(nets), nodes.occ, present, factor, paths, routed, fails)
    }

    /** The fixed part of the router is in order. */
    ghost predicate WellMade() {
      && WellFormed(g) && ValidDesign(D()) && |boxes| == |conns| && |shapes| == |netConns| == |nets|
      && Numbered(nets)
      && (forall c :: 0 <= c < |conns| ==>
            && conns[c].source != conns[c].sink
            && shapes[conns[c].net].connections > 0 && shapes[conns[c].net].doubleHpwl > 0.0)
      && NetLists(D(), netConns) && (forall n :: 0 <= n < |nets| ==> NoRepeat(netConns[n]))
    }

    ghost predicate Made()
      reads this`historical
    {
      WellMade() && |historical| == |g|
    }

    function SiteAt(base: nat): (site: Site)
      reads this`historical
      ensures site.D() == D() && site.connectionIdBase == base && (Made() ==> site.Valid())
    {
      Site(g, conns, boxes, |nets|, shapes, historical, base)
    }

    /**
     The search of connection c, with the counts its net has noted in the batch that began in
     state s. It charges for nodes by the counts that rerouting the tries one after another
     would have left. With an unused stamp the counts of the last barrier decide its answer.
     */
    method SearchSync(c: nat, base: nat, info: array<NodeInfo>, changes: array<Change>, batch: int, ghost s: State,
                      ghost tries: seq<Event>, ghost dec0: Users)
      returns (outcome: Outcome, path: seq<nat>, ghost q: Query)
      requires Made() && c < |conns| && info.Length == changes.Length == |g| && Shaped(D(), s)
      requires BooksOf(s, conns[c].net) == Books(NetOf(c).users, nodes.occ, present) && s.factor == factor
      requires SwiftSync.Positive(NetOf(c).inc, |g|) && SwiftSync.Covered(NetOf(c).users, NetOf(c).dec)
      requires Tries(D(), tries) && !InTries(tries, c) && NetNotes(D(), s, tries, conns[c].net, NetOf(c).inc, dec0)
      requires Adds(dec0, Held(D(), s, c), NetOf(c).dec)
      modifies info
      ensures Reckons(SiteAt(base), s, tries, c, changes[..], batch, q)
      ensures Answers(SiteAt(base), q, c, old(info[..]), outcome, path)
      ensures InNodes(path, |g|) && Restamped(c + base, old(info[..]), info[..]) && JoinsOrFails(SiteAt(base), c, path)
      ensures !outcome.Stopped? && old(Unused(c + base, info[..])) ==> TryAnswered(SiteAt(base), s, c, path)
      ensures outcome.Stopped? ==>
        StopSeen(SiteAt(base), s, c, changes[..], batch, NetOf(c).inc, NetOf(c).dec, old(info[..]))
    {
      var net := NetOf(c);
      var query := SyncBooksQuery(SiteAt(base), c, Books(net.users, nodes.occ, present), factor, net.inc, net.dec,
                                  changes[..], batch);
      q := query;
      ghost var table, pushed, turns := info[..], [], [];
      SyncReckons(SiteAt(base), s, tries, c, net.inc, dec0, net.dec, changes[..], batch);
      outcome, path, pushed, turns := RouteOneConnection(query, info);
      ConcludedAnswers(SiteAt(base), q, c, table, outcome, path);
      AnswerJoins(SiteAt(base), q, c, table, outcome, path);
      if !outcome.Stopped? && Unused(c + base, table) { AnswersTry(SiteAt(base), s, c, q, table, outcome, path); }
    }

    /**
     Reroute one connection inside a batch: ripup and routeOneConnection with sync set. No
     count, occupancy or cost changes; the net notes the difference. The answer is one to a
     query that charges by the counts of rerouting one after another. With an unused stamp the
     search fails exactly if the counts of the last barrier leave the sink unconnected.
     */
    method RouteSync(c: nat, base: nat, info: array<NodeInfo>, changes: array<Change>, batch: int,
                     ghost s: State, ghost tries: seq<Event>)
      returns (halt: Halt, ghost answer: seq<nat>, ghost q: Query)
      requires Made() && c < |conns| && info.Length == changes.Length == |g|
      requires Shaped(D(), s) && Tries(D(), tries) && !InTries(tries, c) && View() == Noted(D(), s, tries)
      requires NetNotes(D(), s, tries, conns[c].net, NetOf(c).inc, NetOf(c).dec) && ShouldRoute(D(), s, c)
      modifies this`paths, this`routed, this`fails, NetOf(c)`inc, NetOf(c)`dec, info
      ensures halt.Going? ==> SyncAnswer(SiteAt(base), s, tries, c, changes[..], batch, old(info[..]), q, answer)
      ensures InNodes(answer, |g|) && Tries(D(), tries + [Try(c, answer)])
      ensures halt.Going? ==> View() == Noted(D(), s, tries + [Try(c, answer)])
      ensures halt.Going? ==>
        NetNotes(D(), s, tries + [Try(c, answer)], conns[c].net, NetOf(c).inc, NetOf(c).dec)
      ensures halt.Uncovered? ==> Short(D(), s, conns[c].net)
      ensures halt.Going? ==> JoinsOrFails(SiteAt(base), c, answer)
      ensures halt.Going? && old(Unused(c + base, info[..])) ==> TryAnswered(SiteAt(base), s, c, answer)
      ensures halt.Going? ==> Restamped(c + base, old(info[..]), info[..])
      ensures halt.Stopped? ==>
        StopSeen(SiteAt(base), s, c, changes[..], batch, NetOf(c).inc, NetOf(c).dec, old(info[..]))
    {
      var net := NetOf(c);
      ghost var inc0, dec0 := net.inc, net.dec;
      OneMoreTry(D(), s, tries, c, []);
      answer, q := [], PlainQuery(SiteAt(base), s, c);
      var ok := NoteRipup(c, s, tries);
      if !ok {
        halt := Uncovered;
        return;
      }
      halt, answer, q := SearchAndStore(c, base, info, changes, batch, s, tries, inc0, dec0);
    }

    /** The search and its answer, once the rip-up has been noted. */
    method SearchAndStore(c: nat, base: nat, info: array<NodeInfo>, changes: array<Change>, batch: int,
                          ghost s: State, ghost tries: seq<Event>, ghost inc0: Users, ghost dec0: Users)
      returns (halt: Halt, ghost answer: seq<nat>, ghost q: Query)
      requires Made() && c < |conns| && info.Length == changes.Length == |g|
      requires Shaped(D(), s) && Tries(D(), tries) && !InTries(tries, c) && View() == Noted(D(), s, tries)
      requires NetNotes(D(), s, tries, conns[c].net, inc0, dec0) && NetOf(c).inc == inc0 && ShouldRoute(D(), s, c)
      requires SwiftSync.Positive(NetOf(c).dec, |g|) && SwiftSync.Covered(s.users[conns[c].net], NetOf(c).dec)
      requires Adds(dec0, Held(D(), s, c), NetOf(c).dec)
      modifies this`paths, this`routed, this`fails, NetOf(c)`inc, info
      ensures !halt.Uncovered? && InNodes(answer, |g|) && Tries(D(), tries + [Try(c, answer)])
      ensures halt.Going? ==> SyncAnswer(SiteAt(base), s, tries, c, changes[..], batch, old(info[..]), q, answer)
      ensures halt.Going? ==> View() == Noted(D(), s, tries + [Try(c, answer)])
      ensures halt.Going? ==>
        NetNotes(D(), s, tries + [Try(c, answer)], conns[c].net, NetOf(c).inc, NetOf(c).dec)
      ensures halt.Going? ==> JoinsOrFails(SiteAt(base), c, answer)
      ensures halt.Going? && old(Unused(c + base, info[..])) ==> TryAnswered(SiteAt(base), s, c, answer)
      ensures halt.Going? ==> Restamped(c + base, old(info[..]), info[..])
      ensures halt.Stopped? ==>
        StopSeen(SiteAt(base), s, c, changes[..], batch, NetOf(c).inc, NetOf(c).dec, old(info[..]))
    {
      OneMoreTry(D(), s, tries, c, []);
      var outcome, path;
      outcome, path, q := SearchSync(c, base, info, changes, batch, s, tries, dec0);
      if outcome.Stopped? {
        halt, answer := Halt.Stopped, [];
      } else {
        halt, answer := Going, path;
        ghost var site, table, numbers := SiteAt(base), info[..], changes[..];
        StorePath(c, path, s, tries, inc0, dec0);
        assert SiteAt(base) == site && info[..] == table && changes[..] == numbers;
      }
    }

    /** Note the new path and store the answer. */
    method StorePath(c: nat, path: seq<nat>, ghost s: State, ghost tries: seq<Event>, ghost inc0: Users,
                     ghost dec0: Users)
      requires Made() && c < |conns| && InNodes(path, |g|)
      requires Shaped(D(), s) && Tries(D(), tries) && !InTries(tries, c) && View() == Noted(D(), s, tries)
      requires NetNotes(D(), s, tries, conns[c].net, inc0, dec0) && NetOf(c).inc == inc0 && ShouldRoute(D(), s, c)
      requires SwiftSync.Positive(NetOf(c).dec, |g|) && SwiftSync.Covered(s.users[conns[c].net], NetOf(c).dec)
      requires Adds(dec0, Held(D(), s, c), NetOf(c).dec)
      modifies this`paths, this`routed, this`fails, NetOf(c)`inc
      ensures Tries(D(), tries + [Try(c, path)]) && View() == Noted(D(), s, tries + [Try(c, path)])
      ensures NetNotes(D(), s, tries + [Try(c, path)], conns[c].net, NetOf(c).inc, NetOf(c).dec)
    {
      var net := NetOf(c);
      OneMoreTry(D(), s, tries, c, path);
      net.PreIncrementAll(path, |g|);
      NotesStep(D(), s, tries, c, path, inc0, dec0, net.inc, net.dec);
      StoreAnswer(c, path);
    }

    /** The sync branch of ripup: the net notes the release of everything the connection held. */
    method NoteRipup(c: nat, ghost s: State, ghost tries: seq<Event>) returns (ok: bool)
      requires Made() && c < |conns|
      requires Shaped(D(), s) && Tries(D(), tries) && !InTries(tries, c) && View() == Noted(D(), s, tries)
      requires NetNotes(D(), s, tries, conns[c].net, NetOf(c).inc, NetOf(c).dec) && ShouldRoute(D(), s, c)
      modifies NetOf(c)`dec
      ensures ok ==> Positive(NetOf(c).dec, |g|) && SwiftSync.Covered(NetOf(c).users, NetOf(c).dec)
      ensures ok ==> Adds(old(NetOf(c).dec), Held(D(), s, c), NetOf(c).dec)
      ensures !ok ==> Short(D(), s, conns[c].net)
    {
      var net := NetOf(c);
      ghost var inc0, dec0 := net.inc, net.dec;
      NotedPath(D(), s, tries, c);
      var held := paths[c];
      if |held| == 0 { held := [conns[c].sink]; }
      ok := net.PreDecrementAll(held, |g|);
      if !ok {
        ghost var v :| v in held && Cnt(dec0, v) + Count(held, v) > Cnt(net.users, v);
        NoteTooMuch(D(), s, tries, c, inc0, dec0, v);
      }
    }

    method StoreAnswer(c: nat, path: seq<nat>)
      requires Shaped(D(), View()) && c < |conns| && InNodes(path, |g|)
      modifies this`paths, this`routed, this`fails
      ensures View() == NoteOne(D(), old(View()), c, path)
    {
      paths, routed := paths[c := path], routed[c := path != []];
      if path == [] { fails := fails[c := fails[c] + 1]; }
    }

    /** The visit of a connection that needs routing. */
    method RouteVisit(c: nat, base: nat, info: array<NodeInfo>, changes: array<Change>, batch: int,
                      ghost s: State, ghost tries: seq<Event>)
      returns (halt: Halt, ghost more: seq<Event>)
      requires Made() && c < |conns| && info.Length == changes.Length == |g|
      requires Shaped(D(), s) && Tries(D(), tries) && !InTries(tries, c) && View() == Noted(D(), s, tries)
      requires NetNotes(D(), s, tries, conns[c].net, NetOf(c).inc, NetOf(c).dec) && ShouldRoute(D(), s, c)
      modifies this`paths, this`routed, this`fails, NetOf(c)`inc, NetOf(c)`dec, info
      ensures Tries(D(), more)
      ensures halt.Going? ==> SyncVisit(SiteAt(base), s, c, old(info[..]), info[..], tries, more)
      ensures halt.Going? ==> View() == Noted(D(), s, more)
      ensures halt.Going? ==> NetNotes(D(), s, more, conns[c].net, NetOf(c).inc, NetOf(c).dec)
      ensures halt.Uncovered? ==> Short(D(), s, conns[c].net)
      ensures halt.Stopped? ==>
        StopSeen(SiteAt(base), s, c, changes[..], batch, NetOf(c).inc, NetOf(c).dec, old(info[..]))
    {
      ghost var table, answer, q := info[..], [], PlainQuery(SiteAt(base), s, c);
      halt, answer, q := RouteSync(c, base, info, changes, batch, s, tries);
      more := tries + [Try(c, answer)];
      if halt.Going? { TriedVisit(SiteAt(base), s, c, table, info[..], tries, answer); }
    }

    /** Reroute the connection if, as things stood when the batch began, it needs routing. */
    method VisitSync(c: nat, base: nat, info: array<NodeInfo>, changes: array<Change>, batch: int,
                     ghost s: State, ghost tries: seq<Event>)
      returns (halt: Halt, ghost more: seq<Event>)
      requires Made() && c < |conns| && info.Length == changes.Length == |g|
      requires Shaped(D(), s) && Tries(D(), tries) && !InTries(tries, c) && View() == Noted(D(), s, tries)
      requires NetNotes(D(), s, tries, conns[c].net, NetOf(c).inc, NetOf(c).dec)
      modifies this`paths, this`routed, this`fails, NetOf(c)`inc, NetOf(c)`dec, info
      ensures Tries(D(), more)
      ensures halt.Going? ==> SyncVisit(SiteAt(base), s, c, old(info[..]), info[..], tries, more)
      ensures halt.Going? ==> View() == Noted(D(), s, more)
      ensures halt.Going? ==> NetNotes(D(), s, more, conns[c].net, NetOf(c).inc, NetOf(c).dec)
      ensures halt.Uncovered? ==> Short(D(), s, conns[c].net)
      ensures halt.Stopped? ==>
        StopSeen(SiteAt(base), s, c, changes[..], batch, NetOf(c).inc, NetOf(c).dec, old(info[..]))
    {
      NotedPath(D(), s, tries, c);
      halt, more := Going, tries;
      ghost var table := info[..];
      var needed := NeedsRouting(routed[c], paths[c], nodes.occ);
      assert needed == ShouldRoute(D(), s, c);
      if needed {
        halt, more := RouteVisit(c, base, info, changes, batch, s, tries);
      } else {
        SkippedVisit(SiteAt(base), s, c, table, tries);
      }
    }

    /** Visit the connections of net n in turn. */
    method VisitAll(n: nat, list: seq<nat>, base: nat, info: array<NodeInfo>, changes: array<Change>, batch: int,
                    ghost s: State, ghost tries0: seq<Event>)
      returns (halt: Halt, ghost tries: seq<Event>)
      requires Made() && n < |nets| && info.Length == changes.Length == |g|
      requires NoRepeat(list) && NetList(D(), list, n)
      requires Shaped(D(), s) && Tries(D(), tries0) && NoneOf(D(), tries0, n) && View() == Noted(D(), s, tries0)
      requires NetNotes(D(), s, tries0, n, NetAt(n).inc, NetAt(n).dec)
      modifies this`paths, this`routed, this`fails, NetAt(n)`inc, NetAt(n)`dec, info
      ensures Tries(D(), tries)
      ensures halt.Going? ==> View() == Noted(D(), s, tries) && NetNotes(D(), s, tries, n, NetAt(n).inc, NetAt(n).dec)
      ensures halt.Going? ==> ListVisit(SiteAt(base), s, n, list, |list|, old(info[..]), info[..], tries0, tries)
      ensures halt.Uncovered? ==> Short(D(), s, n)
      ensures halt.Stopped? ==> StopSeenBy(SiteAt(base), s, n, changes[..], batch, old(Spare(list, 0, base, info[..])))
    {
      halt, tries := Going, tries0;
      ghost var table0 := info[..];
      ListStart(SiteAt(base), s, n, list, table0, tries0);
      for k := 0 to |list|
        invariant halt.Going? && Tries(D(), tries)
        invariant View() == Noted(D(), s, tries) && NetNotes(D(), s, tries, n, NetAt(n).inc, NetAt(n).dec)
        invariant ListVisit(SiteAt(base), s, n, list, k, table0, info[..], tries0, tries)
      {
        ghost var before, table := tries, info[..];
        halt, tries := VisitSync(list[k], base, info, changes, batch, s, tries);
        if halt.Stopped? {
          StopInList(SiteAt(base), s, n, list, k, table0, table, tries0, before, changes[..], batch, NetAt(n).inc,
                     NetAt(n).dec);
        }
        if !halt.Going? { return; }
        ListStep(SiteAt(base), s, n, list, k, table0, table, tries0, before, info[..], tries);
      }
    }

    /** Forget the notes of the last batch and visit the net's connections. */
    method VisitNet(n: nat, base: nat, info: array<NodeInfo>, changes: array<Change>, batch: int,
                    ghost s: State, ghost tries0: seq<Event>)
      returns (halt: Halt, ghost tries: seq<Event>)
      requires Made() && n < |nets| && info.Length == changes.Length == |g|
      requires Shaped(D(), s) && Tries(D(), tries0) && NoneOf(D(), tries0, n) && View() == Noted(D(), s, tries0)
      requires SwiftSync.Positive(s.users[n], |g|)
      modifies this`paths, this`routed, this`fails, NetAt(n)`inc, NetAt(n)`dec, info
      ensures Tries(D(), tries)
      ensures halt.Going? ==>
        NetRouted(SiteAt(base), s, n, View(), NetAt(n).inc, NetAt(n).dec, old(info[..]), info[..], tries0, tries)
      ensures halt.Uncovered? ==> Short(D(), s, n)
      ensures halt.Stopped? ==>
        StopSeenBy(SiteAt(base), s, n, changes[..], batch, old(SpareNets(D(), {n}, base, info[..])))
    {
      ghost var table := info[..];
      NetAt(n).inc, NetAt(n).dec := map[], map[];
      NothingNoted(D(), s, tries0, n);
      assert NetList(D(), netConns[n], n);
      halt, tries := VisitAll(n, netConns[n], base, info, changes, batch, s, tries0);
      if halt.Going? { ListDone(SiteAt(base), s, n, netConns[n], table, info[..], tries0, tries); }
      if SpareNets(D(), {n}, base, table) { SpareList(D(), n, netConns[n], base, table); }
    }

    /** Route the connections of one net: the body of the loop in routeWorker. */
    method RouteNet(n: nat, base: nat, info: array<NodeInfo>, changes: array<Change>, batch: int,
                    ghost s: State, ghost tries0: seq<Event>)
      returns (halt: Halt, ghost tries: seq<Event>)
      requires Made() && n < |nets| && info.Length == changes.Length == |g|
      requires Shaped(D(), s) && Tries(D(), tries0) && NoneOf(D(), tries0, n) && View() == Noted(D(), s, tries0)
      requires SwiftSync.Positive(s.users[n], |g|)
      modifies this`paths, this`routed, this`fails, NetAt(n)`inc, NetAt(n)`dec, info, changes
      ensures Tries(D(), tries)
      ensures halt.Going? ==>
        NetRouted(SiteAt(base), s, n, View(), NetAt(n).inc, NetAt(n).dec, old(info[..]), info[..], tries0, tries)
      ensures halt.Uncovered? ==> Short(D(), s, n)
      ensures halt.Stopped? ==>
        StopSeenBy(SiteAt(base), s, n, old(changes[..]), batch, old(SpareNets(D(), {n}, base, info[..])))
      ensures halt.Going? ==> ShiftNoted(old(changes[..]), changes[..], batch,
        PathsOf(s.paths, netConns[n]), PathsOf(Noted(D(), s, tries).paths, netConns[n]))
      ensures Dated(old(changes[..]), changes[..], batch)
    {
      var usedBefore := UsedBefore(n, s, tries0);
      ghost var was := changes[..];
      halt, tries := VisitNet(n, base, info, changes, batch, s, tries0);
      assert changes[..] == was;
      if halt.Going? {
        ghost var site, now, table, inc, dec := SiteAt(base), View(), info[..], NetAt(n).inc, NetAt(n).dec;
        NoteShift(n, usedBefore, changes, batch, s);
        assert SiteAt(base) == site && View() == now && info[..] == table && NetAt(n).inc == inc && NetAt(n).dec == dec;
      }
    }

    /** The nodes that the net's paths use; none of its connections has been visited yet. */
    method UsedBefore(n: nat, ghost s: State, ghost tries0: seq<Event>) returns (used: set<nat>)
      requires Made() && n < |nets|
      requires Shaped(D(), s) && Tries(D(), tries0) && NoneOf(D(), tries0, n) && View() == Noted(D(), s, tries0)
      ensures UsesOf(PathsOf(s.paths, netConns[n]), used, |g|)
    {
      PathsBefore(D(), s, tries0, netConns[n], n);
      used := UsedNodes(PathsOf(paths, netConns[n]));
    }

    /** Note how the net's use of nodes has changed. */
    method NoteShift(n: nat, usedBefore: set<nat>, changes: array<Change>, batch: int, ghost s: State)
      requires Made() && n < |nets| && changes.Length == |g| && Shaped(D(), s) && Shaped(D(), View())
      requires UsesOf(PathsOf(s.paths, netConns[n]), usedBefore, |g|)
      modifies changes
      ensures ShiftNoted(old(changes[..]), changes[..], batch, PathsOf(s.paths, netConns[n]),
                         PathsOf(paths, netConns[n]))
      ensures Dated(old(changes[..]), changes[..], batch)
    {
      assert NetList(D(), netConns[n], n);
      NoteNet(PathsOf(s.paths, netConns[n]), usedBefore, PathsOf(paths, netConns[n]), changes, batch);
    }

    /** The finished nets hold their notes, and have visited their connections. */
    ghost predicate Worked(s: State, tries: seq<Event>, done: seq<nat>)
      requires Shaped(D(), s) && Tries(D(), tries)
      reads nets`inc, nets`dec
    {
      forall i :: 0 <= i < |done| ==>
        && done[i] < |nets| && NetNotes(D(), s, tries, done[i], nets[done[i]].inc, nets[done[i]].dec)
        && Visited(D(), s, tries, done[i])
    }

    /** The batch that began in state s has tried so much, for the finished nets and no others. */
    ghost predicate Standing(s: State, tries: seq<Event>, done: seq<nat>)
      reads this, nets, nodes`occ
    {
      && Shaped(D(), s) && Tries(D(), tries) && View() == Noted(D(), s, tries)
      && OnlyOf(D(), tries, done) && Worked(s, tries, done)
    }

    /** Route one more net of the batch. */
    method WorkNet(n: nat, base: nat, info: array<NodeInfo>, changes: array<Change>, batch: int,
                   ghost s: State, ghost tries0: seq<Event>, ghost done: seq<nat>)
      returns (halt: Halt, ghost tries: seq<Event>)
      requires Made() && n < |nets| && n !in done && info.Length == changes.Length == |g|
      requires Standing(s, tries0, done) && SwiftSync.Positive(s.users[n], |g|)
      modifies this`paths, this`routed, this`fails, NetAt(n)`inc, NetAt(n)`dec, info, changes
      ensures halt.Going? ==> Standing(s, tries, done + [n])
      ensures halt.Going? ==>
        NetWorked(SiteAt(base), s, n, netConns[n], View(), old(info[..]), info[..], old(changes[..]), changes[..],
                  batch, tries0, tries, done)
      ensures halt.Uncovered? ==> Short(D(), s, n)
      ensures halt.Stopped? ==>
        StopSeenBy(SiteAt(base), s, n, old(changes[..]), batch, old(SpareNets(D(), {n}, base, info[..])))
      ensures Dated(old(changes[..]), changes[..], batch)
    {
      forall i | 0 <= i < |done| ensures nets[done[i]] != NetAt(n) { assert nets[done[i]].id != NetAt(n).id; }
      halt, tries := RouteNet(n, base, info, changes, batch, s, tries0);
      if halt.Going? {
        assert Worked(s, tries0, done);
        WorkedMore(s, tries0, tries, done, n);
      }
    }

    lemma WorkedMore(s: State, tries0: seq<Event>, tries: seq<Event>, done: seq<nat>, n: nat)
      requires Made() && n < |nets| && n !in done && Shaped(D(), s) && Tries(D(), tries0) && Tries(D(), tries)
      requires MoreOf(D(), tries0, tries, [n]) && Worked(s, tries0, done)
      requires NetNotes(D(), s, tries, n, nets[n].inc, nets[n].dec) && Visited(D(), s, tries, n)
      ensures Worked(s, tries, done + [n])
    {
      var so := done + [n];
      forall i | 0 <= i < |so|
        ensures so[i] < |nets| && NetNotes(D(), s, tries, so[i], nets[so[i]].inc, nets[so[i]].dec)
        ensures Visited(D(), s, tries, so[i])
      {
        if i < |done| { OtherNet(D(), s, tries0, tries, [n], done[i]); }
      }
    }

    /**
     Route the given nets: the work of one thread in a batch. At its end the thread's numbers
     are, where no search has failed, not below the change that the commit of its nets will
     bring; and only a pin or line that must not be met, or an earlier failure, stops it.
     */
    method RouteWorker(netIds: seq<nat>, base: nat, info: array<NodeInfo>, changes: array<Change>, batch: int,
                       ghost s: State, ghost tries0: seq<Event>, ghost done: seq<nat>)
      returns (halt: Halt, ghost tries: seq<Event>)
      requires Made() && info.Length == changes.Length == |g|
      requires NoRepeat(done + netIds) && forall i :: 0 <= i < |netIds| ==> netIds[i] < |nets|
      requires Standing(s, tries0, done)
      requires forall i :: 0 <= i < |netIds| ==> SwiftSync.Positive(s.users[netIds[i]], |g|)
      modifies this`paths, this`routed, this`fails, nets`inc, nets`dec, info, changes
      ensures halt.Going? ==> Standing(s, tries, done + netIds)
      ensures halt.Going? ==> ShareVisit(SiteAt(base), s, netIds, old(info[..]), info[..], tries0, tries)
      ensures halt.Uncovered? ==> !NoneShort(D(), s, netIds)
      ensures halt.Going? ==> ShiftsNoted(old(changes[..]), changes[..], batch, s.paths, paths, netConns, netIds)
      ensures halt.Going? && Sound(D(), s) && old(Earlier(changes[..], batch)) ==>
        Bounded(D(), s, tries, changes[..], batch, netIds)
      ensures
        halt.Stopped? && Orderly(SiteAt(base), s) && old(Earlier(changes[..], batch)) &&
        old(SpareNets(D(), SetOf(netIds), base, info[..])) ==>
          MayStop(g, s)
      ensures Dated(old(changes[..]), changes[..], batch)
    {
      halt, tries := Going, tries0;
      ghost var so, table, scratch := done, changes[..], info[..];
      ShareStart(SiteAt(base), s, scratch, tries0);
      TailNoRepeat(done, netIds);
      for k := 0 to |netIds|
        invariant halt.Going? && Standing(s, tries, so) && so == done + netIds[..k]
        invariant ShareWork(SiteAt(base), s, netConns, netIds, k, scratch, info[..], table, changes[..], batch, tries0,
                            tries)
      {
        NextIsNew(done, netIds, k);
        halt, tries := WorkNext(netIds, k, base, info, changes, batch, s, tries0, tries, so, scratch, table);
        if !halt.Going? { return; }
        so := so + [netIds[k]];
      }
      assert netIds[..|netIds|] == netIds;
      if Sound(D(), s) && Earlier(table, batch) {
        ShiftsBound(D(), s, tries, netConns, table, changes[..], batch, netIds);
      }
    }

    method WorkNext(netIds: seq<nat>, k: nat, base: nat, info: array<NodeInfo>, changes: array<Change>, batch: int,
                    ghost s: State, ghost tries0: seq<Event>, ghost before: seq<Event>, ghost so: seq<nat>,
                    ghost scratch: seq<NodeInfo>, ghost table: seq<Change>)
      returns (halt: Halt, ghost tries: seq<Event>)
      requires Made() && info.Length == changes.Length == |g| && |table| == |g| && NoRepeat(netIds) && k < |netIds|
      requires (forall i :: 0 <= i < |netIds| ==> netIds[i] < |nets|) && netIds[k] !in so
      requires Standing(s, before, so) && SwiftSync.Positive(s.users[netIds[k]], |g|)
      requires ShareWork(SiteAt(base), s, netConns, netIds, k, scratch, info[..], table, changes[..], batch, tries0,
                         before)
      modifies this`paths, this`routed, this`fails, NetAt(netIds[k])`inc, NetAt(netIds[k])`dec, info, changes
      ensures halt.Going? ==> Standing(s, tries, so + [netIds[k]])
      ensures halt.Going? ==>
        ShareWork(SiteAt(base), s, netConns, netIds, k + 1, scratch, info[..], table, changes[..], batch, tries0, tries)
      ensures halt.Uncovered? ==> !NoneShort(D(), s, netIds)
      ensures
        halt.Stopped? && Orderly(SiteAt(base), s) && Earlier(table, batch) &&
        SpareNets(D(), SetOf(netIds), base, scratch) ==>
          MayStop(g, s)
      ensures Dated(table, changes[..], batch)
    {
      ghost var site, was, now := SiteAt(base), changes[..], info[..];
      halt, tries := WorkNet(netIds[k], base, info, changes, batch, s, before, so);
      assert SiteAt(base) == site;
      if halt.Stopped? {
        ShareStop(site, s, netConns, netIds, k, scratch, now, table, was, batch, tries0, before);
      } else if halt.Going? {
        ShareWorkStep(site, s, netConns, netIds, k, scratch, now, table, was, batch, tries0, before, info[..],
                      changes[..], tries);
      }
    }

    /**
     The routing phase, threads in turn, each with a scratch table and a table of numbers of
     its own. Counts, occupancies and costs stay as they are. Each thread's tables are left as
     ThreadDone says, and if they held none of the batch's stamps, every search was decided by
     the counts of the last barrier.
     */
    method RoutePhase(lists: seq<seq<nat>>, base: nat, infos0: seq<seq<NodeInfo>>, changes0: seq<seq<Change>>,
                      batch: int)
      returns (halt: Halt, infos: seq<seq<NodeInfo>>, changes: seq<seq<Change>>, ghost tries: seq<Event>)
      requires Made() && |lists| == |infos0| == |changes0| && AllSized(infos0, changes0, |g|)
      requires NoRepeat(Flat(lists)) && forall i :: 0 <= i < |Flat(lists)| ==> Flat(lists)[i] < |nets|
      requires Shaped(D(), View())
      requires forall n: nat :: n < |nets| && n in Flat(lists) ==> SwiftSync.Positive(View().users[n], |g|)
      modifies this`paths, this`routed, this`fails, nets`inc, nets`dec
      ensures halt.Going? ==> Standing(old(View()), tries, Flat(lists))
      ensures halt.Going? ==>
        PhaseDone(SiteAt(base), old(View()), lists, View(), infos0, infos, changes0, changes, batch, tries)
      ensures halt.Uncovered? ==> !NoneShort(D(), old(View()), Flat(lists))
      ensures halt.Stopped? ==> StopsFor(SiteAt(base), old(View()), lists, infos0, changes0, batch)
    {
      halt, infos, changes, tries := Going, infos0, changes0, [];
      ghost var s, so := View(), [];
      for t := 0 to |lists|
        invariant halt.Going? && Standing(s, tries, so) && so == Flat(lists[..t])
        invariant PhaseAt(SiteAt(base), s, lists, t, infos0, infos, changes0, changes, batch, tries)
      {
        FlatStep(lists, t);
        halt, infos, changes, tries :=
          NextThread(lists, t, base, infos0, infos, changes0, changes, batch, s, tries, so);
        if !halt.Going? { return; }
        so := so + lists[t];
      }
      assert lists[..|lists|] == lists;
      WorkedNotShort(s, tries, Flat(lists));
    }

    /** One more thread. */
    method NextThread(lists: seq<seq<nat>>, t: nat, base: nat, infos0: seq<seq<NodeInfo>>, infos1: seq<seq<NodeInfo>>,
                      changes0: seq<seq<Change>>, changes1: seq<seq<Change>>, batch: int,
                      ghost s: State, ghost before: seq<Event>, ghost so: seq<nat>)
      returns (halt: Halt, infos: seq<seq<NodeInfo>>, changes: seq<seq<Change>>, ghost tries: seq<Event>)
      requires Made() && |lists| == |infos0| == |changes0| && AllSized(infos0, changes0, |g|) && t < |lists|
      requires NoRepeat(Flat(lists)) && forall i :: 0 <= i < |Flat(lists)| ==> Flat(lists)[i] < |nets|
      requires Standing(s, before, so) && NoRepeat(so + lists[t])
      requires forall n: nat :: n < |nets| && n in Flat(lists) ==> SwiftSync.Positive(s.users[n], |g|)
      requires PhaseAt(SiteAt(base), s, lists, t, infos0, infos1, changes0, changes1, batch, before)
      modifies this`paths, this`routed, this`fails, nets`inc, nets`dec
      ensures halt.Going? ==> Standing(s, tries, so + lists[t])
      ensures halt.Going? ==> PhaseAt(SiteAt(base), s, lists, t + 1, infos0, infos, changes0, changes, batch, tries)
      ensures halt.Uncovered? ==> !NoneShort(D(), s, Flat(lists))
      ensures halt.Stopped? ==> StopsFor(SiteAt(base), s, lists, infos0, changes0, batch)
    {
      infos, changes := infos1, changes1;
      FlatStep(lists, t);
      FlatBelow(lists, t, |nets|);
      SpareOfThread(D(), lists, t, base, infos0);
      var info, numbers;
      halt, info, numbers, tries := RouteThread(lists[t], base, infos0[t], changes0[t], batch, s, before, so);
      if halt.Going? {
        PhaseOn(SiteAt(base), s, lists, t, infos0, infos, changes0, changes, batch, before, info, numbers, tries);
        infos, changes := infos[t := info], changes[t := numbers];
      }
    }

    lemma WorkedNotShort(s: State, tries: seq<Event>, done: seq<nat>)
      requires Shaped(D(), s) && Tries(D(), tries) && Worked(s, tries, done)
      ensures NoneShort(D(), s, done)
    {
      forall n: nat | n < |nets| && n in done ensures !Short(D(), s, n) {
        var i :| 0 <= i < |done| && done[i] == n;
        NotesNotShort(D(), s, tries, n, nets[done[i]].inc, nets[done[i]].dec);
      }
    }

    /** The share of one thread, which works on its tables in place. */
    method RouteThread(netIds: seq<nat>, base: nat, info0: seq<NodeInfo>, numbers0: seq<Change>, batch: int,
                       ghost s: State, ghost before: seq<Event>, ghost so: seq<nat>)
      returns (halt: Halt, info: seq<NodeInfo>, numbers: seq<Change>, ghost tries: seq<Event>)
      requires Made() && |info0| == |numbers0| == |g|
      requires NoRepeat(so + netIds) && forall i :: 0 <= i < |netIds| ==> netIds[i] < |nets|
      requires Standing(s, before, so)
      requires forall i :: 0 <= i < |netIds| ==> SwiftSync.Positive(s.users[netIds[i]], |g|)
      modifies this`paths, this`routed, this`fails, nets`inc, nets`dec
      ensures halt.Going? ==> Standing(s, tries, so + netIds)
      ensures halt.Going? ==> ShareVisit(SiteAt(base), s, netIds, info0, info, before, tries)
      ensures halt.Going? ==> ThreadDone(SiteAt(base), s, netIds, info0, info, numbers0, numbers, batch, tries)
      ensures halt.Uncovered? ==> !NoneShort(D(), s, netIds)
      ensures
        halt.Stopped? && Orderly(SiteAt(base), s) && Earlier(numbers0, batch) &&
        SpareNets(D(), SetOf(netIds), base, info0) ==>
          MayStop(g, s)
    {
      var scratch := new NodeInfo[|g|](i requires 0 <= i < |g| => info0[i]);
      var table := new Change[|g|](i requires 0 <= i < |g| => numbers0[i]);
      assert scratch[..] == info0 && table[..] == numbers0;
      halt, tries := RouteWorker(netIds, base, scratch, table, batch, s, before, so);
      info, numbers := scratch[..], table[..];
    }

    /** The commit phase and the refresh of the stamped nodes. No assertion fails on the way. */
    method CommitBatch(lists: seq<seq<nat>>, batch: int, ghost s: State, ghost tries: seq<Event>, ghost mine: seq<nat>)
      requires Made() && |lists| > 0 && |nodes.stamp| == |g| && NewBatch(nodes.stamp, batch)
      requires Standing(s, tries, Flat(lists)) && NoRepeat(Flat(lists))
      requires InStep(D(), s, mine) && forall n :: n in Flat(lists) ==> n in mine
      modifies this`present, nets`users, nodes
      ensures View() == Run(D(), s, tries) && InStep(D(), View(), mine) && AllCovered(D(), s, tries)
      ensures StampedWith(old(nodes.stamp), nodes.stamp, batch)
    {
      ghost var board := nodes.View();
      ghost var acts, run := CommitNets(lists, batch, s, tries);
      present := RefreshCosts(nodes.occ, nodes.stamp, present, factor, batch, |lists|);
      BatchRefinesRun(D(), s, tries, Flat(lists), UsersOf(nets), acts, run, board.stamp, batch);
      BatchKeepsStep(D(), s, tries, Flat(lists), mine);
      StampsAfter(board, run, batch);
    }

    method CommitNets(lists: seq<seq<nat>>, batch: int, ghost s: State, ghost tries: seq<Event>)
      returns (ghost acts: seq<seq<Act>>, ghost run: seq<Act>)
      requires Made() && |nodes.occ| == |nodes.stamp| == |g|
      requires Shaped(D(), s) && InStep(D(), s, Flat(lists)) && Tries(D(), tries) && UsersOf(nets) == s.users
      requires NoRepeat(Flat(lists)) && OnlyOf(D(), tries, Flat(lists)) && Worked(s, tries, Flat(lists))
      modifies nets`users, nodes
      ensures OnBoard(old(nodes.View()), run) && nodes.View() == DoAll(old(nodes.View()), run, batch)
      ensures Commits(D(), s, tries, Flat(lists), UsersOf(nets)) && AllCovered(D(), s, tries)
      ensures AllTrack(s.users, UsersOf(nets), acts, |g|) && Performs(acts, run)
    {
      ghost var board := nodes.View();
      var ok;
      ok, acts, run := CommitAll(nets, nodes, lists, batch, s.users, board);
      assert ok;
      ghost var incs, decs := seq(|nets|, n requires 0 <= n < |nets| reads nets => nets[n].inc),
                              seq(|nets|, n requires 0 <= n < |nets| reads nets => nets[n].dec);
      CommitOutcome(nets, nodes, s.users, board, batch, acts, run, Flat(lists));
      BatchCommits(D(), s, tries, UsersOf(nets), incs, decs, Flat(lists));
    }

    /**
     One batch: route, commit, refresh. Unless it stops inside a search it goes on exactly if
     none of its nets is short, which the barrier decides; the state afterwards is then the one
     that rerouting the same connections one after another would have left.
     */
    method RouteBatch(lists: seq<seq<nat>>, base: nat, infos0: seq<seq<NodeInfo>>, changes0: seq<seq<Change>>,
                      batch: int, ghost mine: seq<nat>)
      returns (halt: Halt, infos: seq<seq<NodeInfo>>, changes: seq<seq<Change>>, ghost tries: seq<Event>)
      requires Made() && |lists| == |infos0| == |changes0| > 0 && AllSized(infos0, changes0, |g|)
      requires NoRepeat(Flat(lists)) && forall i :: 0 <= i < |Flat(lists)| ==> Flat(lists)[i] < |nets|
      requires Shaped(D(), View()) && InStep(D(), View(), mine) && (forall n :: n in Flat(lists) ==> n in mine)
      requires |nodes.stamp| == |g| && NewBatch(nodes.stamp, batch)
      modifies this`paths, this`routed, this`fails, this`present, nets, nodes
      ensures !halt.Stopped? ==> (halt.Going? <==> NoneShort(D(), old(View()), Flat(lists)))
      ensures halt.Going? ==>
        BatchDone(SiteAt(base), mine, old(View()), lists, infos0, infos, changes0, changes, batch, tries)
      ensures halt.Going? ==>
        View() == Run(D(), old(View()), tries) && StampedWith(old(nodes.stamp), nodes.stamp, batch)
      ensures halt.Stopped? ==> StopsFor(SiteAt(base), old(View()), lists, infos0, changes0, batch)
    {
      ghost var s := View();
      halt, infos, changes, tries := RoutePhase(lists, base, infos0, changes0, batch);
      if halt.Going? {
        ghost var now := View();
        CommitBatch(lists, batch, s, tries, mine);
        DoneBatch(SiteAt(base), mine, s, lists, infos0, infos, changes0, changes, batch, tries, now);
      }
    }

    /** Batch b of the iteration. */
    method RouteNumbered(batches: seq<seq<seq<nat>>>, b: nat, base: nat, infos0: seq<seq<NodeInfo>>,
                         changes0: seq<seq<Change>>, batch: int)
      returns (halt: Halt, infos: seq<seq<NodeInfo>>, changes: seq<seq<Change>>, ghost tries: seq<Event>)
      requires Made() && |infos0| == |changes0| > 0 && AllSized(infos0, changes0, |g|)
      requires b < |batches| && Spread(batches, |infos0|, |nets|) && |nodes.stamp| == |g| && Below(nodes.stamp, batch)
      requires Shaped(D(), View()) && InStep(D(), View(), FlatAll(batches))
      modifies this`paths, this`routed, this`fails, this`present, nets, nodes
      ensures !halt.Stopped? ==> (halt.Going? <==> NoneShort(D(), old(View()), Flat(batches[b])))
      ensures halt.Going? ==>
        BatchLeft(SiteAt(base), FlatAll(batches), old(View()), batches[b], infos0, infos, changes0, changes,
                  old(nodes.stamp), nodes.stamp, batch, tries)
      ensures halt.Going? ==> View() == Run(D(), old(View()), tries)
      ensures halt.Stopped? ==>
        |batches[b]| == |infos0| && StopsFor(SiteAt(base), old(View()), batches[b], infos0, changes0, batch)
    {
      BatchFits(batches, |infos0|, |nets|, b, nodes.stamp, batch);
      halt, infos, changes, tries := RouteBatch(batches[b], base, infos0, changes0, batch, FlatAll(batches));
    }

    /** One more batch of an iteration that has got this far. */
    method NextBatch(batches: seq<seq<seq<nat>>>, b: nat, base: nat, first: int,
                     infos1: seq<seq<NodeInfo>>, changes1: seq<seq<Change>>,
                     ghost s: State, ghost infos0: seq<seq<NodeInfo>>, ghost changes0: seq<seq<Change>>,
                     ghost events0: seq<Event>, ghost starts0: map<nat, State>, ghost spare: bool)
      returns (halt: Halt, infos: seq<seq<NodeInfo>>, changes: seq<seq<Change>>, ghost events: seq<Event>,
               ghost starts: map<nat, State>)
      requires Made() && |infos0| == |changes0| > 0 && AllSized(infos0, changes0, |g|)
      requires b < |batches| && Spread(batches, |infos0|, |nets|)
      requires
        Underway(SiteAt(base), batches, b, first, s, infos0, changes0, View(), infos1, changes1, nodes.stamp, events0,
                 starts0, spare)
      modifies this`paths, this`routed, this`fails, this`present, nets, nodes
      ensures halt.Going? ==>
        Underway(SiteAt(base), batches, b + 1, first, s, infos0, changes0, View(), infos, changes, nodes.stamp, events,
                 starts, spare)
      ensures !halt.Going? ==> HaltsAt(SiteAt(base), batches, b, s, old(View()), events0, starts0, spare)
      ensures !halt.Stopped? ==> (halt.Going? <==> NoneShort(D(), old(View()), Flat(batches[b])))
      ensures halt.Stopped? && spare && AllEarlier(changes0, first) && CostsOk(SiteAt(base), s.factor) ==>
        MayStop(g, old(View()))
    {
      ghost var site, t, stamp, tries := SiteAt(base), View(), nodes.stamp, [];
      UnderwayReady(site, batches, b, first, s, infos0, changes0, t, infos1, changes1, stamp, events0, starts0, spare);
      var batch := first + b;
      halt, infos, changes, tries := RouteNumbered(batches, b, base, infos1, changes1, batch);
      events, starts := events0 + tries, StartsWith(starts0, Flat(batches[b]), t);
      if halt.Going? {
        UnderwayNext(site, batches, b, first, s, infos0, changes0, t, infos1, changes1, stamp, events0, starts0, spare,
                     View(), infos, changes, nodes.stamp, batch, tries);
      } else if halt.Stopped? {
        UnderwayStop(site, batches, b, first, s, infos0, changes0, t, infos1, changes1, stamp, events0, starts0, spare);
      }
    }

    /**
     All batches of an iteration. The state afterwards is that of rerouting, one after
     another, the connections that needed it when their batch began; the tables hold no new
     stamps but theirs. If no table held a stamp of the iteration, a connection is then without
     a path exactly if it was blocked at the start of its batch. When the program stops, last is
     the barrier before the batch that stops it, and the reason lies there.
     */
    method StableFirstParallelRouting(batches: seq<seq<seq<nat>>>, iter: nat, base: nat,
                                      infos0: seq<seq<NodeInfo>>, changes0: seq<seq<Change>>)
      returns (halt: Halt, infos: seq<seq<NodeInfo>>, changes: seq<seq<Change>>,
               ghost events: seq<Event>, ghost starts: map<nat, State>, ghost last: State, ghost at: nat)
      requires Made() && |infos0| == |changes0| > 0 && AllSized(infos0, changes0, |g|)
      requires Spread(batches, |infos0|, |nets|)
      requires Sound(D(), View()) && InStep(D(), View(), FlatAll(batches))
      requires |nodes.stamp| == |g| && Below(nodes.stamp, BatchStamp(iter, |batches|, 0))
      modifies this`paths, this`routed, this`fails, this`present, nets, nodes
      ensures halt.Going? ==>
        Underway(SiteAt(base), batches, |batches|, BatchStamp(iter, |batches|, 0), old(View()), infos0, changes0,
                 View(), infos, changes, nodes.stamp, events, starts, SpareLater(D(), batches, 0, base, infos0))
      ensures !halt.Going? ==>
        HaltsAt(SiteAt(base), batches, at, old(View()), last, events, starts, SpareLater(D(), batches, 0, base, infos0))
      ensures halt.Uncovered? ==> at < |batches| && Shaped(D(), last) && !NoneShort(D(), last, Flat(batches[at]))
      ensures
        halt.Stopped? && SpareLater(D(), batches, 0, base, infos0) &&
        AllEarlier(changes0, BatchStamp(iter, |batches|, 0)) &&
        CostsOk(SiteAt(base), old(factor)) ==>
          MayStop(g, last)
    {
      halt, infos, changes, events, starts := Going, infos0, changes0, [], map[];
      ghost var s, spare := View(), SpareLater(D(), batches, 0, base, infos0);
      last, at := s, 0;
      ArrivedStart(SiteAt(base), batches, s, infos0, changes0, spare);
      var first := BatchStamp(iter, |batches|, 0);
      for b := 0 to |batches|
        invariant halt.Going?
        invariant
          Underway(SiteAt(base), batches, b, first, s, infos0, changes0, View(), infos, changes, nodes.stamp, events,
                   starts, spare)
      {
        ghost var more, begun;
        last, at := View(), b;
        halt, infos, changes, more, begun :=
          NextBatch(batches, b, base, first, infos, changes, s, infos0, changes0, events, starts, spare);
        if !halt.Going? { return; }
        events, starts := more, begun;
      }
    }
  }

  lemma CommitOutcome(nets: seq<Net>, nodes: Nodes, before: seq<Users>, board: Board, batch: int,
                   acts: seq<seq<Act>>, run: seq<Act>, committed: seq<nat>)
    requires Committing(nets, nodes, before, board, batch, acts, run, committed)
    ensures AllTrack(before, UsersOf(nets), acts, |board.occ|)
    ensures forall n: nat :: n < |nets| && n in committed ==>
      Settles(before[n], nets[n].inc, nets[n].dec, nets[n].users) && Positive(nets[n].users, |board.occ|)
    ensures forall n: nat :: n < |nets| && n !in committed ==> nets[n].users == before[n]
  {
    forall n: nat | n < |nets| ensures Tracks(before[n], nets[n].users, acts[n]) {
      assert NetState(nets[n], before[n], acts[n], |board.occ|, n in committed);
    }
  }
}
