/**
 Congestion bookkeeping over whole runs: aStarRoute::ripup, saving and committing a path,
 updateSinkNodeUsage and dynamicCostFactorUpdating (src/route/aStarRoute.cpp), on the state
 that they share. A run is any sequence of reroutings, successful or not, and factor updates.
 */
module Congestion {
  import opened Counting
  import opened Ledger

  datatype Conn = Conn(net: nat, source: nat, sink: nat)

  /** The fixed part: connections, number of nets and nodes, and which nodes are of type PINFEED_I. */
  datatype Design = Design(conns: seq<Conn>, nets: nat, nodes: nat, pinfeed: seq<bool>)

  predicate ValidDesign(d: Design) {
    && |d.pinfeed| == d.nodes
    && forall c :: 0 <= c < |d.conns| ==>
         d.conns[c].net < d.nets && d.conns[c].source < d.nodes && d.conns[c].sink < d.nodes
  }

  /** fails counts the unsuccessful searches of each connection; the program does not keep it. */
  datatype State = State(
    users: seq<Users>, occ: seq<int>, present: seq<real>, factor: real,
    paths: seq<seq<nat>>, routed: seq<bool>, fails: seq<nat>)

  predicate Shaped(d: Design, s: State) {
    && ValidDesign(d)
    && |s.users| == d.nets && |s.occ| == |s.present| == d.nodes
    && |s.paths| == |s.routed| == |s.fails| == |d.conns|
    && forall c :: 0 <= c < |d.conns| ==> InNodes(s.paths[c], d.nodes)
  }

  /** The nodes that ripup releases: the path, or the reserved sink of a connection without one. */
  function Held(d: Design, s: State, c: nat): (r: seq<nat>)
    requires Shaped(d, s) && c < |d.conns|
    ensures InNodes(r, d.nodes)
  {
    if s.paths[c] == [] then [d.conns[c].sink] else s.paths[c]
  }

  function BooksOf(s: State, n: nat): Books
    requires n < |s.users|
  {
    Books(s.users[n], s.occ, s.present)
  }

  function WithBooks(s: State, n: nat, b: Books): State
    requires n < |s.users|
  {
    s.(users := s.users[n := b.users], occ := b.occ, present := b.present)
  }

  function RipUp(d: Design, s: State, c: nat): (r: State)
    requires Shaped(d, s) && c < |d.conns|
    ensures Shaped(d, r)
  {
    var n := d.conns[c].net;
    WithBooks(s, n, DecAll(BooksOf(s, n), Held(d, s, c), s.factor))
      .(paths := s.paths[c := []], routed := s.routed[c := false])
  }

  function Commit(d: Design, s: State, c: nat, path: seq<nat>): (r: State)
    requires Shaped(d, s) && c < |d.conns| && InNodes(path, d.nodes)
    ensures Shaped(d, r)
  {
    var n := d.conns[c].net;
    WithBooks(s, n, IncAll(BooksOf(s, n), path, s.factor))
      .(paths := s.paths[c := path], routed := s.routed[c := true])
  }

  /** Rip up and reroute connection c; the empty path stands for a failed search. */
  function Reroute(d: Design, s: State, c: nat, path: seq<nat>): (r: State)
    requires Shaped(d, s) && c < |d.conns| && InNodes(path, d.nodes)
    ensures Shaped(d, r)
  {
    var ripped := RipUp(d, s, c);
    if path == [] then ripped.(fails := s.fails[c := s.fails[c] + 1]) else Commit(d, ripped, c, path)
  }

  /** The present cost that dynamicCostFactorUpdating leaves behind; unoccupied nodes are skipped. */
  function Refreshed(occ: int, present: real, factor: real): real {
    var overuse := occ - 1;
    if overuse == 0 then 1.0 + factor
    else if overuse > 0 then OverusedCost(overuse, factor)
    else present
  }

  function OverusedCost(overuse: int, factor: real): real { 1.0 + (overuse + 1) as real * factor }

  function NewFactor(d: Design, s: State, factor: real): (r: State)
    requires Shaped(d, s)
    ensures Shaped(d, r)
  {
    s.(factor := factor,
       present := seq(d.nodes, v requires 0 <= v < d.nodes => Refreshed(s.occ[v], s.present[v], factor)))
  }

  // Counts

  /** What connection c contributes to the count of node v. */
  function Load(d: Design, s: State, c: nat, v: nat): nat
    requires Shaped(d, s) && c < |d.conns|
  {
    Count(Held(d, s, c), v)
  }

  /** The failed searches that took their sink's reservation with them. */
  function Lost(d: Design, s: State, c: nat, v: nat): nat
    requires Shaped(d, s) && c < |d.conns|
  {
    if d.conns[c].sink == v then s.fails[c] else 0
  }

  /** Sum over the first k connections that belong to net n. */
  function LoadSum(d: Design, s: State, n: nat, v: nat, k: nat): nat
    requires Shaped(d, s) && k <= |d.conns|
  {
    if k == 0 then 0
    else LoadSum(d, s, n, v, k - 1) + (if d.conns[k - 1].net == n then Load(d, s, k - 1, v) else 0)
  }

  function LostSum(d: Design, s: State, n: nat, v: nat, k: nat): nat
    requires Shaped(d, s) && k <= |d.conns|
  {
    if k == 0 then 0
    else LostSum(d, s, n, v, k - 1) + (if d.conns[k - 1].net == n then Lost(d, s, k - 1, v) else 0)
  }

  /** Uses of node v by net n: occurrences in its paths, plus sinks still reserved. */
  function Uses(d: Design, s: State, n: nat, v: nat): nat
    requires Shaped(d, s)
  {
    LoadSum(d, s, n, v, |d.conns|)
  }

  function LostBy(d: Design, s: State, n: nat, v: nat): nat
    requires Shaped(d, s)
  {
    LostSum(d, s, n, v, |d.conns|)
  }

  lemma {:induction false} SumsChange(d: Design, s: State, s': State, c: nat, n: nat, v: nat, k: nat)
    requires Shaped(d, s) && Shaped(d, s') && c < |d.conns| && k <= |d.conns|
    requires forall e :: 0 <= e < |d.conns| && e != c ==> s'.paths[e] == s.paths[e] && s'.fails[e] == s.fails[e]
    ensures LoadSum(d, s', n, v, k) - LoadSum(d, s, n, v, k) ==
            if c < k && d.conns[c].net == n then Load(d, s', c, v) - Load(d, s, c, v) else 0
    ensures LostSum(d, s', n, v, k) - LostSum(d, s, n, v, k) ==
            if c < k && d.conns[c].net == n then Lost(d, s', c, v) - Lost(d, s, c, v) else 0
  {
    if k > 0 { SumsChange(d, s, s', c, n, v, k - 1); }
  }

  /** The law of the counts, which every run keeps: uses minus what failed searches lost. */
  ghost predicate CountLaw(d: Design, s: State) {
    Shaped(d, s) && forall n, v: nat :: 0 <= n < d.nets ==> Cnt(s.users[n], v) == Uses(d, s, n, v) - LostBy(d, s, n, v)
  }

  /** A rerouting, successful or not, keeps the law of the counts. */
  lemma RerouteKeepsCounts(d: Design, s: State, c: nat, path: seq<nat>)
    requires CountLaw(d, s) && c < |d.conns| && InNodes(path, d.nodes)
    ensures CountLaw(d, Reroute(d, s, c, path))
  {
    var s' := Reroute(d, s, c, path);
    var m := d.conns[c].net;
    forall n, v: nat | 0 <= n < d.nets
      ensures Cnt(s'.users[n], v) == Uses(d, s', n, v) - LostBy(d, s', n, v)
    {
      SumsChange(d, s, s', c, n, v, |d.conns|);
      if n == m {
        RerouteCount(d, s, c, path, v);
      }
    }
  }

  lemma RerouteCount(d: Design, s: State, c: nat, path: seq<nat>, v: nat)
    requires Shaped(d, s) && c < |d.conns| && InNodes(path, d.nodes)
    ensures var n, s' := d.conns[c].net, Reroute(d, s, c, path);
            Cnt(s'.users[n], v) == Cnt(s.users[n], v) - Load(d, s, c, v) + Count(path, v)
    ensures var s' := Reroute(d, s, c, path);
            Count(path, v) == Load(d, s', c, v) - (Lost(d, s', c, v) - Lost(d, s, c, v))
  {
    var n, r := d.conns[c].net, RipUp(d, s, c);
    DecAllCounts(BooksOf(s, n), Held(d, s, c), s.factor, v);
    if path == [] {
      CountSnoc([], d.conns[c].sink, v);
      assert [] + [d.conns[c].sink] == [d.conns[c].sink];
    } else {
      IncAllCounts(BooksOf(r, n), path, r.factor, v);
    }
  }

  lemma {:induction false} LoadIsPart(d: Design, s: State, c: nat, n: nat, v: nat, k: nat)
    requires Shaped(d, s) && c < k <= |d.conns| && d.conns[c].net == n
    ensures Load(d, s, c, v) <= LoadSum(d, s, n, v, k)
    ensures Lost(d, s, c, v) <= LostSum(d, s, n, v, k)
  {
    if c < k - 1 { LoadIsPart(d, s, c, n, v, k - 1); }
  }

  lemma {:induction false} NothingLost(d: Design, s: State, n: nat, v: nat, k: nat)
    requires Shaped(d, s) && k <= |d.conns| && forall c :: 0 <= c < |d.conns| ==> s.fails[c] == 0
    ensures LostSum(d, s, n, v, k) == 0
  {
    if k > 0 { NothingLost(d, s, n, v, k - 1); }
  }

  /**
   In any state of any run, the counts equal the uses exactly when no search has failed: a
   failed search loses its sink's reservation for good.
   */
  lemma CountsExactIffNoFailure(d: Design, s: State)
    requires CountLaw(d, s)
    ensures (forall n, v: nat :: 0 <= n < d.nets ==> Cnt(s.users[n], v) == Uses(d, s, n, v)) <==>
            (forall c :: 0 <= c < |d.conns| ==> s.fails[c] == 0)
  {
    if forall c :: 0 <= c < |d.conns| ==> s.fails[c] == 0 {
      forall n, v: nat | 0 <= n < d.nets ensures Cnt(s.users[n], v) == Uses(d, s, n, v) {
        NothingLost(d, s, n, v, |d.conns|);
      }
    } else {
      var c :| 0 <= c < |d.conns| && s.fails[c] != 0;
      var n, v := d.conns[c].net, d.conns[c].sink;
      LoadIsPart(d, s, c, n, v, |d.conns|);
      assert Cnt(s.users[n], v) != Uses(d, s, n, v);
    }
  }

  /** For a simple path, a connection's contribution says whether its path holds the node. */
  lemma SimplePathLoad(d: Design, s: State, c: nat, v: nat)
    requires Shaped(d, s) && c < |d.conns| && NoRepeat(s.paths[c]) && s.paths[c] != []
    ensures Load(d, s, c, v) == if v in s.paths[c] then 1 else 0
  {
    CountOnce(s.paths[c]);
    CountIn(s.paths[c], v);
  }

  // Occupancy and cached cost

  /** Number of the given nets that use node v. */
  function UsingNets(users: seq<Users>, v: nat): nat {
    if |users| == 0 then 0 else UsingNets(users[..|users| - 1], v) + Member(users[|users| - 1], v)
  }

  lemma {:induction false} UsingNetsChange(users: seq<Users>, n: nat, m: Users, v: nat)
    requires n < |users|
    ensures UsingNets(users[n := m], v) == UsingNets(users, v) - Member(users[n], v) + Member(m, v)
  {
    var last := |users| - 1;
    if n == last {
      assert users[n := m][..last] == users[..last];
    } else {
      assert users[n := m][..last] == users[..last][n := m];
      UsingNetsChange(users[..last], n, m, v);
    }
  }

  /** At node v: positive counts, occupancy as the number of using nets, cost as its cached image. */
  ghost predicate TalliedAt(d: Design, s: State, v: nat)
    requires Shaped(d, s) && v < d.nodes
  {
    && (forall n :: 0 <= n < d.nets ==> PositiveAt(s.users[n], v))
    && s.occ[v] == UsingNets(s.users, v)
    && s.present[v] == PresentCost(s.occ[v], s.factor)
  }

  /** No search for a connection that ends at v has failed. */
  ghost predicate NoLossAt(d: Design, s: State, v: nat)
    requires Shaped(d, s)
  {
    forall c :: 0 <= c < |d.conns| && d.conns[c].sink == v ==> s.fails[c] == 0
  }

  /** Occupancy and cost are in step with the counts wherever no reservation was lost. */
  ghost predicate Tallied(d: Design, s: State)
    requires Shaped(d, s)
  {
    forall v :: 0 <= v < d.nodes && NoLossAt(d, s, v) ==> TalliedAt(d, s, v)
  }

  /** The books of a run: counts by the law, occupancy and cost in step, flags as the paths say. */
  ghost predicate Sound(d: Design, s: State) {
    && CountLaw(d, s) && Tallied(d, s)
    && (forall c :: 0 <= c < |d.conns| ==> (s.routed[c] <==> s.paths[c] != []))
  }

  /** Exact books: sound, and no search has failed. */
  ghost predicate Exact(d: Design, s: State) {
    Sound(d, s) && forall c :: 0 <= c < |d.conns| ==> s.fails[c] == 0
  }

  /** In exact books the cached cost is one plus occupancy times factor, occupied or not. */
  lemma CachedCost(d: Design, s: State, v: nat)
    requires Exact(d, s) && v < d.nodes
    ensures s.present[v] == 1.0 + s.occ[v] as real * s.factor
  {
    assert TalliedAt(d, s, v);
    assert s.occ[v] == 0 ==> s.occ[v] as real * s.factor == 0.0;
  }

  /** One change of one net's books that keeps node v in step. */
  lemma BooksStep(d: Design, s: State, n: nat, b: Books, touched: seq<nat>, v: nat)
    requires Shaped(d, s) && v < d.nodes && TalliedAt(d, s, v) && n < d.nets && Sized(b, d.nodes)
    requires PositiveAt(b.users, v) && FollowsAt(BooksOf(s, n), b, touched, s.factor, v)
    ensures Shaped(d, WithBooks(s, n, b)) && TalliedAt(d, WithBooks(s, n, b), v)
  {
    UsingNetsChange(s.users, n, b.users, v);
  }

  lemma {:induction false} NothingLostAt(d: Design, s: State, n: nat, v: nat, k: nat)
    requires Shaped(d, s) && k <= |d.conns| && NoLossAt(d, s, v)
    ensures LostSum(d, s, n, v, k) == 0
  {
    if k > 0 { NothingLostAt(d, s, n, v, k - 1); }
  }

  /** Ripping up never takes more than the net has counted, where nothing was lost. */
  lemma HeldIsCounted(d: Design, s: State, c: nat, v: nat)
    requires CountLaw(d, s) && NoLossAt(d, s, v) && c < |d.conns|
    ensures Count(Held(d, s, c), v) <= Cnt(s.users[d.conns[c].net], v)
  {
    LoadIsPart(d, s, c, d.conns[c].net, v, |d.conns|);
    NothingLostAt(d, s, d.conns[c].net, v, |d.conns|);
  }

  lemma RipUpKeepsTally(d: Design, s: State, c: nat, v: nat)
    requires Shaped(d, s) && v < d.nodes && TalliedAt(d, s, v) && c < |d.conns|
    requires Count(Held(d, s, c), v) <= Cnt(s.users[d.conns[c].net], v)
    ensures TalliedAt(d, RipUp(d, s, c), v)
  {
    var n := d.conns[c].net;
    DecAllFollows(BooksOf(s, n), Held(d, s, c), s.factor, v);
    BooksStep(d, s, n, DecAll(BooksOf(s, n), Held(d, s, c), s.factor), Held(d, s, c), v);
  }

  lemma CommitKeepsTally(d: Design, s: State, c: nat, path: seq<nat>, v: nat)
    requires Shaped(d, s) && v < d.nodes && TalliedAt(d, s, v) && c < |d.conns| && InNodes(path, d.nodes)
    ensures TalliedAt(d, Commit(d, s, c, path), v)
  {
    var n := d.conns[c].net;
    IncAllFollows(BooksOf(s, n), path, s.factor, v);
    BooksStep(d, s, n, IncAll(BooksOf(s, n), path, s.factor), path, v);
  }

  /** A rerouting keeps the books sound; the damage of a failed search stays at its own sink. */
  lemma RerouteKeepsSound(d: Design, s: State, c: nat, path: seq<nat>)
    requires Sound(d, s) && c < |d.conns| && InNodes(path, d.nodes)
    ensures Sound(d, Reroute(d, s, c, path))
  {
    var s' := Reroute(d, s, c, path);
    RerouteKeepsCounts(d, s, c, path);
    forall v | 0 <= v < d.nodes && NoLossAt(d, s', v) ensures TalliedAt(d, s', v) {
      RerouteKeepsTally(d, s, c, path, v);
    }
  }

  lemma RerouteKeepsTally(d: Design, s: State, c: nat, path: seq<nat>, v: nat)
    requires Sound(d, s) && c < |d.conns| && InNodes(path, d.nodes) && v < d.nodes
    requires NoLossAt(d, Reroute(d, s, c, path), v)
    ensures TalliedAt(d, Reroute(d, s, c, path), v)
  {
    var s' := Reroute(d, s, c, path);
    forall e | 0 <= e < |d.conns| && d.conns[e].sink == v ensures s.fails[e] == 0 {
      assert s'.fails[e] == 0;
    }
    assert TalliedAt(d, s, v);
    HeldIsCounted(d, s, c, v);
    RipUpKeepsTally(d, s, c, v);
    if path != [] { CommitKeepsTally(d, RipUp(d, s, c), c, path, v); }
  }

  /** A successful rerouting keeps the books exact. */
  lemma RerouteKeepsExact(d: Design, s: State, c: nat, path: seq<nat>)
    requires Exact(d, s) && c < |d.conns| && InNodes(path, d.nodes) && path != []
    ensures Exact(d, Reroute(d, s, c, path))
  {
    RerouteKeepsSound(d, s, c, path);
  }

  /** The factor update, although it skips unoccupied nodes, keeps costs in step. */
  lemma NewFactorKeepsSound(d: Design, s: State, factor: real)
    requires Sound(d, s)
    ensures Sound(d, NewFactor(d, s, factor))
  {
    var s' := NewFactor(d, s, factor);
    NewFactorKeepsCounts(d, s, factor);
    forall v | 0 <= v < d.nodes && NoLossAt(d, s', v) ensures TalliedAt(d, s', v) {
      assert NoLossAt(d, s, v);
      assert TalliedAt(d, s, v);
    }
  }

  lemma NewFactorKeepsCounts(d: Design, s: State, factor: real)
    requires CountLaw(d, s)
    ensures CountLaw(d, NewFactor(d, s, factor))
  {
    var s' := NewFactor(d, s, factor);
    forall n, v: nat | 0 <= n < d.nets
      ensures Uses(d, s', n, v) == Uses(d, s, n, v) && LostBy(d, s', n, v) == LostBy(d, s, n, v)
    {
      SameSums(d, s, s', n, v, |d.conns|);
    }
  }

  lemma {:induction false} SameSums(d: Design, s: State, s': State, n: nat, v: nat, k: nat)
    requires Shaped(d, s) && Shaped(d, s') && k <= |d.conns| && s'.paths == s.paths && s'.fails == s.fails
    ensures LoadSum(d, s', n, v, k) == LoadSum(d, s, n, v, k) && LostSum(d, s', n, v, k) == LostSum(d, s, n, v, k)
  {
    if k > 0 { SameSums(d, s, s', n, v, k - 1); }
  }

  // Runs

  datatype Event = Try(conn: nat, path: seq<nat>) | Update(factor: real)

  predicate Possible(d: Design, e: Event) {
    e.Try? ==> e.conn < |d.conns| && InNodes(e.path, d.nodes)
  }

  function Apply(d: Design, s: State, e: Event): (r: State)
    requires Shaped(d, s) && Possible(d, e)
    ensures Shaped(d, r)
  {
    match e
    case Try(c, path) => Reroute(d, s, c, path)
    case Update(f) => NewFactor(d, s, f)
  }

  function Run(d: Design, s: State, events: seq<Event>): (r: State)
    requires Shaped(d, s) && forall i :: 0 <= i < |events| ==> Possible(d, events[i])
    ensures Shaped(d, r)
  {
    if |events| == 0 then s else Apply(d, Run(d, s, events[..|events| - 1]), events[|events| - 1])
  }

  /** Every run, failures included, keeps the books sound. */
  lemma {:induction false} RunKeepsSound(d: Design, s: State, events: seq<Event>)
    requires Sound(d, s) && forall i :: 0 <= i < |events| ==> Possible(d, events[i])
    ensures Sound(d, Run(d, s, events))
  {
    if |events| > 0 {
      RunKeepsSound(d, s, events[..|events| - 1]);
      var before := Run(d, s, events[..|events| - 1]);
      match events[|events| - 1]
      case Try(c, path) => RerouteKeepsSound(d, before, c, path);
      case Update(f) => NewFactorKeepsSound(d, before, f);
    }
  }

  /** Every run without a failed search keeps counts, occupancies and cached costs exact. */
  lemma {:induction false} RunKeepsExact(d: Design, s: State, events: seq<Event>)
    requires Exact(d, s) && forall i :: 0 <= i < |events| ==> Possible(d, events[i])
    requires forall i :: 0 <= i < |events| && events[i].Try? ==> events[i].path != []
    ensures Exact(d, Run(d, s, events))
  {
    if |events| > 0 {
      RunKeepsExact(d, s, events[..|events| - 1]);
      var before := Run(d, s, events[..|events| - 1]);
      match events[|events| - 1]
      case Try(c, path) => RerouteKeepsExact(d, before, c, path);
      case Update(f) => NewFactorKeepsSound(d, before, f);
    }
  }
}
