/**
 What the searches charge for congestion (src/route/aStarRoute.cpp, lines 566-577 and 751-768):
 one after another by the number of other nets at a node, and inside a batch by the counts that
 rerouting one after another would leave, and by an occupancy that lags behind.
 */
module BatchPrice {
  import opened Search
  import opened Ledger
  import opened Congestion
  import opened SwiftSync
  import opened SyncBatch
  import opened OccChange
  import opened BatchNotes
  import opened Site
  import opened Prices

  // Other nets

  /** The nets but n that use node v. */
  function Others(users: seq<Users>, n: nat, v: nat): set<nat> {
    set m: nat | m < |users| && m != n && v in users[m]
  }

  lemma OthersStep(front: seq<Users>, users: Users, n: nat, v: nat)
    ensures |Others(front + [users], n, v)| == |Others(front, n, v)| + if |front| != n && v in users then 1 else 0
  {
    var all, last := front + [users], |front|;
    assert forall m :: 0 <= m < last ==> all[m] == front[m];
    if last != n && v in users {
      assert Others(all, n, v) == Others(front, n, v) + {last};
    } else {
      assert Others(all, n, v) == Others(front, n, v);
    }
  }

  lemma {:induction false} OthersCount(users: seq<Users>, n: nat, v: nat)
    ensures UsingNets(users, v) == |Others(users, n, v)| + (if n < |users| then Member(users[n], v) else 0)
  {
    if |users| > 0 {
      var front, last := users[..|users| - 1], users[|users| - 1];
      assert users == front + [last];
      OthersCount(front, n, v);
      OthersStep(front, last, n, v);
    }
  }

  /** A node that this many nets share, in the eyes of another. */
  function Crowded(nets: int, factor: real): real { 1.0 + nets as real * factor }

  lemma TalliedPresent(d: Design, s: State, v: nat)
    requires Shaped(d, s) && v < d.nodes && TalliedAt(d, s, v)
    ensures s.present[v] == Crowded(s.occ[v], s.factor)
  {
    assert s.occ[v] == 0 ==> s.occ[v] as real * s.factor == 0.0;
  }

  /**
   In books in step, a search charges for node v by the other connections of its own net that
   use it, and for congestion by the number of other nets there.
   */
  lemma PlainCharges(site: Site, s: State, c: nat, v: nat, targeted: bool)
    requires site.Valid() && Shaped(site.D(), s) && c < |site.conns| && v < |site.g| && TalliedAt(site.D(), s, v)
    ensures var n := site.conns[c].net;
            Charges(site, c, PlainQuery(site, s, c), v, targeted, Cnt(s.users[n], v),
                    Crowded(|Others(s.users, n, v)|, s.factor))
  {
    var n, q := site.conns[c].net, PlainQuery(site, s, c);
    var b := BooksOf(s, n);
    PlainCongestion(site, s, n, v);
    assert FiguredBy(site, c, q, b, UseOf(b, v), s.factor, v, targeted);
    UseCharges(site, c, q, b, UseOf(b, v), s.factor, v, targeted, Crowded(|Others(s.users, n, v)|, s.factor));
  }

  lemma PlainCongestion(site: Site, s: State, n: nat, v: nat)
    requires site.Valid() && Shaped(site.D(), s) && n < site.nets && v < |site.g| && TalliedAt(site.D(), s, v)
    ensures Cost.PresentPart(FiguresOf(site, BooksOf(s, n), v), UseOf(BooksOf(s, n), v), s.factor) ==
            Crowded(|Others(s.users, n, v)|, s.factor)
  {
    TalliedPresent(site.D(), s, v);
    OthersCount(s.users, n, v);
    assert PositiveAt(s.users[n], v);
  }

  // Inside a batch

  /** The count of v that net n would have if the tries were rerouted one after another and c ripped up. */
  ghost function CountThen(d: Design, s: State, tries: seq<Event>, c: nat, v: nat): int
    requires Shaped(d, s) && Tries(d, tries) && c < |d.conns|
  {
    Cnt(RipUp(d, Run(d, s, tries), c).users[d.conns[c].net], v)
  }

  /** What net n has noted, with the rip-up of c, are the counts of rerouting one after another. */
  lemma NotesAreCounts(d: Design, s: State, tries: seq<Event>, c: nat, inc: Users, dec0: Users, dec: Users, v: nat)
    requires Shaped(d, s) && Tries(d, tries) && c < |d.conns| && !InTries(tries, c)
    requires NetNotes(d, s, tries, d.conns[c].net, inc, dec0) && Adds(dec0, Held(d, s, c), dec)
    ensures Cnt(s.users[d.conns[c].net], v) - Cnt(dec, v) + Cnt(inc, v) == CountThen(d, s, tries, c, v)
  {
    var n, t := d.conns[c].net, Run(d, s, tries);
    RunCounts(d, s, tries, n, v);
    OthersKeep(d, s, tries, c);
    DecAllCounts(BooksOf(t, n), Held(d, t, c), t.factor, v);
  }

  /** The congestion that a batch search sees: occupancy of the last barrier, corrected where its net uses the node. */
  ghost function SeenCongestion(d: Design, s: State, tries: seq<Event>, c: nat, change: int, v: nat): real
    requires Shaped(d, s) && Tries(d, tries) && c < |d.conns| && v < d.nodes
  {
    if CountThen(d, s, tries, c, v) == 0 then s.present[v]
    else
      var arrived := if Cnt(s.users[d.conns[c].net], v) == 0 then 1 else 0;
      Crowded(s.occ[v] + arrived + change - 1, s.factor)
  }

  /** For node v the search charges by the count of one-by-one rerouting, and by the congestion it sees. */
  ghost predicate ReckonsAt(site: Site, s: State, tries: seq<Event>, c: nat, change: int, q: Query, v: nat,
                            targeted: bool)
    requires site.Valid() && Shaped(site.D(), s) && Tries(site.D(), tries) && c < |site.conns| && v < |site.g|
  {
    && CountThen(site.D(), s, tries, c, v) >= 0
    && Charges(site, c, q, v, targeted, CountThen(site.D(), s, tries, c, v),
               SeenCongestion(site.D(), s, tries, c, change, v))
  }

  /** The batch search of connection c, after the given tries: the query and what it charges at every node. */
  ghost predicate Reckons(site: Site, s: State, tries: seq<Event>, c: nat, changes: seq<Change>, batch: int, q: Query)
  {
    && site.Valid() && Shaped(site.D(), s) && Tries(site.D(), tries) && c < |site.conns| && |changes| == |site.g|
    && q.g == site.g && q.c == site.Term(c) && q.uid == site.Uid(c) && q.counts == s.users[site.conns[c].net]
    && forall v: nat, targeted: bool :: v < |site.g| ==>
         ReckonsAt(site, s, tries, c, Get(changes[v], batch), q, v, targeted)
  }

  lemma SyncReckons(site: Site, s: State, tries: seq<Event>, c: nat, inc: Users, dec0: Users, dec: Users,
                    changes: seq<Change>, batch: int)
    requires site.Valid() && Shaped(site.D(), s) && Tries(site.D(), tries) && c < |site.conns| && !InTries(tries, c)
    requires NetNotes(site.D(), s, tries, site.conns[c].net, inc, dec0) && Adds(dec0, Held(site.D(), s, c), dec)
    requires Covered(s.users[site.conns[c].net], dec) && |changes| == |site.g|
    ensures Reckons(site, s, tries, c, changes, batch, SyncQuery(site, s, c, inc, dec, changes, batch))
  {
    var q := SyncQuery(site, s, c, inc, dec, changes, batch);
    forall v: nat, targeted: bool | v < |site.g|
      ensures ReckonsAt(site, s, tries, c, Get(changes[v], batch), q, v, targeted)
    {
      SyncReckonsAt(site, s, tries, c, inc, dec0, dec, changes, batch, v, targeted);
    }
  }

  lemma SyncReckonsAt(site: Site, s: State, tries: seq<Event>, c: nat, inc: Users, dec0: Users, dec: Users,
                      changes: seq<Change>, batch: int, v: nat, targeted: bool)
    requires site.Valid() && Shaped(site.D(), s) && Tries(site.D(), tries) && c < |site.conns| && !InTries(tries, c)
    requires NetNotes(site.D(), s, tries, site.conns[c].net, inc, dec0) && Adds(dec0, Held(site.D(), s, c), dec)
    requires Covered(s.users[site.conns[c].net], dec) && |changes| == |site.g| && v < |site.g|
    ensures ReckonsAt(site, s, tries, c, Get(changes[v], batch), SyncQuery(site, s, c, inc, dec, changes, batch), v,
                      targeted)
  {
    var n, q := site.conns[c].net, SyncQuery(site, s, c, inc, dec, changes, batch);
    var b := BooksOf(s, n);
    var u := SyncUse(b.users, inc, dec, changes, batch, v);
    NotesAreCounts(site.D(), s, tries, c, inc, dec0, dec, v);
    assert Cnt(dec, v) <= Cnt(s.users[n], v) && Cnt(inc, v) >= 0;
    SyncCongestion(site, s, tries, c, u, v);
    assert FiguredBy(site, c, q, b, u, s.factor, v, targeted);
    UseCharges(site, c, q, b, u, s.factor, v, targeted,
               SeenCongestion(site.D(), s, tries, c, Get(changes[v], batch), v));
  }

  lemma SyncCongestion(site: Site, s: State, tries: seq<Event>, c: nat, u: Cost.NetUse, v: nat)
    requires site.Valid() && Shaped(site.D(), s) && Tries(site.D(), tries) && c < |site.conns| && v < |site.g|
    requires u.count == CountThen(site.D(), s, tries, c, v) >= 0 && u.countOrigin == Cnt(s.users[site.conns[c].net], v)
    ensures Cost.PresentPart(FiguresOf(site, BooksOf(s, site.conns[c].net), v), u, s.factor) ==
            SeenCongestion(site.D(), s, tries, c, u.occChange, v)
  {
    var f := FiguresOf(site, BooksOf(s, site.conns[c].net), v);
    if u.count != 0 {
      var arrived := if u.countOrigin == 0 then 1 else 0;
      assert Cost.OverOccupancy(f, u) == s.occ[v] + arrived + u.occChange - 1;
    }
  }

  /** The answer of a try is one to a query that reckons so. */
  ghost predicate SyncAnswer(site: Site, s: State, tries: seq<Event>, c: nat, changes: seq<Change>, batch: int,
                             table: seq<NodeInfo>, q: Query, answer: seq<nat>) {
    && Reckons(site, s, tries, c, changes, batch, q) && |table| == |site.g|
    && Answers(site, q, c, table, if answer == [] then NotFound else Found, answer)
  }

  // The lag behind rerouting one after another

  /** With the books of the barrier in step, the congestion seen is that of the other nets there, and a lag. */
  lemma CongestionSeen(d: Design, s: State, tries: seq<Event>, c: nat, change: int, v: nat)
    requires Shaped(d, s) && Tries(d, tries) && c < |d.conns| && v < d.nodes && TalliedAt(d, s, v)
    requires Cnt(s.users[d.conns[c].net], v) >= 0
    ensures var n := d.conns[c].net;
      SeenCongestion(d, s, tries, c, change, v) ==
      Crowded(|Others(s.users, n, v)| + (if CountThen(d, s, tries, c, v) == 0 then Member(s.users[n], v) else change),
              s.factor)
  {
    var n := d.conns[c].net;
    TalliedPresent(d, s, v);
    OthersCount(s.users, n, v);
    assert PositiveAt(s.users[n], v);
  }

  /** Rerouting one after another keeps books in step in step, up to the rip-up of c. */
  lemma ThenTallied(d: Design, s: State, tries: seq<Event>, c: nat, v: nat)
    requires Shaped(d, s) && Tries(d, tries) && c < |d.conns| && v < d.nodes && !InTries(tries, c)
    requires TalliedAt(d, s, v) && Tries(d, tries + [Try(c, [])]) && CoveredAt(d, s, tries + [Try(c, [])], v)
    ensures TalliedAt(d, RipUp(d, Run(d, s, tries), c), v)
  {
    var more := tries + [Try(c, [])];
    assert more[..|tries|] == tries;
    CoveredBefore(d, s, more, v);
    RunTallied(d, s, tries, v);
    assert PositiveAt(Run(d, s, tries).users[d.conns[c].net], v);
    HeldStillCounted(d, s, more, v);
    RipUpKeepsTally(d, Run(d, s, tries), c, v);
  }

  /** Rerouting one after another, the next search charges by the other nets that are at the node by then. */
  lemma ThenCharges(site: Site, s: State, tries: seq<Event>, c: nat, v: nat, targeted: bool)
    requires site.Valid() && Shaped(site.D(), s) && Tries(site.D(), tries) && c < |site.conns| && v < |site.g|
    requires !InTries(tries, c) && TalliedAt(site.D(), s, v) && Tries(site.D(), tries + [Try(c, [])])
    requires CoveredAt(site.D(), s, tries + [Try(c, [])], v)
    ensures var t := RipUp(site.D(), Run(site.D(), s, tries), c);
            Charges(site, c, PlainQuery(site, t, c), v, targeted, CountThen(site.D(), s, tries, c, v),
                    Crowded(|Others(t.users, site.conns[c].net, v)|, s.factor))
  {
    var t := RipUp(site.D(), Run(site.D(), s, tries), c);
    ThenTallied(site.D(), s, tries, c, v);
    SameFactor(site.D(), s, tries, c);
    PlainCharges(site, t, c, v, targeted);
  }

  /**
   The search of the batch charges by the same count. Its congestion differs by the factor for
   every net by which the thread's number misses the change among the other nets; at a node
   that the net has left, the number is not read, and the net still counts itself if it was
   there at the barrier.
   */
  lemma BatchLag(site: Site, s: State, tries: seq<Event>, c: nat, changes: seq<Change>, batch: int, q: Query, v: nat,
                 targeted: bool)
    requires Reckons(site, s, tries, c, changes, batch, q) && v < |site.g| && TalliedAt(site.D(), s, v)
    ensures var n, t := site.conns[c].net, RipUp(site.D(), Run(site.D(), s, tries), c);
      var count, moved := CountThen(site.D(), s, tries, c, v), |Others(t.users, n, v)| - |Others(s.users, n, v)|;
      var noted := if count == 0 then Member(s.users[n], v) else Get(changes[v], batch);
      Charges(site, c, q, v, targeted, count, Crowded(|Others(t.users, n, v)| + noted - moved, s.factor))
  {
    assert PositiveAt(s.users[site.conns[c].net], v);
    CongestionSeen(site.D(), s, tries, c, Get(changes[v], batch), v);
    assert ReckonsAt(site, s, tries, c, Get(changes[v], batch), q, v, targeted);
  }

  lemma SameFactor(d: Design, s: State, tries: seq<Event>, c: nat)
    requires Shaped(d, s) && Tries(d, tries) && c < |d.conns|
    ensures RipUp(d, Run(d, s, tries), c).factor == s.factor
  {
    SyncBatch.SamePaths(d, s, tries);
  }

  /** A thread that began the batch with old numbers has noted the shifts of the nets it has finished, and no more. */
  lemma NumbersAddUp(table: seq<Change>, changes: seq<Change>, batch: int, before: seq<seq<nat>>,
                     after: seq<seq<nat>>, lists: seq<seq<nat>>, done: seq<nat>, v: nat)
    requires ShiftsNoted(table, changes, batch, before, after, lists, done) && Earlier(table, batch) && v < |changes|
    ensures Get(changes[v], batch) == ShiftSum(before, after, lists, done, v)
  {
    assert table[v].stamp < batch;
  }
}
