/**
 When a batch gets past the assertion of Net::preDecrementUser (src/db/connection.h, lines
 78-85): its routing phase rips up exactly the connections of its nets that need routing, so
 that paths, flags and failures at the barrier decide it.
 */
module BatchCover {
  import opened Ledger
  import opened Congestion
  import opened Convergence
  import opened SyncBatch
  import opened BatchOutcome

  /** The tries of net n are of connections that needed routing when the batch began. */
  ghost predicate NeededBy(d: Design, s: State, tries: seq<Event>, n: nat)
    requires Shaped(d, s) && Tries(d, tries)
  {
    forall i :: 0 <= i < |tries| && d.conns[tries[i].conn].net == n ==> ShouldRoute(d, s, tries[i].conn)
  }

  /** What those of the first k connections that belong to net n and need routing hold at v. */
  ghost function NeedSum(d: Design, s: State, n: nat, v: nat, k: nat): nat
    requires Shaped(d, s) && k <= |d.conns|
  {
    if k == 0 then 0
    else
      NeedSum(d, s, n, v, k - 1) +
      (if d.conns[k - 1].net == n && ShouldRoute(d, s, k - 1) then Load(d, s, k - 1, v) else 0)
  }

  /** What the others of the net hold. */
  ghost function KeepSum(d: Design, s: State, n: nat, v: nat, k: nat): nat
    requires Shaped(d, s) && k <= |d.conns|
  {
    if k == 0 then 0
    else
      KeepSum(d, s, n, v, k - 1) +
      (if d.conns[k - 1].net == n && !ShouldRoute(d, s, k - 1) then Load(d, s, k - 1, v) else 0)
  }

  lemma {:induction false} NeedPlusKeep(d: Design, s: State, n: nat, v: nat, k: nat)
    requires Shaped(d, s) && k <= |d.conns|
    ensures NeedSum(d, s, n, v, k) + KeepSum(d, s, n, v, k) == LoadSum(d, s, n, v, k)
  {
    if k > 0 { NeedPlusKeep(d, s, n, v, k - 1); }
  }

  /** At some node net n has to give up more than it counts. */
  ghost predicate ShortAt(d: Design, s: State, n: nat, v: nat)
    requires Shaped(d, s) && n < d.nets
  {
    NeedSum(d, s, n, v, |d.conns|) > 0 && NeedSum(d, s, n, v, |d.conns|) > Cnt(s.users[n], v)
  }

  ghost predicate Short(d: Design, s: State, n: nat)
    requires Shaped(d, s) && n < d.nets
  {
    exists v: nat :: ShortAt(d, s, n, v)
  }

  /**
   A net is short at v exactly if its connections that need routing hold v, and failed
   searches have lost v more often than its other connections use it.
   */
  lemma ShortExactly(d: Design, s: State, n: nat, v: nat)
    requires CountLaw(d, s) && n < d.nets
    ensures ShortAt(d, s, n, v) <==>
            NeedSum(d, s, n, v, |d.conns|) > 0 && LostBy(d, s, n, v) > KeepSum(d, s, n, v, |d.conns|)
  {
    NeedPlusKeep(d, s, n, v, |d.conns|);
  }

  /** Without a failed search no net is ever short. */
  lemma NoLossNotShort(d: Design, s: State, n: nat)
    requires Exact(d, s) && n < d.nets
    ensures !Short(d, s, n)
  {
    forall v: nat ensures !ShortAt(d, s, n, v) {
      ShortExactly(d, s, n, v);
      NothingLost(d, s, n, v, |d.conns|);
    }
  }

  lemma {:induction false} RestIsKept(d: Design, s: State, tries: seq<Event>, n: nat, v: nat, k: nat)
    requires Shaped(d, s) && k <= |d.conns|
    requires forall c: nat :: c < |d.conns| && d.conns[c].net == n && InTries(tries, c) ==> ShouldRoute(d, s, c)
    ensures RestSum(d, s, tries, n, v, k) >= KeepSum(d, s, n, v, k)
    ensures Visited(d, s, tries, n) ==> RestSum(d, s, tries, n, v, k) == KeepSum(d, s, n, v, k)
  {
    if k > 0 { RestIsKept(d, s, tries, n, v, k - 1); }
  }

  /** What the net notes is at most what it has to give up, and all of it once the net is visited. */
  lemma NotedOfNeed(d: Design, s: State, tries: seq<Event>, n: nat, v: nat)
    requires Shaped(d, s) && Tries(d, tries) && NeededBy(d, s, tries, n)
    ensures DecOf(d, s, tries, n, v) <= NeedSum(d, s, n, v, |d.conns|)
    ensures Visited(d, s, tries, n) ==> DecOf(d, s, tries, n, v) == NeedSum(d, s, n, v, |d.conns|)
  {
    NotedPlusRest(d, s, tries, n, v);
    RestIsKept(d, s, tries, n, v, |d.conns|);
    NeedPlusKeep(d, s, n, v, |d.conns|);
  }

  /** A visited net whose decrements were all covered is not short. */
  lemma CoveredNotShort(d: Design, s: State, tries: seq<Event>, n: nat)
    requires Shaped(d, s) && Tries(d, tries) && n < d.nets && NeededBy(d, s, tries, n) && Visited(d, s, tries, n)
    requires forall v: nat :: DecOf(d, s, tries, n, v) <= Cnt(s.users[n], v)
    ensures !Short(d, s, n)
  {
    forall v: nat ensures !ShortAt(d, s, n, v) { NotedOfNeed(d, s, tries, n, v); }
  }

  /** A net that has noted too much is short. */
  lemma OverdrawnIsShort(d: Design, s: State, tries: seq<Event>, n: nat, v: nat)
    requires Shaped(d, s) && Tries(d, tries) && n < d.nets && NeededBy(d, s, tries, n)
    requires DecOf(d, s, tries, n, v) > 0 && DecOf(d, s, tries, n, v) > Cnt(s.users[n], v)
    ensures Short(d, s, n)
  {
    NotedOfNeed(d, s, tries, n, v);
    assert ShortAt(d, s, n, v);
  }

  /** None of the nets is short: what decides before a batch whether it gets past the assertion. */
  ghost predicate NoneShort(d: Design, s: State, nets: seq<nat>)
    requires Shaped(d, s)
  {
    forall n: nat :: n < d.nets && n in nets ==> !Short(d, s, n)
  }
}
