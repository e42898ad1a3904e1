/**
 The two families of stamps that let a run reuse its tables without clearing them:
 connection stamps (aStarRoute.cpp lines 72 and 481) and batch stamps
 (stableFirstRouting.cpp line 23).
 */
module Stamps {

  /** connectionIdBase in iteration k, given how many connections each iteration routed. */
  function Base(first: nat, routed: seq<nat>, k: nat): nat
    requires k <= |routed|
  {
    if k == 0 then first else Base(first, routed, k - 1) + routed[k - 1] + 1
  }

  /** connectionUniqueId of a connection in iteration k. */
  function UniqueId(first: nat, routed: seq<nat>, k: nat, conn: nat): nat
    requires k <= |routed|
  {
    conn + Base(first, routed, k)
  }

  lemma {:induction false} BaseGrows(first: nat, routed: seq<nat>, k: nat, l: nat)
    requires k < l <= |routed|
    ensures Base(first, routed, k) + routed[k] + 1 <= Base(first, routed, l)
  {
    if k + 1 < l { BaseGrows(first, routed, k, l - 1); }
  }

  /** sets[k] are the connections that iteration k routed, as many as routed[k] says. */
  ghost predicate RoutedSets(sets: seq<set<nat>>, routed: seq<nat>, n: nat) {
    |sets| == |routed| && forall k :: 0 <= k < |routed| ==> RoutedSet(sets[k], routed[k], n)
  }

  predicate RoutedSet(conns: set<nat>, size: nat, n: nat) { |conns| == size && forall c :: c in conns ==> c < n }

  /** No stamp was used in two iterations. */
  ghost predicate UsedApart(first: nat, routed: seq<nat>, sets: seq<set<nat>>)
    requires |sets| == |routed|
  {
    forall k, l, c, e :: 0 <= k < l < |routed| && c in sets[k] && e in sets[l] ==>
      UniqueId(first, routed, k, c) != UniqueId(first, routed, l, e)
  }

  /** The bases of two iterations that route something are at least n apart. */
  ghost predicate Spaced(first: nat, routed: seq<nat>, n: nat) {
    forall k, l :: 0 <= k < l < |routed| && routed[k] > 0 && routed[l] > 0 ==>
      Base(first, routed, l) - Base(first, routed, k) >= n
  }

  /** The same for the iteration that comes next. */
  ghost predicate NextSpaced(first: nat, routed: seq<nat>, n: nat) {
    forall k :: 0 <= k < |routed| && routed[k] > 0 ==> Base(first, routed, |routed|) - Base(first, routed, k) >= n
  }

  /** A set of the given size that contains x, and otherwise only numbers below the size. */
  function SetWith(x: nat, size: nat): (s: set<nat>)
    requires size > 0
    ensures x in s && |s| == size && forall c :: c in s ==> c == x || c < size
  {
    if x < size then Firsts(size) else Firsts(size - 1) + {x}
  }

  function Firsts(size: nat): (s: set<nat>)
    ensures |s| == size && forall c: nat :: c in s <==> c < size
  {
    if size == 0 then {} else Firsts(size - 1) + {size - 1}
  }

  /**
   The base grows by the number of connections routed, not by the number there are. Stamps
   that are used stay apart, for every choice of connections of these numbers, if and only if
   the bases of any two iterations that route something are at least n apart.
   */
  lemma UsedStampsApartExactly(first: nat, routed: seq<nat>, n: nat)
    requires forall k :: 0 <= k < |routed| ==> routed[k] <= n
    ensures (forall sets :: RoutedSets(sets, routed, n) ==> UsedApart(first, routed, sets)) <==>
            Spaced(first, routed, n)
  {
    if Spaced(first, routed, n) {
      forall sets | RoutedSets(sets, routed, n)
        ensures UsedApart(first, routed, sets)
      {
        SpacedApart(first, routed, sets, n);
      }
    } else {
      var k, l :| 0 <= k < l < |routed| && routed[k] > 0 && routed[l] > 0 &&
                  Base(first, routed, l) - Base(first, routed, k) < n;
      var sets := CollidingSets(first, routed, n, k, l);
    }
  }

  lemma SpacedApart(first: nat, routed: seq<nat>, sets: seq<set<nat>>, n: nat)
    requires Spaced(first, routed, n) && RoutedSets(sets, routed, n)
    ensures UsedApart(first, routed, sets)
  {
    forall k, l, c, e | 0 <= k < l < |routed| && c in sets[k] && e in sets[l]
      ensures UniqueId(first, routed, k, c) != UniqueId(first, routed, l, e)
    {
      assert RoutedSet(sets[k], routed[k], n) && RoutedSet(sets[l], routed[l], n);
      assert sets[k] != {} && sets[l] != {};
    }
  }

  lemma CollidingSets(first: nat, routed: seq<nat>, n: nat, k: nat, l: nat) returns (sets: seq<set<nat>>)
    requires forall i :: 0 <= i < |routed| ==> routed[i] <= n
    requires k < l < |routed| && routed[k] > 0 && routed[l] > 0 && Base(first, routed, l) - Base(first, routed, k) < n
    ensures RoutedSets(sets, routed, n) && !UsedApart(first, routed, sets)
  {
    BaseGrows(first, routed, k, l);
    var gap := Base(first, routed, l) - Base(first, routed, k);
    sets := seq(|routed|, i requires 0 <= i < |routed| =>
                  if routed[i] == 0 then {} else SetWith(if i == k then gap else 0, routed[i]));
    assert gap in sets[k] && 0 in sets[l];
    assert UniqueId(first, routed, k, gap) == UniqueId(first, routed, l, 0);
  }

  function BatchStamp(iter: nat, numBatches: nat, batch: nat): nat { iter * numBatches + batch }

  lemma {:induction false} NextMultiple(a: nat, b: nat, n: nat)
    requires a < b
    ensures a * n + n <= b * n
  {
    if a + 1 < b {
      NextMultiple(a, b - 1, n);
      assert b * n == (b - 1) * n + n;
    }
  }

  /** Batch stamps strictly increase over the whole run. */
  lemma BatchStampsIncrease(numBatches: nat, iter: nat, batch: nat, iter': nat, batch': nat)
    requires batch < numBatches && batch' < numBatches
    ensures BatchStamp(iter, numBatches, batch) < BatchStamp(iter', numBatches, batch') <==>
            iter < iter' || (iter == iter' && batch < batch')
  {
    if iter < iter' {
      NextMultiple(iter, iter', numBatches);
    } else if iter' < iter {
      NextMultiple(iter', iter, numBatches);
    }
  }
}
