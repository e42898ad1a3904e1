/**
 Which stamps the tables hold after some iterations (src/route/aStarRoute.cpp, lines 72 and
 481), and when those of the next iteration are still unused.
 */
module StampAccount {
  import opened Search
  import opened Stamps
  import opened IterationLog

  /** Every stamp in the table is none, or one that an iteration before used. */
  ghost predicate Inscribed(first: nat, numbers: seq<nat>, sets: seq<set<nat>>, table: seq<NodeInfo>)
    requires |sets| == |numbers|
  {
    forall v :: 0 <= v < |table| ==>
      UsedStamp(first, numbers, sets, table[v].isVisited) && UsedStamp(first, numbers, sets, table[v].isTarget)
  }

  ghost predicate UsedStamp(first: nat, numbers: seq<nat>, sets: seq<set<nat>>, stamp: int)
    requires |sets| == |numbers|
  {
    stamp == -1 || exists k :: 0 <= k < |numbers| && IsStampOf(Base(first, numbers, k), sets[k], stamp)
  }

  predicate IsStampOf(base: nat, conns: set<nat>, stamp: int) { stamp >= base && stamp - base in conns }

  /** If the bases are far enough apart, the table holds none of the next iteration's stamps. */
  lemma SpacedIsSpare(first: nat, numbers: seq<nat>, sets: seq<set<nat>>, n: nat, order: seq<nat>, table: seq<NodeInfo>)
    requires RoutedSets(sets, numbers, n) && Inscribed(first, numbers, sets, table) && NextSpaced(first, numbers, n)
    requires forall i :: 0 <= i < |order| ==> order[i] < n
    ensures Spare(order, 0, Base(first, numbers, |numbers|), table)
  {
    var base := Base(first, numbers, |numbers|);
    forall j, v | 0 <= j < |order| && 0 <= v < |table|
      ensures table[v].isVisited != order[j] + base && table[v].isTarget != order[j] + base
    {
      assert UsedStamp(first, numbers, sets, table[v].isVisited) && UsedStamp(first, numbers, sets, table[v].isTarget);
      NotNext(first, numbers, sets, n, table[v].isVisited, order[j]);
      NotNext(first, numbers, sets, n, table[v].isTarget, order[j]);
    }
  }

  lemma NotNext(first: nat, numbers: seq<nat>, sets: seq<set<nat>>, n: nat, stamp: int, c: nat)
    requires RoutedSets(sets, numbers, n) && NextSpaced(first, numbers, n) && UsedStamp(first, numbers, sets, stamp)
    ensures stamp != c + Base(first, numbers, |numbers|)
  {
    if stamp != -1 {
      var k :| 0 <= k < |numbers| && IsStampOf(Base(first, numbers, k), sets[k], stamp);
      assert RoutedSet(sets[k], numbers[k], n) && sets[k] != {};
    }
  }

  lemma NextNumbers(first: nat, numbers: seq<nat>, sets: seq<set<nat>>, n: nat, tried: set<nat>, count: nat,
                    table: seq<NodeInfo>, after: seq<NodeInfo>)
    requires RoutedSets(sets, numbers, n) && RoutedSet(tried, count, n) && Inscribed(first, numbers, sets, table)
    requires StampedBy(table, after, Base(first, numbers, |numbers|), tried)
    ensures RoutedSets(sets + [tried], numbers + [count], n)
    ensures Inscribed(first, numbers + [count], sets + [tried], after)
    ensures Base(first, numbers + [count], |numbers| + 1) == Base(first, numbers, |numbers|) + count + 1
    ensures Spaced(first, numbers + [count], n) ==>
      Spaced(first, numbers, n) && (count == 0 || NextSpaced(first, numbers, n))
  {
    var numbers', sets' := numbers + [count], sets + [tried];
    forall k | 0 <= k <= |numbers|
      ensures Base(first, numbers', k) == Base(first, numbers, k)
    {
      SameBase(first, numbers, numbers', k);
    }
    forall v | 0 <= v < |after|
      ensures UsedStamp(first, numbers', sets', after[v].isVisited)
      ensures UsedStamp(first, numbers', sets', after[v].isTarget)
    {
      StillUsed(first, numbers, sets, count, tried, table[v].isVisited, after[v].isVisited);
      StillUsed(first, numbers, sets, count, tried, table[v].isTarget, after[v].isTarget);
    }
    if Spaced(first, numbers', n) { SpacedBefore(first, numbers, numbers', n); }
  }

  /** Spacing of the first iterations. */
  lemma SpacedTake(first: nat, numbers: seq<nat>, n: nat, k: nat)
    requires Spaced(first, numbers, n) && k <= |numbers|
    ensures Spaced(first, numbers[..k], n)
  {
    forall i, j | 0 <= i < j < k && numbers[..k][i] > 0 && numbers[..k][j] > 0
      ensures Base(first, numbers[..k], j) - Base(first, numbers[..k], i) >= n
    {
      SameBase(first, numbers[..k], numbers, i);
      SameBase(first, numbers[..k], numbers, j);
      assert numbers[i] > 0 && numbers[j] > 0;
    }
  }

  /** Spacing one iteration earlier. */
  lemma SpacedBefore(first: nat, numbers: seq<nat>, more: seq<nat>, n: nat)
    requires |more| == |numbers| + 1 && more[..|numbers|] == numbers && Spaced(first, more, n)
    ensures Spaced(first, numbers, n) && (more[|numbers|] == 0 || NextSpaced(first, numbers, n))
  {
    forall k | 0 <= k <= |numbers|
      ensures Base(first, more, k) == Base(first, numbers, k)
    {
      SameBase(first, numbers, more, k);
    }
    forall k, l | 0 <= k < l < |numbers| && numbers[k] > 0 && numbers[l] > 0
      ensures Base(first, numbers, l) - Base(first, numbers, k) >= n
    {
      assert more[k] == numbers[k] && more[l] == numbers[l];
    }
    if more[|numbers|] > 0 {
      forall k | 0 <= k < |numbers| && numbers[k] > 0
        ensures Base(first, numbers, |numbers|) - Base(first, numbers, k) >= n
      {
        assert more[k] == numbers[k];
      }
    }
  }

  lemma StillUsed(first: nat, numbers: seq<nat>, sets: seq<set<nat>>, count: nat, tried: set<nat>, before: int,
                  after: int)
    requires |sets| == |numbers| && UsedStamp(first, numbers, sets, before)
    requires StampOk(before, after, Base(first, numbers, |numbers|), tried)
    ensures UsedStamp(first, numbers + [count], sets + [tried], after)
  {
    var numbers', sets' := numbers + [count], sets + [tried];
    if after == before && after != -1 {
      var k :| 0 <= k < |numbers| && IsStampOf(Base(first, numbers, k), sets[k], before);
      SameBase(first, numbers, numbers', k);
      assert IsStampOf(Base(first, numbers', k), sets'[k], after);
    } else if after != -1 {
      SameBase(first, numbers, numbers', |numbers|);
      assert IsStampOf(Base(first, numbers', |numbers|), sets'[|numbers|], after);
    }
  }

  lemma {:induction false} SameBase(first: nat, numbers: seq<nat>, longer: seq<nat>, k: nat)
    requires k <= |numbers| <= |longer| && longer[..|numbers|] == numbers
    ensures Base(first, longer, k) == Base(first, numbers, k)
  {
    if k > 0 {
      SameBase(first, numbers, longer, k - 1);
      assert longer[k - 1] == longer[..|numbers|][k - 1];
    }
  }
}
