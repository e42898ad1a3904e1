/**
 Schedules of parallel tasks. A schedule names who moves at each step; the k-th
 time a task is named it performs its k-th action.
 */
module Interleaving {
  import opened Counting

  /** The schedule names only the n tasks there are. */
  predicate Names(schedule: seq<nat>, n: nat) { forall i :: 0 <= i < |schedule| ==> schedule[i] < n }

  /** No task is named more often than it has actions. */
  ghost predicate Fits<A>(tasks: seq<seq<A>>, schedule: seq<nat>) {
    Names(schedule, |tasks|) && forall t: nat :: t < |tasks| ==> Count(schedule, t) <= |tasks[t]|
  }

  /** Every task has performed all of its actions. */
  ghost predicate Complete<A>(tasks: seq<seq<A>>, schedule: seq<nat>) {
    Names(schedule, |tasks|) && forall t: nat :: t < |tasks| ==> Count(schedule, t) == |tasks[t]|
  }

  lemma FitsFront<A>(tasks: seq<seq<A>>, schedule: seq<nat>)
    requires Fits(tasks, schedule) && |schedule| > 0
    ensures var front, t := schedule[..|schedule| - 1], schedule[|schedule| - 1];
            Fits(tasks, front) && Count(front, t) < |tasks[t]|
  {
    var front, t := schedule[..|schedule| - 1], schedule[|schedule| - 1];
    assert Count(schedule, t) <= |tasks[t]|;
    forall u: nat | u < |tasks| ensures Count(front, u) <= |tasks[u]| {
      assert Count(schedule, u) <= |tasks[u]|;
    }
  }

  /** The actions in the order in which the schedule performs them. */
  ghost function Merge<A>(tasks: seq<seq<A>>, schedule: seq<nat>): seq<A>
    requires Fits(tasks, schedule)
  {
    if |schedule| == 0 then []
    else
      var front, t := schedule[..|schedule| - 1], schedule[|schedule| - 1];
      FitsFront(tasks, schedule);
      Merge(tasks, front) + [tasks[t][Count(front, t)]]
  }

  /** What each task has performed so far. */
  ghost function Progress<A>(tasks: seq<seq<A>>, schedule: seq<nat>): (r: seq<seq<A>>)
    requires Fits(tasks, schedule)
    ensures |r| == |tasks|
  {
    seq(|tasks|, t requires 0 <= t < |tasks| => tasks[t][..Count<nat>(schedule, t)])
  }

  lemma {:induction false} NothingYet<A>(tasks: seq<seq<A>>, a: A)
    requires forall t: nat :: t < |tasks| ==> tasks[t] == []
    ensures Total(tasks, a) == 0
  {
    if |tasks| > 0 { NothingYet(tasks[..|tasks| - 1], a); }
  }

  lemma {:induction false} MergeCounts<A>(tasks: seq<seq<A>>, schedule: seq<nat>, a: A)
    requires Fits(tasks, schedule)
    ensures Count(Merge(tasks, schedule), a) == Total(Progress(tasks, schedule), a)
  {
    if |schedule| == 0 {
      NothingYet(Progress(tasks, schedule), a);
    } else {
      var front, t := schedule[..|schedule| - 1], schedule[|schedule| - 1];
      FitsFront(tasks, schedule);
      MergeCounts(tasks, front, a);
      var k, before := Count(front, t), Progress(tasks, front);
      assert tasks[t][..k + 1] == tasks[t][..k] + [tasks[t][k]];
      CountSnoc(tasks[t][..k], tasks[t][k], a);
      TotalChange(before, t, tasks[t][..k + 1], a);
      assert Progress(tasks, schedule) == before[t := tasks[t][..k + 1]];
      CountSnoc(Merge(tasks, front), tasks[t][k], a);
    }
  }

  /** Every complete schedule performs each action as often as the tasks do, in whatever order. */
  lemma CompleteCounts<A>(tasks: seq<seq<A>>, schedule: seq<nat>, a: A)
    requires Complete(tasks, schedule)
    ensures Fits(tasks, schedule) && Count(Merge(tasks, schedule), a) == Total(tasks, a)
  {
    MergeCounts(tasks, schedule, a);
    forall t: nat | t < |tasks| ensures tasks[t][..Count(schedule, t)] == tasks[t] { }
    assert Progress(tasks, schedule) == tasks;
  }

  // Tasks on shared memory

  /** The memory after each scheduled task has moved in turn. */
  function Play<M>(step: (M, nat) -> M, m: M, schedule: seq<nat>): M {
    if |schedule| == 0 then m else step(Play(step, m, schedule[..|schedule| - 1]), schedule[|schedule| - 1])
  }

  /** The memory after k moves of task t alone. */
  function Alone<M>(step: (M, nat) -> M, m: M, t: nat, k: nat): M {
    if k == 0 then m else step(Alone(step, m, t, k - 1), t)
  }

  /** All states that moves can lead to are good. */
  ghost predicate Closed<M(!new)>(step: (M, nat) -> M, good: M -> bool, n: nat) {
    forall m, t: nat :: good(m) && t < n ==> good(step(m, t))
  }

  /** A move of a task is decided by its own part of the memory. */
  ghost predicate OwnMoves<M(!new)>(step: (M, nat) -> M, good: M -> bool, agree: (nat, M, M) -> bool, n: nat) {
    forall a, b, t: nat :: good(a) && good(b) && t < n && agree(t, a, b) ==> agree(t, step(a, t), step(b, t))
  }

  /** A move of a task leaves the other tasks' parts alone. */
  ghost predicate NoMeddling<M(!new)>(step: (M, nat) -> M, good: M -> bool, agree: (nat, M, M) -> bool, n: nat) {
    forall a, b, t: nat, u: nat :: good(a) && good(b) && t < n && u < n && t != u && agree(t, a, b) ==>
      agree(t, step(a, u), b)
  }

  /** The tasks keep to separate parts of the memory; agree compares the part of one task. */
  ghost predicate Separate<M(!new)>(step: (M, nat) -> M, good: M -> bool, agree: (nat, M, M) -> bool, n: nat) {
    && Closed(step, good, n) && OwnMoves(step, good, agree, n) && NoMeddling(step, good, agree, n)
    && forall m, t: nat :: good(m) && t < n ==> agree(t, m, m)
  }

  lemma {:induction false} PlayIsGood<M(!new)>(step: (M, nat) -> M, good: M -> bool, n: nat, m: M, schedule: seq<nat>)
    requires Closed(step, good, n) && good(m) && Names(schedule, n)
    ensures good(Play(step, m, schedule))
  {
    if |schedule| > 0 { PlayIsGood(step, good, n, m, schedule[..|schedule| - 1]); }
  }

  lemma {:induction false} AloneIsGood<M(!new)>(step: (M, nat) -> M, good: M -> bool, n: nat, m: M, t: nat, k: nat)
    requires Closed(step, good, n) && good(m) && t < n
    ensures good(Alone(step, m, t, k))
  {
    if k > 0 { AloneIsGood(step, good, n, m, t, k - 1); }
  }

  /** What a move of task t keeps holds as long as it moves alone. */
  lemma {:induction false} AloneKeeps<M(!new)>(step: (M, nat) -> M, m: M, t: nat, k: nat, kept: M -> bool)
    requires kept(m) && forall x :: kept(x) ==> kept(step(x, t))
    ensures kept(Alone(step, m, t, k))
  {
    if k > 0 { AloneKeeps(step, m, t, k - 1, kept); }
  }

  lemma {:induction false} AloneShift<M>(step: (M, nat) -> M, m: M, t: nat, k: nat)
    ensures Alone(step, step(m, t), t, k) == Alone(step, m, t, k + 1)
  {
    if k > 0 { AloneShift(step, m, t, k - 1); }
  }

  /** In any schedule a task goes through the same moves as if it ran alone. */
  lemma {:induction false} AsIfAlone<M(!new)>(step: (M, nat) -> M, good: M -> bool, agree: (nat, M, M) -> bool, n: nat,
                                              m: M, schedule: seq<nat>, t: nat)
    requires Separate(step, good, agree, n) && good(m) && Names(schedule, n) && t < n
    ensures agree(t, Play(step, m, schedule), Alone(step, m, t, Count(schedule, t)))
  {
    if |schedule| > 0 {
      var front := schedule[..|schedule| - 1];
      AsIfAlone(step, good, agree, n, m, front, t);
      PlayIsGood(step, good, n, m, front);
      AloneIsGood(step, good, n, m, t, Count(front, t));
    }
  }

  /** A task at rest does not move, and whether it rests is decided by its own part. */
  ghost predicate Rests<M(!new)>(step: (M, nat) -> M, agree: (nat, M, M) -> bool, rest: (M, nat) -> bool, n: nat) {
    && (forall m, t: nat :: t < n && rest(m, t) ==> step(m, t) == m)
    && (forall a, b, t: nat :: t < n && agree(t, a, b) ==> (rest(a, t) <==> rest(b, t)))
  }

  lemma {:induction false} RestLasts<M>(step: (M, nat) -> M, m: M, t: nat, j: nat, k: nat)
    requires j <= k && step(Alone(step, m, t, j), t) == Alone(step, m, t, j)
    ensures Alone(step, m, t, k) == Alone(step, m, t, j)
  {
    if j < k { RestLasts(step, m, t, j, k - 1); }
  }

  /** A task that two schedules bring to rest ends up in the same place, the one it reaches alone. */
  lemma SameEnd<M(
                  !new)>(step: (M, nat) -> M, good: M -> bool, agree: (nat, M, M) -> bool, rest: (M, nat) -> bool,
                         n: nat, m: M, a: seq<nat>, b: seq<nat>, t: nat)
    requires Separate(step, good, agree, n) && Rests(step, agree, rest, n) && good(m) && Names(a, n) && Names(b, n)
    requires t < n
    requires rest(Play(step, m, a), t) && rest(Play(step, m, b), t)
    ensures Alone(step, m, t, Count(a, t)) == Alone(step, m, t, Count(b, t))
  {
    AsIfAlone(step, good, agree, n, m, a, t);
    AsIfAlone(step, good, agree, n, m, b, t);
    var j, k := Count(a, t), Count(b, t);
    if j <= k { RestLasts(step, m, t, j, k); } else { RestLasts(step, m, t, k, j); }
  }

  // One task after another

  /** Task t named k times. */
  function Times(t: nat, k: nat): (s: seq<nat>)
    ensures |s| == k && forall i :: 0 <= i < k ==> s[i] == t
  {
    seq(k, _ => t)
  }

  /** The first n tasks one after another, each as often as the schedule names it. */
  function InOrder(schedule: seq<nat>, n: nat): seq<nat> {
    if n == 0 then [] else InOrder(schedule, n - 1) + Times(n - 1, Count<nat>(schedule, n - 1))
  }

  lemma {:induction false} TimesCount(t: nat, k: nat, u: nat)
    ensures Count(Times(t, k), u) == if u == t then k else 0
  {
    if k > 0 {
      TimesCount(t, k - 1, u);
      assert Times(t, k)[..k - 1] == Times(t, k - 1);
    }
  }

  lemma {:induction false} InOrderCounts(schedule: seq<nat>, n: nat, u: nat)
    ensures Names(InOrder(schedule, n), n)
    ensures Count(InOrder(schedule, n), u) == if u < n then Count(schedule, u) else 0
  {
    if n > 0 {
      InOrderCounts(schedule, n - 1, u);
      TimesCount(n - 1, Count<nat>(schedule, n - 1), u);
      CountAppend(InOrder(schedule, n - 1), Times(n - 1, Count<nat>(schedule, n - 1)), u);
    }
  }

  lemma {:induction false} PlayTimes<M>(step: (M, nat) -> M, m: M, first: seq<nat>, t: nat, k: nat)
    ensures Play(step, m, first + Times(t, k)) == Alone(step, Play(step, m, first), t, k)
  {
    if k == 0 {
      assert first + Times(t, k) == first;
    } else {
      PlayTimes(step, m, first, t, k - 1);
      assert (first + Times(t, k))[..|first| + k - 1] == first + Times(t, k - 1);
    }
  }

  /** In order, thread t takes all its steps alone, from where the threads before it have led. */
  lemma TurnIsAlone<M>(step: (M, nat) -> M, m: M, a: seq<nat>, t: nat, n: nat)
    requires n == t + 1
    ensures Play(step, m, InOrder(a, n)) == Alone(step, Play(step, m, InOrder(a, t)), t, Count(a, t))
  {
    PlayTimes(step, m, InOrder(a, t), t, Count(a, t));
  }

  // Work lists

  /** All lists, one after another. */
  function Flat(lists: seq<seq<nat>>): seq<nat> {
    if |lists| == 0 then [] else Flat(lists[..|lists| - 1]) + lists[|lists| - 1]
  }

  lemma {:induction false} FlatPrefix(lists: seq<seq<nat>>, t: nat)
    requires t <= |lists|
    ensures Flat(lists[..t]) <= Flat(lists)
  {
    if t < |lists| {
      FlatPrefix(lists[..|lists| - 1], t);
      assert lists[..|lists| - 1][..t] == lists[..t];
    } else {
      assert lists[..t] == lists;
    }
  }

  lemma FlatStep(lists: seq<seq<nat>>, t: nat)
    requires t < |lists| && NoRepeat(Flat(lists))
    ensures Flat(lists[..t + 1]) == Flat(lists[..t]) + lists[t]
    ensures NoRepeat(Flat(lists[..t]) + lists[t])
    ensures forall k :: 0 <= k < |lists[t]| ==> lists[t][k] in Flat(lists)
  {
    assert lists[..t + 1][..t] == lists[..t];
    FlatPrefix(lists, t + 1);
    var f := Flat(lists[..t]) + lists[t];
    forall i | 0 <= i < |f| ensures f[i] == Flat(lists)[i] { }
    forall k | 0 <= k < |lists[t]| ensures lists[t][k] in Flat(lists) {
      assert f[|Flat(lists[..t])| + k] == lists[t][k];
    }
  }

  lemma FlatBelow(lists: seq<seq<nat>>, t: nat, n: nat)
    requires t < |lists| && NoRepeat(Flat(lists)) && forall i :: 0 <= i < |Flat(lists)| ==> Flat(lists)[i] < n
    ensures forall k :: 0 <= k < |lists[t]| ==> lists[t][k] < n
  {
    FlatStep(lists, t);
    forall k | 0 <= k < |lists[t]| ensures lists[t][k] < n { assert lists[t][k] in Flat(lists); }
  }

  lemma {:induction false} FlatPlace(lists: seq<seq<nat>>, t: nat, k: nat) returns (i: nat)
    requires t < |lists| && k < |lists[t]|
    ensures |Flat(lists[..t])| <= i < |Flat(lists[..t + 1])| && i < |Flat(lists)| && Flat(lists)[i] == lists[t][k]
  {
    var last := |lists| - 1;
    assert lists[..t + 1][..t] == lists[..t];
    i := |Flat(lists[..t])| + k;
    FlatPrefix(lists, t + 1);
    assert Flat(lists[..t + 1])[i] == lists[t][k];
  }

  /** Lists that repeat nothing, taken together, share nothing. */
  lemma FlatApart(lists: seq<seq<nat>>, t: nat, u: nat)
    requires NoRepeat(Flat(lists)) && t < |lists| && u < |lists| && t != u
    ensures forall k :: 0 <= k < |lists[t]| ==> lists[t][k] !in lists[u]
  {
    forall k | 0 <= k < |lists[t]| ensures lists[t][k] !in lists[u] {
      if lists[t][k] in lists[u] {
        var j :| 0 <= j < |lists[u]| && lists[u][j] == lists[t][k];
        var a := FlatPlace(lists, t, k);
        var b := FlatPlace(lists, u, j);
        if t < u { FlatPrefixes(lists, t + 1, u); } else { FlatPrefixes(lists, u + 1, t); }
      }
    }
  }

  lemma FlatPrefixes(lists: seq<seq<nat>>, a: nat, b: nat)
    requires a <= b <= |lists|
    ensures |Flat(lists[..a])| <= |Flat(lists[..b])|
  {
    FlatPrefix(lists[..b], a);
    assert lists[..b][..a] == lists[..a];
  }
}
