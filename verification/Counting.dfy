/** Occurrence counts in sequences, shared by the bookkeeping and scheduling proofs. */
module Counting {

  function Count<T(==)>(s: seq<T>, x: T): nat {
    if |s| == 0 then 0 else Count(s[..|s| - 1], x) + (if s[|s| - 1] == x then 1 else 0)
  }

  lemma CountSnoc<T>(s: seq<T>, y: T, x: T)
    ensures Count(s + [y], x) == Count(s, x) + (if y == x then 1 else 0)
  {
    assert (s + [y])[..|s|] == s;
  }

  lemma TakeMore<T>(s: seq<T>, k: nat)
    requires k < |s|
    ensures s[..k + 1] == s[..k] + [s[k]] && s[..k + 1][..k] == s[..k]
  {
  }

  lemma {:induction false} CountAppend<T>(a: seq<T>, b: seq<T>, x: T)
    ensures Count(a + b, x) == Count(a, x) + Count(b, x)
  {
    if |b| == 0 {
      assert a + b == a;
    } else {
      CountAppend(a, b[..|b| - 1], x);
      assert a + b == (a + b[..|b| - 1]) + [b[|b| - 1]];
      CountSnoc(a + b[..|b| - 1], b[|b| - 1], x);
    }
  }

  lemma {:induction false} CountIn<T>(s: seq<T>, x: T)
    ensures x in s <==> Count(s, x) > 0
  {
    if |s| > 0 {
      CountIn(s[..|s| - 1], x);
      assert s == s[..|s| - 1] + [s[|s| - 1]];
    }
  }

  lemma {:induction false} CountUpdate<T>(s: seq<T>, t: nat, y: T, x: T)
    requires t < |s|
    ensures Count(s[t := y], x) == Count(s, x) - (if s[t] == x then 1 else 0) + (if y == x then 1 else 0)
  {
    var last := |s| - 1;
    if t == last {
      assert s[t := y][..last] == s[..last];
    } else {
      assert s[t := y][..last] == s[..last][t := y];
      CountUpdate(s[..last], t, y, x);
    }
  }

  predicate NoRepeat<T(==)>(s: seq<T>) {
    forall i, j :: 0 <= i < j < |s| ==> s[i] != s[j]
  }

  lemma TailNoRepeat<T>(a: seq<T>, b: seq<T>)
    requires NoRepeat(a + b)
    ensures NoRepeat(b)
  {
    forall i, j | 0 <= i < j < |b| ensures b[i] != b[j] { assert (a + b)[|a| + i] == b[i] && (a + b)[|a| + j] == b[j]; }
  }

  lemma InsertCount<T>(s: seq<T>, k: nat, y: T, x: T)
    requires k <= |s|
    ensures Count(s[..k] + [y] + s[k..], x) == Count(s, x) + (if x == y then 1 else 0)
  {
    assert s == s[..k] + s[k..];
    CountAppend(s[..k], s[k..], x);
    CountAppend(s[..k] + [y], s[k..], x);
    CountSnoc(s[..k], y, x);
  }

  /** The two sequences hold the same elements equally often. */
  ghost predicate Permutation<T(!new)>(a: seq<T>, b: seq<T>) {
    forall x :: Count(a, x) == Count(b, x)
  }

  lemma PermutationMember<T(!new)>(a: seq<T>, b: seq<T>, x: T)
    requires Permutation(a, b)
    ensures x in a <==> x in b
  {
    CountIn(a, x);
    CountIn(b, x);
  }

  /** Two places with the same element make a count of two, and conversely. */
  lemma {:induction false} CountTwo<T>(s: seq<T>, i: nat, j: nat)
    requires i < j < |s| && s[i] == s[j]
    ensures Count(s, s[i]) >= 2
  {
    if j < |s| - 1 {
      CountTwo(s[..|s| - 1], i, j);
    } else {
      assert s[i] in s[..j];
      CountIn(s[..j], s[i]);
    }
  }

  lemma {:induction false} TwoPlaces<T>(s: seq<T>, x: T) returns (i: nat, j: nat)
    requires Count(s, x) >= 2
    ensures i < j < |s| && s[i] == x && s[j] == x
  {
    var last := |s| - 1;
    if s[last] == x {
      CountIn(s[..last], x);
      i :| i < last && s[..last][i] == x;
      j := last;
    } else {
      i, j := TwoPlaces(s[..last], x);
    }
  }

  /** A sequence repeats nothing exactly when it holds everything at most once. */
  lemma CountOnce<T(!new)>(s: seq<T>)
    ensures NoRepeat(s) <==> forall x :: Count(s, x) <= 1
  {
    if NoRepeat(s) {
      forall x ensures Count(s, x) <= 1 {
        if Count(s, x) >= 2 { var i, j := TwoPlaces(s, x); }
      }
    } else {
      var i, j :| 0 <= i < j < |s| && s[i] == s[j];
      CountTwo(s, i, j);
    }
  }

  /** Pigeonhole: distinct numbers below n are at most n many. */
  lemma {:induction false} NoRepeatBounded(s: seq<nat>, n: nat)
    requires NoRepeat(s) && forall v :: v in s ==> v < n
    ensures |s| <= n
  {
    if |s| > 0 {
      assert s[0] in s;
      if n - 1 in s {
        var k :| 0 <= k < |s| && s[k] == n - 1;
        var rest := s[..k] + s[k + 1..];
        forall i | 0 <= i < |rest| ensures rest[i] == s[if i < k then i else i + 1] { }
        assert forall v :: v in rest ==> v in s && v != n - 1;
        NoRepeatBounded(rest, n - 1);
      } else {
        NoRepeatBounded(s, n - 1);
      }
    }
  }

  /** Occurrences in all sequences together. */
  function Total<A(==)>(tasks: seq<seq<A>>, a: A): nat {
    if |tasks| == 0 then 0 else Total(tasks[..|tasks| - 1], a) + Count(tasks[|tasks| - 1], a)
  }

  lemma {:induction false} TotalChange<A>(tasks: seq<seq<A>>, t: nat, task: seq<A>, a: A)
    requires t < |tasks|
    ensures Total(tasks[t := task], a) == Total(tasks, a) - Count(tasks[t], a) + Count(task, a)
  {
    var last := |tasks| - 1;
    if t == last {
      assert tasks[t := task][..last] == tasks[..last];
    } else {
      assert tasks[t := task][..last] == tasks[..last][t := task];
      TotalChange(tasks[..last], t, task, a);
    }
  }

  /** A place at which the sequence holds v. */
  ghost function PlaceOf(s: seq<nat>, v: nat): (i: nat)
    requires v in s
    ensures i < |s| && s[i] == v
  {
    var i :| 0 <= i < |s| && s[i] == v;
    i
  }

  /** The order lists each of the n numbers once. */
  predicate Enumerates(order: seq<nat>, n: nat) {
    NoRepeat(order) && (forall i :: 0 <= i < |order| ==> order[i] < n) && (forall c :: 0 <= c < n ==> c in order)
  }

  lemma CountedOnce(order: seq<nat>, n: nat)
    requires forall c: nat :: Count(order, c) == if c < n then 1 else 0
    ensures Enumerates(order, n)
  {
    CountOnce(order);
    forall i | 0 <= i < |order| ensures order[i] < n { CountIn(order, order[i]); }
    forall c | 0 <= c < n ensures c in order { CountIn<nat>(order, c); }
  }

  lemma TakeTake<T>(s: seq<T>, a: nat, b: nat)
    requires b <= a <= |s|
    ensures s[..a][..b] == s[..b]
  {
  }
}
