/** Loops that give thread tid the indices tid, tid + numThread, tid + 2 * numThread, ... */
module Strided {

  /** Thread tid reaches index v. */
  ghost predicate Reaches(tid: nat, threads: nat, v: nat) { exists k: nat :: v == tid + k * threads }

  /** Every index is reached by exactly one thread: the one of its residue. */
  lemma OneThreadEach(tid: nat, threads: nat, v: nat)
    requires tid < threads
    ensures Reaches(tid, threads, v) <==> tid == v % threads
  {
    if tid == v % threads {
      assert v == tid + (v / threads) * threads;
    }
    if Reaches(tid, threads, v) {
      var k: nat :| v == tid + k * threads;
      Residue(tid, k, threads);
    }
  }

  lemma MulAtLeast(x: int, t: nat)
    requires x >= 1
    ensures x * t >= t
  {
    ProductNonNegative(x - 1, t);
    assert x * t == (x - 1) * t + t;
  }

  lemma ProductNonNegative(a: int, b: int)
    requires a >= 0 && b >= 0
    ensures a * b >= 0
  {
  }

  /** Quotient and remainder are unique. */
  lemma UniqueRemainder(v: nat, q: int, r: nat, t: nat)
    requires r < t && v == q * t + r
    ensures v % t == r
  {
    var q', r' := v / t, v % t;
    assert v == q' * t + r';
    assert (q - q') * t == r' - r by { Distribute(q, q', t); }
    if q - q' >= 1 { MulAtLeast(q - q', t); }
    if q' - q >= 1 {
      MulAtLeast(q' - q, t);
      Distribute(q', q, t);
    }
  }

  lemma Distribute(a: int, b: int, t: int)
    ensures (a - b) * t == a * t - b * t
  {
  }

  lemma Residue(tid: nat, k: nat, threads: nat)
    requires tid < threads
    ensures (tid + k * threads) % threads == tid
  {
    ProductNonNegative(k, threads);
    UniqueRemainder(tid + k * threads, k, tid, threads);
  }

  lemma AddPeriod(v: nat, t: nat)
    requires t > 0
    ensures (v + t) % t == v % t
  {
    var q, r := v / t, v % t;
    assert v == q * t + r;
    Distribute(q + 1, 1, t);
    UniqueRemainder(v + t, q + 1, r, t);
  }

  // The order in which a sequential run of the threads meets the indices

  /** The loop variable of thread tid takes the value v. */
  predicate OnStride(t: nat, tid: nat, v: nat)
    requires t > 0
  {
    v == tid || (v >= t && OnStride(t, tid, v - t))
  }

  /** The indices that thread tid has met before its loop variable is v. */
  function Column(t: nat, tid: nat, v: nat): seq<nat>
    requires t > 0 && tid < t
    decreases v
  {
    if v < t then [] else Column(t, tid, v - t) + [v - t]
  }

  /** The first value of the loop variable at or beyond n. */
  function End(t: nat, v: nat, n: nat): nat
    requires t > 0
    decreases n - v
  {
    if v >= n then v else End(t, v + t, n)
  }

  /** The indices met by all threads before tid. */
  function Before(t: nat, n: nat, tid: nat): seq<nat>
    requires t > 0 && tid <= t
  {
    if tid == 0 then [] else Before(t, n, tid - 1) + Column(t, tid - 1, End(t, tid - 1, n))
  }

  lemma {:induction false} StrideResidue(t: nat, tid: nat, v: nat)
    requires t > 0 && tid < t && OnStride(t, tid, v)
    ensures v % t == tid
  {
    if v == tid {
      UniqueRemainder(v, 0, tid, t);
    } else {
      StrideResidue(t, tid, v - t);
      AddPeriod(v - t, t);
    }
  }

  lemma {:induction false} InColumn(t: nat, tid: nat, v: nat, x: nat)
    requires t > 0 && tid < t && OnStride(t, tid, v)
    ensures x in Column(t, tid, v) <==> x % t == tid && x < v
  {
    if v < t {
      if x < v { UniqueRemainder(x, 0, x, t); }
    } else {
      var w := v - t;
      if v == tid { assert false; }
      InColumn(t, tid, w, x);
      StrideResidue(t, tid, w);
      if x % t == tid && w < x < w + t { NoneBetween(x, w, t); }
    }
  }

  lemma NoneBetween(v: nat, cur: nat, t: nat)
    requires t > 0 && cur < v < cur + t
    ensures v % t != cur % t
  {
    var a, b := v / t, cur / t;
    if v % t == cur % t {
      assert v == a * t + v % t && cur == b * t + v % t;
      Distribute(a, b, t);
      assert (a - b) * t == v - cur;
      if a - b >= 1 { MulAtLeast(a - b, t); } else { ProductNonNegative(b - a, t); Distribute(b, a, t); }
    }
  }

  lemma {:induction false} EndOnStride(t: nat, tid: nat, v: nat, n: nat)
    requires t > 0 && OnStride(t, tid, v)
    ensures OnStride(t, tid, End(t, v, n)) && End(t, v, n) >= n
    ensures v >= n ==> End(t, v, n) == v
    decreases n - v
  {
    if v < n {
      assert OnStride(t, tid, v + t);
      EndOnStride(t, tid, v + t, n);
    }
  }

  lemma {:induction false} InBefore(t: nat, n: nat, tid: nat, x: nat)
    requires t > 0 && tid <= t && x < n
    ensures x in Before(t, n, tid) <==> x % t < tid
  {
    if tid > 0 {
      InBefore(t, n, tid - 1, x);
      EndOnStride(t, tid - 1, tid - 1, n);
      InColumn(t, tid - 1, End(t, tid - 1, n), x);
    }
  }

  /** The next index has not been met by this thread or an earlier one. */
  lemma NewIndex(t: nat, n: nat, tid: nat, v: nat)
    requires t > 0 && tid < t && v < n && OnStride(t, tid, v)
    ensures v !in Before(t, n, tid) + Column(t, tid, v)
  {
    InBefore(t, n, tid, v);
    InColumn(t, tid, v, v);
    StrideResidue(t, tid, v);
  }

  /** All that has been met when thread tid's loop variable is v. */
  function Met(t: nat, n: nat, tid: nat, v: nat): seq<nat>
    requires t > 0 && tid < t
  {
    Before(t, n, tid) + Column(t, tid, v)
  }

  /** One step of thread tid's loop meets one new index. */
  lemma MeetNext(t: nat, n: nat, tid: nat, v: nat)
    requires t > 0 && tid < t && v < n && OnStride(t, tid, v)
    ensures v !in Met(t, n, tid, v) && Met(t, n, tid, v + t) == Met(t, n, tid, v) + [v]
    ensures OnStride(t, tid, v + t) && End(t, v, n) == End(t, v + t, n)
  {
    NewIndex(t, n, tid, v);
  }

  /** Where a thread starts and where it hands over. */
  lemma HandOver(t: nat, n: nat, tid: nat, v: nat)
    requires t > 0 && tid < t && v >= n && End(t, tid, n) == End(t, v, n)
    ensures Met(t, n, tid, v) == Before(t, n, tid + 1)
    ensures Met(t, n, tid, tid) == Before(t, n, tid)
  {
  }

  /** The threads together meet every index below n. */
  lemma AllIndices(t: nat, n: nat, v: nat)
    requires t > 0 && v < n
    ensures v in Before(t, n, t)
  {
    InBefore(t, n, t, v);
  }

  lemma {:induction false} OnlyIndices(t: nat, n: nat, tid: nat, x: nat)
    requires t > 0 && tid <= t && x in Before(t, n, tid)
    ensures x < n
  {
    if x !in Before(t, n, tid - 1) {
      ColumnBelow(t, tid - 1, tid - 1, n, x);
    } else {
      OnlyIndices(t, n, tid - 1, x);
    }
  }

  lemma {:induction false} ColumnBelow(t: nat, tid: nat, v: nat, n: nat, x: nat)
    requires t > 0 && tid < t && OnStride(t, tid, v) && x in Column(t, tid, End(t, v, n))
    requires forall y :: y in Column(t, tid, v) ==> y < n
    ensures x < n
    decreases n - v
  {
    if v < n {
      assert OnStride(t, tid, v + t);
      ColumnBelow(t, tid, v + t, n, x);
    }
  }
}
