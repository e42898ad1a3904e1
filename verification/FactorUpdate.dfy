/**
 aStarRoute::dynamicCostFactorUpdating (src/route/aStarRoute.cpp, lines 829-867): the factors
 of the next iteration and the strided pass over the nodes.
 */
module FactorUpdate {
  import opened Congestion
  import opened Convergence
  import opened Strided

  function NextFactor(factor: real, multiplier: real, limit: real): real {
    if factor * multiplier <= limit then factor * multiplier else limit
  }

  function Overused(occ: seq<int>): set<nat> { set v: nat | v < |occ| && occ[v] > 1 }

  /** The overused nodes among those that the threads have met so far. */
  function OverusedAmong(occ: seq<int>, met: seq<nat>): set<nat> {
    set v: nat | v in met && v < |occ| && occ[v] > 1
  }

  /** The nodes met so far have their new present cost, the others still the old one. */
  ghost predicate PartlyRefreshed(occ: seq<int>, before: seq<real>, now: seq<real>, factor: real, met: seq<nat>) {
    && |occ| == |before| == |now|
    && forall v :: 0 <= v < |occ| ==> now[v] == if v in met then Refreshed(occ[v], before[v], factor) else before[v]
  }

  /** The historical cost of the nodes met so far has grown by the factor for every use beyond the first. */
  ghost predicate PartlyRaised(occ: seq<int>, before: seq<real>, now: seq<real>, factor: real, met: seq<nat>) {
    && |occ| == |before| == |now|
    && forall v :: 0 <= v < |occ| ==>
         now[v] == if v in met then before[v] + Penalty(occ[v], factor) else before[v]
  }

  function Penalty(occ: int, factor: real): real { if occ > 1 then (occ - 1) as real * factor else 0.0 }

  lemma RaisedAll(occ: seq<int>, before: seq<real>, now: seq<real>, factor: real, met: seq<nat>)
    requires PartlyRaised(occ, before, now, factor, met) && forall v :: 0 <= v < |occ| ==> v in met
    ensures HistoryRaised(occ, before, now, factor)
  {
    forall v | 0 <= v < |occ|
      ensures now[v] - before[v] == if occ[v] > 1 then (occ[v] - 1) as real * factor else 0.0
    {
      assert now[v] == before[v] + Penalty(occ[v], factor);
    }
  }

  /** The historical costs of all nodes after an update. */
  ghost predicate HistoryRaised(occ: seq<int>, before: seq<real>, now: seq<real>, factor: real) {
    && |occ| == |before| == |now|
    && forall v :: 0 <= v < |occ| ==>
         now[v] - before[v] == if occ[v] > 1 then (occ[v] - 1) as real * factor else 0.0
  }

  /** With a positive factor exactly the overused nodes get dearer, and the more so the more they are overused. */
  lemma HistoryFollowsOveruse(occ: seq<int>, before: seq<real>, now: seq<real>, factor: real, u: nat, v: nat)
    requires HistoryRaised(occ, before, now, factor) && factor > 0.0 && u < |occ| && v < |occ|
    ensures now[u] > before[u] <==> occ[u] > 1
    ensures occ[u] > 1 && occ[v] > 1 ==> (now[u] - before[u] < now[v] - before[v] <==> occ[u] < occ[v])
  {
    var over := (w: int) => (w - 1) as real;
    assert occ[u] > 1 ==> over(occ[u]) * factor > 0.0;
    if occ[u] < occ[v] {
      assert (over(occ[v]) - over(occ[u])) * factor > 0.0;
    } else {
      assert (over(occ[u]) - over(occ[v])) * factor >= 0.0;
    }
  }

  lemma RefreshStep(occ: seq<int>, before: seq<real>, now: seq<real>, factor: real, met: seq<nat>, v: nat)
    requires v < |occ| && v !in met && PartlyRefreshed(occ, before, now, factor, met)
    ensures PartlyRefreshed(occ, before, now[v := Refreshed(occ[v], now[v], factor)], factor, met + [v])
    ensures |OverusedAmong(occ, met + [v])| == |OverusedAmong(occ, met)| + (if occ[v] > 1 then 1 else 0)
  {
    assert OverusedAmong(occ, met + [v]) == OverusedAmong(occ, met) + (if occ[v] > 1 then {v} else {});
  }

  lemma RaiseStep(occ: seq<int>, before: seq<real>, now: seq<real>, factor: real, met: seq<nat>, v: nat, h: real)
    requires v < |occ| && v !in met && PartlyRaised(occ, before, now, factor, met)
    requires h == now[v] + Penalty(occ[v], factor)
    ensures PartlyRaised(occ, before, now[v := h], factor, met + [v])
  {
  }

  lemma RefreshedAll(occ: seq<int>, threads: nat)
    requires threads > 0
    ensures forall v :: 0 <= v < |occ| ==> v in Before(threads, |occ|, threads)
    ensures OverusedAmong(occ, Before(threads, |occ|, threads)) == Overused(occ)
  {
    forall v: nat | v < |occ| ensures v in Before(threads, |occ|, threads) { AllIndices(threads, |occ|, v); }
  }

  method RefreshAt(occ: int, present: real, historical: real, factor: real, historicalFactor: real)
    returns (present': real, historical': real, over: bool)
    ensures present' == Refreshed(occ, present, factor) && historical' == historical + Penalty(occ, historicalFactor)
    ensures over == (occ > 1)
  {
    present', historical', over := RefreshNode(occ, present, historical, factor, historicalFactor);
  }

  /** One node's share of dynamicCostFactorUpdating; says whether the node is overused. */
  method RefreshNode(occ: int, present: real, historical: real, factor: real, historicalFactor: real)
    returns (present': real, historical': real, over: bool)
    ensures present' == Refreshed(occ, present, factor)
    ensures over == (occ > 1)
    ensures historical' - historical == if occ > 1 then (occ - 1) as real * historicalFactor else 0.0
  {
    var overuse := occ - 1;
    present', historical', over := present, historical, false;
    if overuse == 0 {
      present' := 1.0 + factor;
    } else if overuse > 0 {
      over := true;
      present' := OverusedCost(overuse, factor);
      historical' := historical + overuse as real * historicalFactor;
    }
  }

  /** The share of one thread in dynamicCostFactorUpdating. */
  method RefreshStride(occ: seq<int>, present0: seq<real>, historical0: seq<real>, factor: real, historicalFactor: real,
                       tid: nat, threads: nat, ghost before: seq<real>, ghost beforeH: seq<real>, count: nat)
    returns (present: seq<real>, historical: seq<real>, overused: nat)
    requires threads > 0 && tid < threads
    requires PartlyRefreshed(occ, before, present0, factor, Before(threads, |occ|, tid))
    requires PartlyRaised(occ, beforeH, historical0, historicalFactor, Before(threads, |occ|, tid))
    requires count == |OverusedAmong(occ, Before(threads, |occ|, tid))|
    ensures PartlyRefreshed(occ, before, present, factor, Before(threads, |occ|, tid + 1))
    ensures PartlyRaised(occ, beforeH, historical, historicalFactor, Before(threads, |occ|, tid + 1))
    ensures overused == |OverusedAmong(occ, Before(threads, |occ|, tid + 1))|
  {
    present, historical, overused := present0, historical0, count;
    var v := tid;
    assert Met(threads, |occ|, tid, tid) == Before(threads, |occ|, tid);
    while v < |occ|
      invariant OnStride(threads, tid, v) && End(threads, tid, |occ|) == End(threads, v, |occ|)
      invariant PartlyRefreshed(occ, before, present, factor, Met(threads, |occ|, tid, v))
      invariant PartlyRaised(occ, beforeH, historical, historicalFactor, Met(threads, |occ|, tid, v))
      invariant overused == |OverusedAmong(occ, Met(threads, |occ|, tid, v))|
    {
      MeetNext(threads, |occ|, tid, v);
      RefreshStep(occ, before, present, factor, Met(threads, |occ|, tid, v), v);
      var p, h, over := RefreshAt(occ[v], present[v], historical[v], factor, historicalFactor);
      RaiseStep(occ, beforeH, historical, historicalFactor, Met(threads, |occ|, tid, v), v, h);
      present, historical := present[v := p], historical[v := h];
      if over { overused := overused + 1; }
      v := v + threads;
    }
    HandOver(threads, |occ|, tid, v);
  }

  lemma ZeroOverused(d: Design, s: State)
    requires Shaped(d, s)
    ensures |Overused(s.occ)| == 0 <==> NoOveruse(d, s)
  {
    if NoOveruse(d, s) { assert Overused(s.occ) == {}; }
    if |Overused(s.occ)| == 0 {
      forall v | 0 <= v < d.nodes ensures s.occ[v] <= 1 { assert v !in Overused(s.occ); }
    }
  }

  // The factors of a congested design; the exponential function is a parameter

  ghost predicate Positive(exp: real -> real) { forall x :: exp(x) > 0.0 }

  function CongestedHistorical(exp: real -> real, iter: nat): real
    requires Positive(exp)
  {
    2.0 * (1.0 / (1.0 + exp((1 - iter) as real * 0.5)))
  }

  function CongestedMultiplier(exp: real -> real, iter: nat): real
    requires Positive(exp)
  {
    1.1 * (1.0 + 3.0 / (1.0 + exp((iter - 1) as real)))
  }

  /** A congested design gets new factors in every iteration, any other keeps its own. */
  ghost predicate FactorsSet(exp: real -> real, iter: nat, congested: bool, multiplier: real, historical: real,
                             multiplier': real, historical': real)
  {
    && Positive(exp)
    && if congested then multiplier' == CongestedMultiplier(exp, iter) && historical' == CongestedHistorical(exp, iter)
       else multiplier' == multiplier && historical' == historical
  }

  lemma Fraction(a: real, x: real)
    requires a > 0.0 && x > 0.0
    ensures 0.0 < a / (1.0 + x) < a
  {
    var q := a / (1.0 + x);
    assert q * (1.0 + x) == a;
    assert q * x > 0.0;
  }

  /**
   Both factors stay in their ranges in every iteration: the present factor keeps growing,
   history counts up to twice.
   */
  lemma FactorRanges(exp: real -> real, iter: nat)
    requires Positive(exp)
    ensures 0.0 < CongestedHistorical(exp, iter) < 2.0
    ensures 1.1 < CongestedMultiplier(exp, iter) < 4.4
  {
    Fraction(1.0, exp((1 - iter) as real * 0.5));
    Fraction(3.0, exp((iter - 1) as real));
  }

  /** The new factor respects the limit, and does not fall unless the limit forces it. */
  lemma NextFactorGrows(factor: real, multiplier: real, limit: real)
    requires 0.0 <= factor <= limit && multiplier >= 1.0
    ensures factor <= NextFactor(factor, multiplier, limit) <= limit
  {
    assert factor * (multiplier - 1.0) >= 0.0;
  }

  /** The factor is the lesser of product and limit. */
  lemma NextFactorIsLesser(factor: real, multiplier: real, limit: real)
    ensures var f := NextFactor(factor, multiplier, limit);
            f <= limit && f <= factor * multiplier && (f == limit || f == factor * multiplier)
  {
  }

  /** The factor times the k-th power of the multiplier. */
  function Grown(factor: real, multiplier: real, k: nat): real {
    if k == 0 then factor else Grown(factor, multiplier, k - 1) * multiplier
  }

  function Capped(x: real, limit: real): real { if x <= limit then x else limit }

  lemma CappedNext(x: real, multiplier: real, limit: real, y: real)
    requires x >= 0.0 && limit >= 0.0 && multiplier >= 1.0 && y == x * multiplier
    ensures NextFactor(Capped(x, limit), multiplier, limit) == Capped(y, limit) && y >= 0.0
  {
    assert x * (multiplier - 1.0) >= 0.0;
    if x > limit { assert limit * (multiplier - 1.0) >= 0.0; }
  }

  /** The factor after k updates with the same multiplier. */
  function FactorAfter(factor: real, multiplier: real, limit: real, k: nat): real {
    if k == 0 then factor else NextFactor(FactorAfter(factor, multiplier, limit, k - 1), multiplier, limit)
  }

  /** The factor of an uncongested design grows like the powers of its multiplier until the limit holds it. */
  lemma {:induction false} FactorGrowth(factor: real, multiplier: real, limit: real, k: nat)
    requires 0.0 <= factor <= limit && multiplier >= 1.0
    ensures Grown(factor, multiplier, k) >= 0.0
    ensures FactorAfter(factor, multiplier, limit, k) == Capped(Grown(factor, multiplier, k), limit)
  {
    if k > 0 {
      FactorGrowth(factor, multiplier, limit, k - 1);
      CappedNext(Grown(factor, multiplier, k - 1), multiplier, limit, Grown(factor, multiplier, k));
    }
  }

  // How the factors of a congested design move

  predicate Rises(exp: real -> real, x: real, y: real) { x < y ==> exp(x) < exp(y) }

  predicate Doubles(exp: real -> real, x: real) { exp(x) * exp(-x) == 1.0 && exp(x + x) == exp(x) * exp(x) }

  /** The exponential function as far as the factors need it. */
  ghost predicate Exponential(exp: real -> real) {
    && Positive(exp) && exp(0.0) == 1.0 && (forall x, y :: Rises(exp, x, y)) && forall x :: Doubles(exp, x)
  }

  lemma Falling(a: real, x: real, y: real)
    requires a > 0.0 && 0.0 < x < y
    ensures a / (1.0 + y) < a / (1.0 + x)
  {
    var p, q := a / (1.0 + x), a / (1.0 + y);
    Fraction(a, y);
    assert p * (1.0 + x) == a == q * (1.0 + y);
    assert q * (y - x) > 0.0;
    assert (p - q) * (1.0 + x) == q * (y - x);
  }

  /**
   From 1 in the first iteration the historical factor rises and from 2.75 the multiplier
   falls, iteration by iteration.
   */
  lemma FactorsMove(exp: real -> real, iter: nat)
    requires Exponential(exp) && iter >= 1
    ensures CongestedHistorical(exp, 1) == 1.0 && CongestedMultiplier(exp, 1) == 2.75
    ensures CongestedHistorical(exp, iter) < CongestedHistorical(exp, iter + 1)
    ensures CongestedMultiplier(exp, iter + 1) < CongestedMultiplier(exp, iter)
  {
    var a, b := (1 - iter) as real * 0.5, (1 - (iter + 1)) as real * 0.5;
    assert Rises(exp, b, a);
    Falling(1.0, exp(b), exp(a));
    assert Rises(exp, (iter - 1) as real, (iter + 1 - 1) as real);
    Falling(3.0, exp((iter - 1) as real), exp((iter + 1 - 1) as real));
  }

  /** The historical factor h divides 2 into h and 2 - h; the square of their ratio decides the multiplier. */
  lemma FactorsLinked(exp: real -> real, iter: nat)
    requires Exponential(exp) && iter >= 1
    ensures var h, m := CongestedHistorical(exp, iter), CongestedMultiplier(exp, iter);
            0.0 < h < 2.0 && (m - 1.1) * (1.0 + (h / (2.0 - h)) * (h / (2.0 - h))) == 3.3
  {
    var x := (iter - 1) as real * 0.5;
    assert Doubles(exp, x);
    assert (1 - iter) as real * 0.5 == -x && (iter - 1) as real == x + x;
    FactorRanges(exp, iter);
    HistoricalRatio(CongestedHistorical(exp, iter), exp(x), exp(-x));
    MultiplierPart(CongestedMultiplier(exp, iter), exp(x) * exp(x));
  }

  lemma HistoricalRatio(h: real, e: real, f: real)
    requires e > 0.0 && f > 0.0 && e * f == 1.0 && h == 2.0 * (1.0 / (1.0 + f)) && 0.0 < h < 2.0
    ensures h / (2.0 - h) == e
  {
    var r := 1.0 / (1.0 + f);
    assert r * (1.0 + f) == 1.0;
    assert 2.0 - h == 2.0 * (r * f);
    assert e * (2.0 - h) == 2.0 * r * (e * f);
  }

  lemma MultiplierPart(m: real, x: real)
    requires x > 0.0 && m == 1.1 * (1.0 + 3.0 / (1.0 + x))
    ensures (m - 1.1) * (1.0 + x) == 3.3
  {
    var r := 3.0 / (1.0 + x);
    assert r * (1.0 + x) == 3.0;
    assert m - 1.1 == 1.1 * r;
  }

  lemma NextFactorNonNegative(factor: real, multiplier: real, limit: real)
    requires factor >= 0.0 && multiplier >= 0.0 && limit >= 0.0
    ensures NextFactor(factor, multiplier, limit) >= 0.0
  {
  }

  lemma HistoryNonNegative(occ: seq<int>, before: seq<real>, now: seq<real>, factor: real, v: nat)
    requires HistoryRaised(occ, before, now, factor) && factor >= 0.0 && v < |occ| && before[v] >= 0.0
    ensures now[v] >= 0.0
  {
    if occ[v] > 1 { assert (occ[v] - 1) as real * factor >= 0.0; }
  }

  /** How many nodes are overused after the first iteration. */
  method CountOverused(occ: seq<int>) returns (count: nat)
    ensures count == |Overused(occ)|
  {
    count := 0;
    assert Overused(occ[..0]) == {};
    for v := 0 to |occ|
      invariant count == |Overused(occ[..v])|
    {
      assert Overused(occ[..v + 1]) == Overused(occ[..v]) + (if occ[v] > 1 then {v} else {});
      if occ[v] > 1 { count := count + 1; }
    }
    assert occ[..|occ|] == occ;
  }

  /** The design counts as congested if more than 45 nodes are overused for every 100 connections. */
  predicate IsCongestedDesign(overused: nat, numConns: nat) { overused as real > 0.45 * numConns as real }
}
