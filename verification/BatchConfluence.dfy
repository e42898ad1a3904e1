/**
 Whatever the interleaving, the threads of a batch leave the same memory: same paths, flags,
 notes, numbers and scratch entries (src/route/stableFirstRouting.cpp, lines 53-112).
 */
module BatchConfluence {
  import opened Counting
  import opened Interleaving
  import opened BatchMachine

  ghost predicate Listed(w: World, n: nat) { exists t: nat :: t < |w.lists| && n in w.lists[t] }

  /** What belongs to no thread is as it was. */
  ghost predicate Untouched(w: World, m: Memory, m': Memory) {
    && Fit(w, m) && Fit(w, m') && Frozen(m'.s, m.s)
    && (forall n: nat :: n < w.site.nets && !Listed(w, n) ==> m'.incs[n] == m.incs[n] && m'.decs[n] == m.decs[n])
    && (forall c: nat :: c < |w.site.conns| && !Listed(w, w.site.conns[c].net) ==>
          m'.s.paths[c] == m.s.paths[c] && m'.s.routed[c] == m.s.routed[c] && m'.s.fails[c] == m.s.fails[c])
  }

  lemma WriteUntouched(w: World, m: Memory, m': Memory, t: nat, e: Effect)
    requires Untouched(w, m, m') && t < |w.lists| && Own(w, t, e) && Fit(w, Write(m', t, e))
    ensures Untouched(w, m, Write(m', t, e))
  {
    assert forall n: nat :: n in w.lists[t] ==> Listed(w, n);
  }

  lemma {:induction false} PlayUntouched(w: World, m: Memory, schedule: seq<nat>)
    requires Fit(w, m)
    ensures Fit(w, Play(StepIn(w), m, schedule)) && Untouched(w, m, Play(StepIn(w), m, schedule))
  {
    if |schedule| > 0 {
      PlayUntouched(w, m, schedule[..|schedule| - 1]);
      var m', t := Play(StepIn(w), m, schedule[..|schedule| - 1]), schedule[|schedule| - 1];
      StepFits(w, m', t);
      if t < |w.lists| && !Resting(w, m', t) {
        EffectIsOwn(w, m', t);
        WriteUntouched(w, m, m', t, StepEffect(w, m', t));
      }
    }
  }

  lemma NotesSame(w: World, m: Memory, a: Memory, b: Memory)
    requires Untouched(w, m, a) && Untouched(w, m, b) && forall t: nat :: t < |w.lists| ==> Agree(w, t, a, b)
    ensures a.incs == b.incs && a.decs == b.decs
  {
    forall n: nat | n < w.site.nets ensures a.incs[n] == b.incs[n] && a.decs[n] == b.decs[n] {
      if Listed(w, n) {
        var t: nat :| t < |w.lists| && n in w.lists[t];
        assert Agree(w, t, a, b) && SameNets(w, t, a, b);
      }
    }
  }

  lemma StateSame(w: World, m: Memory, a: Memory, b: Memory)
    requires Untouched(w, m, a) && Untouched(w, m, b) && forall t: nat :: t < |w.lists| ==> Agree(w, t, a, b)
    ensures a.s == b.s
  {
    forall c: nat | c < |w.site.conns|
      ensures a.s.paths[c] == b.s.paths[c] && a.s.routed[c] == b.s.routed[c] && a.s.fails[c] == b.s.fails[c]
    {
      if Listed(w, w.site.conns[c].net) {
        var t: nat :| t < |w.lists| && w.site.conns[c].net in w.lists[t];
        assert Agree(w, t, a, b) && SameConns(w, t, a, b);
      }
    }
    assert a.s.paths == b.s.paths && a.s.routed == b.s.routed && a.s.fails == b.s.fails;
  }

  /** Memories that agree for every thread, and outside all threads, are equal. */
  lemma MemorySame(w: World, m: Memory, a: Memory, b: Memory)
    requires Untouched(w, m, a) && Untouched(w, m, b) && forall t: nat :: t < |w.lists| ==> Agree(w, t, a, b)
    ensures a == b
  {
    NotesSame(w, m, a, b);
    StateSame(w, m, a, b);
    forall t: nat | t < |w.lists|
      ensures a.tables[t] == b.tables[t] && a.changes[t] == b.changes[t] && a.ctl[t] == b.ctl[t]
    {
      assert Agree(w, t, a, b);
    }
    assert a.tables == b.tables && a.changes == b.changes && a.ctl == b.ctl;
  }

  lemma SameCounts(w: World, m: Memory, a: seq<nat>, b: seq<nat>)
    requires Fit(w, m) && Names(a, |w.lists|) && Names(b, |w.lists|)
    requires forall t: nat :: t < |w.lists| ==>
      Alone(StepIn(w), m, t, Count(a, t)) == Alone(StepIn(w), m, t, Count(b, t))
    ensures Play(StepIn(w), m, a) == Play(StepIn(w), m, b)
  {
    var x, y := Play(StepIn(w), m, a), Play(StepIn(w), m, b);
    BatchIsSeparate(w);
    PlayUntouched(w, m, a);
    PlayUntouched(w, m, b);
    forall t: nat | t < |w.lists| ensures Agree(w, t, x, y) {
      AsIfAlone(StepIn(w), FitIn(w), PartIn(w), |w.lists|, m, a, t);
      AsIfAlone(StepIn(w), FitIn(w), PartIn(w), |w.lists|, m, b, t);
      AgreeVia(w, t, x, y, Alone(StepIn(w), m, t, Count(a, t)));
    }
    MemorySame(w, m, x, y);
  }

  lemma AgreeVia(w: World, t: nat, x: Memory, y: Memory, z: Memory)
    requires SamePart(w, t, x, z) && SamePart(w, t, y, z)
    ensures Agree(w, t, x, y)
  {
  }

  ghost predicate AllRest(w: World, m: Memory) {
    |m.ctl| == |w.lists| && forall t: nat :: t < |w.lists| ==> Resting(w, m, t)
  }

  ghost function RestIn(w: World): (Memory, nat) -> bool {
    (m: Memory, t: nat) => t < |w.lists| == |m.ctl| && Resting(w, m, t)
  }

  /** Any two interleavings that bring a batch to its barrier leave the same memory. */
  lemma BatchConfluent(w: World, m: Memory, a: seq<nat>, b: seq<nat>)
    requires Fit(w, m) && Names(a, |w.lists|) && Names(b, |w.lists|)
    requires AllRest(w, Play(StepIn(w), m, a)) && AllRest(w, Play(StepIn(w), m, b))
    ensures Play(StepIn(w), m, a) == Play(StepIn(w), m, b)
  {
    BatchIsSeparate(w);
    assert Rests(StepIn(w), PartIn(w), RestIn(w), |w.lists|);
    forall t: nat | t < |w.lists| ensures Alone(StepIn(w), m, t, Count(a, t)) == Alone(StepIn(w), m, t, Count(b, t)) {
      SameEnd(StepIn(w), FitIn(w), PartIn(w), RestIn(w), |w.lists|, m, a, b, t);
    }
    SameCounts(w, m, a, b);
  }

  /** In particular it is the memory that the threads leave when they run one after another. */
  lemma SameAsInOrder(w: World, m: Memory, a: seq<nat>)
    requires Fit(w, m) && Names(a, |w.lists|)
    ensures Play(StepIn(w), m, a) == Play(StepIn(w), m, InOrder(a, |w.lists|))
  {
    InOrderCounts(a, |w.lists|, 0);
    forall t: nat | t < |w.lists|
      ensures Count(InOrder(a, |w.lists|), t) == Count(a, t)
    {
      InOrderCounts(a, |w.lists|, t);
    }
    SameCounts(w, m, a, InOrder(a, |w.lists|));
  }

  /**
   When it is its turn, a thread's own part is still as at the start; after its turn it is
   as the schedule leaves it.
   */
  lemma PartInOrder(w: World, m: Memory, a: seq<nat>, n: nat, t: nat)
    requires Fit(w, m) && Names(a, |w.lists|) && t < |w.lists| && n <= |w.lists|
    ensures var r := Play(StepIn(w), m, InOrder(a, n));
            SamePart(w, t, r, if t < n then Play(StepIn(w), m, a) else m)
  {
    BatchIsSeparate(w);
    InOrderCounts(a, n, t);
    AsIfAlone(StepIn(w), FitIn(w), PartIn(w), |w.lists|, m, InOrder(a, n), t);
    AsIfAlone(StepIn(w), FitIn(w), PartIn(w), |w.lists|, m, a, t);
    if t < n {
      AgreeVia(w, t, Play(StepIn(w), m, InOrder(a, n)), Play(StepIn(w), m, a), Alone(StepIn(w), m, t, Count(a, t)));
    }
  }
}
