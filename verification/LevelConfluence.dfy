/**
 Whatever the interleaving, a level ends in the same memory: same paths, counts,
 occupancies, costs and scratch entries (src/route/aStarRoute.cpp, lines 926-954).
 */
module LevelConfluence {
  import opened Counting
  import opened Interleaving
  import opened LevelMachine
  import opened LevelFootprint
  import opened LevelSchedule

  ghost predicate Listed(w: World, c: nat) {
    exists t, k :: 0 <= t < |w.tasks| && 0 <= k < |w.tasks[t]| && w.tasks[t][k] == c
  }

  /** No connection of the level can reach node v. */
  ghost predicate Remote(w: World, v: nat)
    requires w.Valid()
  {
    forall c: nat :: c < |w.site.conns| && Listed(w, c) ==> !w.Near(c, v)
  }

  /** No task lists a connection of net n. */
  ghost predicate NotListed(w: World, n: nat) {
    forall c: nat :: c < |w.site.conns| && Listed(w, c) ==> w.site.conns[c].net != n
  }

  /** What belongs to no task is as it was. */
  ghost predicate Untouched(w: World, m: Memory, m': Memory) {
    && Fit(w, m) && Fit(w, m')
    && (forall v: nat :: v < |w.site.g| && Remote(w, v) ==>
          m'.info[v] == m.info[v] && m'.s.occ[v] == m.s.occ[v] && m'.s.present[v] == m.s.present[v])
    && (forall n: nat :: n < w.site.nets && NotListed(w, n) ==> m'.s.users[n] == m.s.users[n])
    && (forall c: nat :: c < |w.site.conns| && !Listed(w, c) ==>
          m'.s.paths[c] == m.s.paths[c] && m'.s.routed[c] == m.s.routed[c] && m'.s.fails[c] == m.s.fails[c])
  }

  lemma StepUntouched(w: World, m: Memory, m': Memory, t: nat)
    requires Untouched(w, m, m') && Fine(w, m')
    ensures Untouched(w, m, Step(w, m', t))
  {
    if t < |w.tasks| && !Resting(w, m', t) {
      EffectKeeps(w, m', t);
      var c := w.tasks[t][m'.ctl[t].next];
      assert Listed(w, c);
      WriteUntouched(w, m, m', t, c, StepEffect(w, m', t));
    }
  }

  lemma WriteUntouched(w: World, m: Memory, m': Memory, t: nat, c: nat, e: Effect)
    requires Untouched(w, m, m') && t < |w.tasks| && c < |w.site.conns| && Listed(w, c) && Own(w, c, e)
    requires Fit(w, Write(m', t, e))
    ensures Untouched(w, m, Write(m', t, e))
  {
    var r := Write(m', t, e);
    forall v: nat | v < |w.site.g| && Remote(w, v)
      ensures r.info[v] == m.info[v] && r.s.occ[v] == m.s.occ[v] && r.s.present[v] == m.s.present[v]
    {
      assert !w.Near(c, v);
    }
  }

  lemma {:induction false} PlayUntouched(w: World, m: Memory, schedule: seq<nat>)
    requires Independent(w) && Fine(w, m) && Names(schedule, |w.tasks|)
    ensures Fine(w, Play(StepIn(w), m, schedule)) && Untouched(w, m, Play(StepIn(w), m, schedule))
  {
    LevelIsSeparate(w);
    PlayIsGood(StepIn(w), FineIn(w), |w.tasks|, m, schedule);
    if |schedule| > 0 {
      PlayUntouched(w, m, schedule[..|schedule| - 1]);
      StepUntouched(w, m, Play(StepIn(w), m, schedule[..|schedule| - 1]), schedule[|schedule| - 1]);
    }
  }

  lemma NodeSame(w: World, m: Memory, a: Memory, b: Memory, v: nat)
    requires Untouched(w, m, a) && Untouched(w, m, b) && v < |w.site.g|
    requires forall t: nat :: t < |w.tasks| ==> Agree(w, t, a, b)
    ensures a.info[v] == b.info[v] && a.s.occ[v] == b.s.occ[v] && a.s.present[v] == b.s.present[v]
  {
    if !Remote(w, v) {
      var c: nat :| c < |w.site.conns| && Listed(w, c) && w.Near(c, v);
      var t, k :| 0 <= t < |w.tasks| && 0 <= k < |w.tasks[t]| && w.tasks[t][k] == c;
      assert Agree(w, t, a, b) && AgreeOn(w, w.tasks[t][k], a, b);
    }
  }

  lemma TablesSame(w: World, m: Memory, a: Memory, b: Memory)
    requires Untouched(w, m, a) && Untouched(w, m, b)
    requires forall t: nat :: t < |w.tasks| ==> Agree(w, t, a, b)
    ensures a.s.users == b.s.users && a.s.paths == b.s.paths && a.s.routed == b.s.routed && a.s.fails == b.s.fails
  {
    forall c: nat | c < |w.site.conns| && Listed(w, c)
      ensures a.s.users[w.site.conns[c].net] == b.s.users[w.site.conns[c].net]
      ensures a.s.paths[c] == b.s.paths[c] && a.s.routed[c] == b.s.routed[c] && a.s.fails[c] == b.s.fails[c]
    {
      var t, k :| 0 <= t < |w.tasks| && 0 <= k < |w.tasks[t]| && w.tasks[t][k] == c;
      assert Agree(w, t, a, b) && AgreeOn(w, w.tasks[t][k], a, b);
    }
    forall n: nat | n < w.site.nets ensures a.s.users[n] == b.s.users[n] {
      if c: nat :| c < |w.site.conns| && Listed(w, c) && w.site.conns[c].net == n { }
    }
    forall c: nat | c < |w.site.conns|
      ensures a.s.paths[c] == b.s.paths[c] && a.s.routed[c] == b.s.routed[c] && a.s.fails[c] == b.s.fails[c]
    {
      if !Listed(w, c) { }
    }
  }

  /** Memories that agree for every task, and outside all tasks, are equal. */
  lemma MemorySame(w: World, m: Memory, a: Memory, b: Memory)
    requires Untouched(w, m, a) && Untouched(w, m, b)
    requires forall t: nat :: t < |w.tasks| ==> Agree(w, t, a, b)
    ensures a == b
  {
    TablesSame(w, m, a, b);
    forall v: nat | v < |w.site.g|
      ensures a.info[v] == b.info[v] && a.s.occ[v] == b.s.occ[v] && a.s.present[v] == b.s.present[v]
    {
      NodeSame(w, m, a, b, v);
    }
    assert a.info == b.info && a.s.occ == b.s.occ && a.s.present == b.s.present;
    forall t: nat | t < |w.tasks| ensures a.ctl[t] == b.ctl[t] { assert Agree(w, t, a, b); }
    assert a.ctl == b.ctl;
  }

  lemma SameCounts(w: World, m: Memory, a: seq<nat>, b: seq<nat>)
    requires Independent(w) && Fine(w, m) && Names(a, |w.tasks|) && Names(b, |w.tasks|)
    requires forall t: nat :: t < |w.tasks| ==>
      Alone(StepIn(w), m, t, Count(a, t)) == Alone(StepIn(w), m, t, Count(b, t))
    ensures Play(StepIn(w), m, a) == Play(StepIn(w), m, b)
  {
    var x, y := Play(StepIn(w), m, a), Play(StepIn(w), m, b);
    LevelIsSeparate(w);
    PlayUntouched(w, m, a);
    PlayUntouched(w, m, b);
    forall t: nat | t < |w.tasks| ensures Agree(w, t, x, y) {
      AsIfAlone(StepIn(w), FineIn(w), PartIn(w), |w.tasks|, m, a, t);
      AsIfAlone(StepIn(w), FineIn(w), PartIn(w), |w.tasks|, m, b, t);
      var z := Alone(StepIn(w), m, t, Count(a, t));
      AgreeSym(w, y, z, t);
      AgreeTrans(w, x, z, y, t);
    }
    MemorySame(w, m, x, y);
  }

  ghost predicate AllRest(w: World, m: Memory) {
    |m.ctl| == |w.tasks| && forall t: nat :: t < |w.tasks| ==> Resting(w, m, t)
  }

  ghost function RestIn(w: World): (Memory, nat) -> bool {
    (m: Memory, t: nat) => t < |w.tasks| == |m.ctl| && Resting(w, m, t)
  }

  /** Any two interleavings that bring a level to its end leave the same memory. */
  lemma LevelConfluent(w: World, m: Memory, a: seq<nat>, b: seq<nat>)
    requires Independent(w) && Fine(w, m) && Names(a, |w.tasks|) && Names(b, |w.tasks|)
    requires AllRest(w, Play(StepIn(w), m, a)) && AllRest(w, Play(StepIn(w), m, b))
    ensures Play(StepIn(w), m, a) == Play(StepIn(w), m, b)
  {
    LevelIsSeparate(w);
    assert Rests(StepIn(w), PartIn(w), RestIn(w), |w.tasks|);
    forall t: nat | t < |w.tasks| ensures Alone(StepIn(w), m, t, Count(a, t)) == Alone(StepIn(w), m, t, Count(b, t)) {
      SameEnd(StepIn(w), FineIn(w), PartIn(w), RestIn(w), |w.tasks|, m, a, b, t);
    }
    SameCounts(w, m, a, b);
  }

  /** In particular it is the memory that the tasks leave when they run one after another. */
  lemma SameAsInOrder(w: World, m: Memory, a: seq<nat>)
    requires Independent(w) && Fine(w, m) && Names(a, |w.tasks|)
    ensures Play(StepIn(w), m, a) == Play(StepIn(w), m, InOrder(a, |w.tasks|))
  {
    InOrderCounts(a, |w.tasks|, 0);
    forall t: nat | t < |w.tasks|
      ensures Count(InOrder(a, |w.tasks|), t) == Count(a, t)
    {
      InOrderCounts(a, |w.tasks|, t);
    }
    SameCounts(w, m, a, InOrder(a, |w.tasks|));
  }
}
