/**
 What a step of a level task touches: it writes only entries of its own connection, net and
 nearby nodes, and its outcome depends on nothing else. Children outside the box are looked
 at, but what their entries hold makes no difference.
 */
module LevelFootprint {
  import opened SearchMachine
  import opened Ledger
  import opened Site
  import opened LevelMachine

  /** The effect touches only what belongs to connection c. */
  ghost predicate Own(w: World, c: nat, e: Effect)
    requires c < |w.site.conns| == |w.site.boxes|
  {
    && (forall v :: v in e.info ==> w.Near(c, v))
    && (e.claim.Some? ==> e.claim.value.net == w.site.conns[c].net && w.Near(c, e.claim.value.v))
    && (e.result.Some? ==> e.result.value.c == c && AllNear(w, c, e.result.value.path))
  }

  /** The two memories hold the same for connection c, its net and its nodes. */
  ghost predicate AgreeOn(w: World, c: nat, m: Memory, m': Memory)
    requires Fit(w, m) && Fit(w, m') && c < |w.site.conns|
  {
    && m.s.users[w.site.conns[c].net] == m'.s.users[w.site.conns[c].net]
    && m.s.paths[c] == m'.s.paths[c] && m.s.routed[c] == m'.s.routed[c] && m.s.fails[c] == m'.s.fails[c]
    && forall v: nat :: w.Near(c, v) ==>
         m.info[v] == m'.info[v] && m.s.occ[v] == m'.s.occ[v] && m.s.present[v] == m'.s.present[v]
  }

  ghost predicate Agree(w: World, t: nat, m: Memory, m': Memory)
    requires Fit(w, m) && Fit(w, m') && t < |w.tasks|
  {
    m.ctl[t] == m'.ctl[t] && forall k :: 0 <= k < |w.tasks[t]| ==> AgreeOn(w, w.tasks[t][k], m, m')
  }

  /** What holds of the stage of task t when it works on connection c. */
  ghost predicate At(w: World, m: Memory, t: nat, c: nat)
    requires Fit(w, m) && c < |w.site.conns|
  {
    t < |w.tasks| && StageOk(w, m, c, m.ctl[t].stage)
  }

  /** The searches of connection c in the two memories agree about every nearby node. */
  lemma QueriesAgree(w: World, m: Memory, m': Memory, c: nat)
    requires Fit(w, m) && Fit(w, m') && c < |w.site.conns| && AgreeOn(w, c, m, m')
    ensures SameNearby(QueryAt(w, m, c), QueryAt(w, m', c), m.info, m'.info)
  {
    var q, q' := QueryAt(w, m, c), QueryAt(w, m', c);
    forall v: nat | Nearby(q, v) && v < |m.info| ensures SameAt(q, q', m.info, m'.info, v) {
      assert w.Near(c, v);
      SameFigures(w.site, m.s, m'.s, c, v);
    }
  }

  lemma SearchOwn(w: World, m: Memory, t: nat, c: nat)
    requires Fit(w, m) && c < |w.site.conns| && At(w, m, t, c) && m.ctl[t].stage.Searching?
    ensures InRange(QueryAt(w, m, c), m.info, m.ctl[t].stage.probe)
    ensures Own(w, c, SearchStep(w, m, t, c))
  {
    var q, probe := QueryAt(w, m, c), m.ctl[t].stage.probe;
    NextKept(q, m.info, probe);
    assert forall v: nat :: Nearby(q, v) <==> w.Near(c, v);
  }

  lemma SearchLocal(w: World, m: Memory, m': Memory, t: nat, c: nat)
    requires Fit(w, m) && Fit(w, m') && c < |w.site.conns| && At(w, m, t, c) && AgreeOn(w, c, m, m')
    requires m.ctl[t] == m'.ctl[t]
    requires m.ctl[t].stage.Searching?
    ensures InRange(QueryAt(w, m, c), m.info, m.ctl[t].stage.probe)
    ensures InRange(QueryAt(w, m', c), m'.info, m.ctl[t].stage.probe)
    ensures SearchStep(w, m, t, c) == SearchStep(w, m', t, c) && Own(w, c, SearchStep(w, m, t, c))
  {
    SearchOwn(w, m, t, c);
    QueriesAgree(w, m, m', c);
    NextSame(QueryAt(w, m, c), QueryAt(w, m', c), m.info, m'.info, m.ctl[t].stage.probe);
  }

  lemma BooksLocal(w: World, m: Memory, m': Memory, t: nat, c: nat)
    requires Fit(w, m) && Fit(w, m') && c < |w.site.conns| && At(w, m, t, c) && AgreeOn(w, c, m, m')
    requires m.ctl[t] == m'.ctl[t]
    ensures m.ctl[t].stage.Releasing? ==>
      && InNodes(m.ctl[t].stage.nodes, |w.site.g|)
      && ReleaseStep(w, m, t, c) == ReleaseStep(w, m', t, c) && Own(w, c, ReleaseStep(w, m, t, c))
    ensures m.ctl[t].stage.Claiming? ==>
      && InNodes(m.ctl[t].stage.path, |w.site.g|)
      && ClaimStep(w, m, t, c) == ClaimStep(w, m', t, c) && Own(w, c, ClaimStep(w, m, t, c))
  {
    assert w.Near(c, w.site.conns[c].source) && w.Near(c, w.site.conns[c].sink);
  }

  lemma StartLocal(w: World, m: Memory, m': Memory, t: nat)
    requires Fit(w, m) && Fit(w, m') && t < |w.tasks| && m.ctl[t] == m'.ctl[t] && m.ctl[t].next < |w.tasks[t]|
    requires AgreeOn(w, w.tasks[t][m.ctl[t].next], m, m')
    requires AllNear(w, w.tasks[t][m.ctl[t].next], m.s.paths[w.tasks[t][m.ctl[t].next]])
    ensures StartConnection(w, m, t) == StartConnection(w, m', t)
    ensures Own(w, w.tasks[t][m.ctl[t].next], StartConnection(w, m, t))
  {
  }

  lemma StageOkLocal(w: World, m: Memory, m': Memory, c: nat, stage: Stage)
    requires Fit(w, m) && Fit(w, m') && c < |w.site.conns| && AgreeOn(w, c, m, m') && StageOk(w, m, c, stage)
    ensures StageOk(w, m', c, stage)
  {
    if stage.Searching? {
      QueriesAgree(w, m, m', c);
      KeptSame(QueryAt(w, m, c), QueryAt(w, m', c), m.info, m'.info, stage.probe);
    }
  }

  lemma TaskOkLocal(w: World, m: Memory, m': Memory, t: nat)
    requires Fit(w, m) && Fit(w, m') && t < |w.tasks| && TaskOk(w, m, t) && Agree(w, t, m, m')
    ensures TaskOk(w, m', t)
  {
    forall k | 0 <= k < |w.tasks[t]| ensures AllNear(w, w.tasks[t][k], m'.s.paths[w.tasks[t][k]]) {
      assert AgreeOn(w, w.tasks[t][k], m, m');
    }
    if m.ctl[t].next < |w.tasks[t]| {
      var c := w.tasks[t][m.ctl[t].next];
      assert AgreeOn(w, c, m, m');
      StageOkLocal(w, m, m', c, m.ctl[t].stage);
    }
  }

  /** A step is decided by what belongs to its own task, and touches nothing else. */
  lemma StepLocal(w: World, m: Memory, m': Memory, t: nat)
    requires Fit(w, m) && Fit(w, m') && t < |w.tasks| && TaskOk(w, m, t) && Agree(w, t, m, m') && !Resting(w, m, t)
    ensures TaskOk(w, m', t) && !Resting(w, m', t)
    ensures StepEffect(w, m, t) == StepEffect(w, m', t)
    ensures Own(w, w.tasks[t][m.ctl[t].next], StepEffect(w, m, t))
  {
    TaskOkLocal(w, m, m', t);
    var c := w.tasks[t][m.ctl[t].next];
    assert AgreeOn(w, c, m, m') && At(w, m, t, c);
    match m.ctl[t].stage
    case Idle => StartLocal(w, m, m', t);
    case Releasing(_, _) => BooksLocal(w, m, m', t, c);
    case Claiming(_, _) => BooksLocal(w, m, m', t, c);
    case Searching(_) => SearchLocal(w, m, m', t, c);
  }
}
