/**
 All schedules of a level lead to the same end: the tasks keep to disjoint parts of the
 shared memory, so that each one goes through the same steps as if it ran alone.
 */
module LevelSchedule {
  import opened Counting
  import opened Interleaving
  import opened SearchMachine
  import opened Ledger
  import opened LevelMachine
  import opened LevelFootprint

  /** Two connections that share neither net nor node. */
  ghost predicate Apart(w: World, c: nat, e: nat)
    requires c < |w.site.conns| == |w.site.boxes| && e < |w.site.conns|
  {
    c != e && w.site.conns[c].net != w.site.conns[e].net && forall v: nat :: !(w.Near(c, v) && w.Near(e, v))
  }

  ghost predicate TasksApart(w: World, t: nat, u: nat)
    requires w.Valid() && t < |w.tasks| && u < |w.tasks|
  {
    forall j, k :: 0 <= j < |w.tasks[t]| && 0 <= k < |w.tasks[u]| ==> Apart(w, w.tasks[t][j], w.tasks[u][k])
  }

  /** The tasks of the level list no connection twice and share neither nets nor nodes. */
  ghost predicate Independent(w: World) {
    && w.Valid() && (forall t: nat :: t < |w.tasks| ==> NoRepeat(w.tasks[t]))
    && forall t: nat, u: nat :: t < |w.tasks| && u < |w.tasks| && t != u ==> TasksApart(w, t, u)
  }

  /** Every task is among its own nodes. */
  ghost predicate Fine(w: World, m: Memory) { Fit(w, m) && forall t: nat :: t < |w.tasks| ==> TaskOk(w, m, t) }

  // One step

  lemma WriteFits(w: World, m: Memory, t: nat, c: nat, e: Effect)
    requires Fit(w, m) && t < |w.tasks| && c < |w.site.conns| && Own(w, c, e) && e.ctl.next <= |w.tasks[t]|
    ensures Fit(w, Write(m, t, e))
  {
    forall x | 0 <= x < |w.site.conns| ensures InNodes(Write(m, t, e).s.paths[x], |w.site.g|) {
      if e.result.Some? { NearInNodes(w, c, e.result.value.path); }
    }
  }

  /** After its effect is written, a task's new stage is in order. */
  ghost predicate LeavesOk(w: World, m: Memory, t: nat, c: nat, e: Effect)
    requires Fit(w, m) && t < |w.tasks| && c < |w.site.conns|
  {
    && Own(w, c, e) && e.ctl.next <= |w.tasks[t]| && (e.ctl.next == m.ctl[t].next || e.ctl.stage.Idle?)
    && Fit(w, Write(m, t, e)) && StageOk(w, Write(m, t, e), c, e.ctl.stage)
  }

  lemma StartKeeps(w: World, m: Memory, t: nat)
    requires Fit(w, m) && t < |w.tasks| && m.ctl[t].next < |w.tasks[t]|
    requires AllNear(w, w.tasks[t][m.ctl[t].next], m.s.paths[w.tasks[t][m.ctl[t].next]])
    ensures LeavesOk(w, m, t, w.tasks[t][m.ctl[t].next], StartConnection(w, m, t))
  {
    var c, e := w.tasks[t][m.ctl[t].next], StartConnection(w, m, t);
    WriteFits(w, m, t, c, e);
    assert w.Near(c, w.site.conns[c].sink);
  }

  lemma SearchBegins(w: World, m: Memory, t: nat, c: nat)
    requires Fit(w, m) && c < |w.site.conns| && At(w, m, t, c) && m.ctl[t].next < |w.tasks[t]|
    requires m.ctl[t].stage.Releasing? && m.ctl[t].stage.i == |m.ctl[t].stage.nodes|
    requires InNodes(m.ctl[t].stage.nodes, |w.site.g|)
    requires Own(w, c, ReleaseStep(w, m, t, c)) && Fit(w, Write(m, t, ReleaseStep(w, m, t, c)))
    ensures StageOk(w, Write(m, t, ReleaseStep(w, m, t, c)), c, ReleaseStep(w, m, t, c).ctl.stage)
  {
    var m' := Write(m, t, ReleaseStep(w, m, t, c));
    assert w.Near(c, w.site.conns[c].source) && w.Near(c, w.site.conns[c].sink);
    BeginKept(QueryAt(w, m', c), m.info);
  }

  lemma BooksKeep(w: World, m: Memory, t: nat, c: nat)
    requires Fit(w, m) && c < |w.site.conns| && At(w, m, t, c) && m.ctl[t].next < |w.tasks[t]|
    ensures m.ctl[t].stage.Releasing? ==>
              InNodes(m.ctl[t].stage.nodes, |w.site.g|) && LeavesOk(w, m, t, c, ReleaseStep(w, m, t, c))
    ensures m.ctl[t].stage.Claiming? ==>
              InNodes(m.ctl[t].stage.path, |w.site.g|) && LeavesOk(w, m, t, c, ClaimStep(w, m, t, c))
  {
    BooksLocal(w, m, m, t, c);
    assert w.Near(c, w.site.conns[c].source) && w.Near(c, w.site.conns[c].sink);
    if m.ctl[t].stage.Releasing? {
      WriteFits(w, m, t, c, ReleaseStep(w, m, t, c));
      if m.ctl[t].stage.i == |m.ctl[t].stage.nodes| { SearchBegins(w, m, t, c); }
    }
    if m.ctl[t].stage.Claiming? { WriteFits(w, m, t, c, ClaimStep(w, m, t, c)); }
  }

  lemma SearchKeeps(w: World, m: Memory, t: nat, c: nat)
    requires Fit(w, m) && c < |w.site.conns| && At(w, m, t, c) && m.ctl[t].next < |w.tasks[t]|
    requires m.ctl[t].stage.Searching?
    ensures InRange(QueryAt(w, m, c), m.info, m.ctl[t].stage.probe)
    ensures LeavesOk(w, m, t, c, SearchStep(w, m, t, c))
  {
    SearchOwn(w, m, t, c);
    var q, e := QueryAt(w, m, c), SearchStep(w, m, t, c);
    WriteFits(w, m, t, c, e);
    NextKept(q, m.info, m.ctl[t].stage.probe);
    if e.ctl.stage.Searching? { assert QueryAt(w, Write(m, t, e), c) == q; }
  }

  lemma EffectKeeps(w: World, m: Memory, t: nat)
    requires Fit(w, m) && t < |w.tasks| && TaskOk(w, m, t) && !Resting(w, m, t)
    ensures LeavesOk(w, m, t, w.tasks[t][m.ctl[t].next], StepEffect(w, m, t))
  {
    var c := w.tasks[t][m.ctl[t].next];
    match m.ctl[t].stage
    case Idle => StartKeeps(w, m, t);
    case Releasing(_, _) => BooksKeep(w, m, t, c);
    case Claiming(_, _) => BooksKeep(w, m, t, c);
    case Searching(_) => SearchKeeps(w, m, t, c);
  }

  lemma StepKeepsTask(w: World, m: Memory, t: nat)
    requires Fit(w, m) && t < |w.tasks| && TaskOk(w, m, t) && !Resting(w, m, t)
    ensures LeavesOk(w, m, t, w.tasks[t][m.ctl[t].next], StepEffect(w, m, t))
    ensures TaskOk(w, Write(m, t, StepEffect(w, m, t)), t)
  {
    EffectKeeps(w, m, t);
    var c, e := w.tasks[t][m.ctl[t].next], StepEffect(w, m, t);
    var m' := Write(m, t, e);
    forall k | 0 <= k < |w.tasks[t]| ensures AllNear(w, w.tasks[t][k], m'.s.paths[w.tasks[t][k]]) { }
  }

  /** A step of one task leaves everything that belongs to another task as it was. */
  lemma OthersAgree(w: World, m: Memory, t: nat, u: nat)
    requires Independent(w) && Fit(w, m) && t < |w.tasks| && u < |w.tasks| && t != u && TaskOk(w, m, t)
    requires !Resting(w, m, t)
    ensures Fit(w, Write(m, t, StepEffect(w, m, t))) && Agree(w, u, m, Write(m, t, StepEffect(w, m, t)))
  {
    EffectKeeps(w, m, t);
    var p, e := m.ctl[t].next, StepEffect(w, m, t);
    assert TasksApart(w, t, u);
    forall k | 0 <= k < |w.tasks[u]| ensures AgreeOn(w, w.tasks[u][k], m, Write(m, t, e)) {
      assert Apart(w, w.tasks[t][p], w.tasks[u][k]);
    }
  }

  lemma StepIsFine(w: World, m: Memory, t: nat)
    requires Independent(w) && Fine(w, m) && t < |w.tasks| && !Resting(w, m, t)
    ensures TaskOk(w, m, t) && LeavesOk(w, m, t, w.tasks[t][m.ctl[t].next], StepEffect(w, m, t))
    ensures Fine(w, Write(m, t, StepEffect(w, m, t)))
  {
    StepKeepsTask(w, m, t);
    var m' := Write(m, t, StepEffect(w, m, t));
    forall u: nat | u < |w.tasks| ensures TaskOk(w, m', u) {
      if u != t {
        OthersAgree(w, m, t, u);
        TaskOkLocal(w, m, m', u);
      }
    }
  }

  /** The memory after task t has moved; a task at rest stays where it is. */
  ghost function Step(w: World, m: Memory, t: nat): Memory {
    if Fine(w, m) && t < |w.tasks| && !Resting(w, m, t) then
      EffectKeeps(w, m, t);
      Write(m, t, StepEffect(w, m, t))
    else m
  }

  /** Two memories that agree for a task still do after it has moved in both. */
  lemma StepAgree(w: World, m: Memory, m': Memory, t: nat)
    requires Independent(w) && Fine(w, m) && Fine(w, m') && t < |w.tasks| && Agree(w, t, m, m')
    ensures Fit(w, Step(w, m, t)) && Fit(w, Step(w, m', t)) && Agree(w, t, Step(w, m, t), Step(w, m', t))
  {
    if !Resting(w, m, t) {
      StepLocal(w, m, m', t);
      StepIsFine(w, m, t);
      StepIsFine(w, m', t);
      WriteAgrees(w, m, m', t, w.tasks[t][m.ctl[t].next], StepEffect(w, m, t));
    }
  }

  lemma WriteAgrees(w: World, m: Memory, m': Memory, t: nat, c: nat, e: Effect)
    requires Fit(w, m) && Fit(w, m') && t < |w.tasks| && c < |w.site.conns| && Agree(w, t, m, m') && Own(w, c, e)
    requires Fit(w, Write(m, t, e)) && Fit(w, Write(m', t, e))
    ensures Agree(w, t, Write(m, t, e), Write(m', t, e))
  {
    forall k | 0 <= k < |w.tasks[t]| ensures AgreeOn(w, w.tasks[t][k], Write(m, t, e), Write(m', t, e)) {
      assert AgreeOn(w, w.tasks[t][k], m, m');
    }
  }

  lemma AgreeTrans(w: World, a: Memory, b: Memory, c: Memory, t: nat)
    requires Fit(w, a) && Fit(w, b) && Fit(w, c) && t < |w.tasks| && Agree(w, t, a, b) && Agree(w, t, b, c)
    ensures Agree(w, t, a, c)
  {
    forall k | 0 <= k < |w.tasks[t]| ensures AgreeOn(w, w.tasks[t][k], a, c) {
      assert AgreeOn(w, w.tasks[t][k], a, b) && AgreeOn(w, w.tasks[t][k], b, c);
    }
  }

  lemma OtherStep(w: World, m: Memory, alone: Memory, u: nat, t: nat)
    requires Independent(w) && Fine(w, m) && Fine(w, alone) && u < |w.tasks| && t < |w.tasks| && u != t
    requires Agree(w, t, m, alone)
    ensures Fit(w, Step(w, m, u)) && Agree(w, t, Step(w, m, u), alone)
  {
    if !Resting(w, m, u) {
      OthersAgree(w, m, u, t);
      AgreeSym(w, m, Step(w, m, u), t);
      AgreeTrans(w, Step(w, m, u), m, alone, t);
    }
  }

  lemma AgreeSym(w: World, a: Memory, b: Memory, t: nat)
    requires Fit(w, a) && Fit(w, b) && t < |w.tasks| && Agree(w, t, a, b)
    ensures Agree(w, t, b, a)
  {
    forall k | 0 <= k < |w.tasks[t]| ensures AgreeOn(w, w.tasks[t][k], b, a) { assert AgreeOn(w, w.tasks[t][k], a, b); }
  }

  /** The parts of the memory that belong to task t are the same. */
  ghost predicate SamePart(w: World, t: nat, a: Memory, b: Memory) {
    Fit(w, a) && Fit(w, b) && t < |w.tasks| && Agree(w, t, a, b)
  }

  ghost function StepIn(w: World): (Memory, nat) -> Memory { (m: Memory, t: nat) => Step(w, m, t) }
  ghost function FineIn(w: World): Memory -> bool { (m: Memory) => Fine(w, m) }
  ghost function PartIn(w: World): (nat, Memory, Memory) -> bool {
    (t: nat, a: Memory, b: Memory) => SamePart(w, t, a, b)
  }

  /** The tasks of a level are separate. */
  lemma LevelIsSeparate(w: World)
    requires Independent(w)
    ensures Separate(StepIn(w), FineIn(w), PartIn(w), |w.tasks|)
  {
    forall m: Memory, t: nat | Fine(w, m) && t < |w.tasks| ensures Fine(w, Step(w, m, t)) && SamePart(w, t, m, m) {
      if !Resting(w, m, t) { StepIsFine(w, m, t); }
      forall k | 0 <= k < |w.tasks[t]| ensures AgreeOn(w, w.tasks[t][k], m, m) { }
    }
    forall a, b, t: nat | Fine(w, a) && Fine(w, b) && t < |w.tasks| && SamePart(w, t, a, b)
      ensures SamePart(w, t, Step(w, a, t), Step(w, b, t))
    {
      StepAgree(w, a, b, t);
    }
    forall a, b, t: nat, u: nat
      | Fine(w, a) && Fine(w, b) && t < |w.tasks| && u < |w.tasks| && t != u && SamePart(w, t, a, b)
      ensures SamePart(w, t, Step(w, a, u), b)
    {
      OtherStep(w, a, b, u, t);
    }
  }
}
