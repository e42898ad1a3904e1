/**
 runJobsMT (src/utils/MTStat.cpp): worker threads take job numbers from a shared counter
 until it has run past the last job. Taking a number happens under a mutex, in one step;
 handling a job is another step; the workers interleave in any way.
 */
module RunJobs {
  import opened Counting

  datatype Worker = Ready | Busy(job: nat) | Done

  /** The shared counter, the workers, and the jobs handled so far. */
  datatype Pool = Pool(globalJobIdx: nat, workers: seq<Worker>, handled: seq<nat>)

  /** The next step of worker t. */
  function Step(p: Pool, numJobs: nat, t: nat): Pool
    requires t < |p.workers|
  {
    match p.workers[t]
    case Ready =>
      var jobIdx := p.globalJobIdx;
      Pool(jobIdx + 1, p.workers[t := if jobIdx >= numJobs then Done else Busy(jobIdx)], p.handled)
    case Busy(jobIdx) => Pool(p.globalJobIdx, p.workers[t := Ready], p.handled + [jobIdx])
    case Done => p
  }

  predicate AllDone(p: Pool) { forall t :: 0 <= t < |p.workers| ==> p.workers[t].Done? }

  /** Every number given out is in one worker's hands or handled, exactly once. */
  ghost predicate Accounted(p: Pool, numJobs: nat) {
    && (forall j: nat ::
          Count(p.handled, j) + Count(p.workers, Busy(j)) == if j < p.globalJobIdx && j < numJobs then 1 else 0)
    && (forall t :: 0 <= t < |p.workers| && p.workers[t].Done? ==> p.globalJobIdx > numJobs)
  }

  /** Every step of every worker keeps the account. */
  lemma StepKeeps(p: Pool, numJobs: nat, t: nat)
    requires t < |p.workers| && Accounted(p, numJobs)
    ensures Accounted(Step(p, numJobs, t), numJobs)
  {
    var q := Step(p, numJobs, t);
    forall j: nat
      ensures Count(q.handled, j) + Count(q.workers, Busy(j)) == if j < q.globalJobIdx && j < numJobs then 1 else 0
    {
      CountUpdate(p.workers, t, q.workers[t], Busy(j));
      if p.workers[t].Busy? { CountSnoc(p.handled, p.workers[t].job, j); }
    }
  }

  /** Once every worker has stopped, each job has been handled exactly once, and nothing else. */
  lemma DoneIsComplete(p: Pool, numJobs: nat, j: nat)
    requires Accounted(p, numJobs) && AllDone(p) && |p.workers| > 0
    ensures Count(p.handled, j) == if j < numJobs then 1 else 0
  {
    CountIn(p.workers, Busy(j));
    assert p.workers[0].Done?;
  }

  /** The pool after the steps of a schedule. */
  function Run(p: Pool, numJobs: nat, schedule: seq<nat>): (r: Pool)
    requires forall i :: 0 <= i < |schedule| ==> schedule[i] < |p.workers|
    ensures |r.workers| == |p.workers|
  {
    if |schedule| == 0 then p
    else Step(Run(p, numJobs, schedule[..|schedule| - 1]), numJobs, schedule[|schedule| - 1])
  }

  function Start(workers: nat): Pool { Pool(0, seq(workers, _ => Ready), []) }

  lemma {:induction false} RunAccounts(workers: nat, numJobs: nat, schedule: seq<nat>)
    requires forall i :: 0 <= i < |schedule| ==> schedule[i] < workers
    ensures Accounted(Run(Start(workers), numJobs, schedule), numJobs)
  {
    if |schedule| == 0 {
      forall j: nat ensures Count(Start(workers).workers, Busy(j)) == 0 { CountIn(Start(workers).workers, Busy(j)); }
    } else {
      RunAccounts(workers, numJobs, schedule[..|schedule| - 1]);
      StepKeeps(Run(Start(workers), numJobs, schedule[..|schedule| - 1]), numJobs, schedule[|schedule| - 1]);
    }
  }

  /** In every interleaving no job is handled twice, and at the end none is missing. */
  lemma EveryJobOnce(workers: nat, numJobs: nat, schedule: seq<nat>, j: nat)
    requires workers > 0 && forall i :: 0 <= i < |schedule| ==> schedule[i] < workers
    ensures var r := Run(Start(workers), numJobs, schedule);
            && Count(r.handled, j) <= (if j < numJobs then 1 else 0)
            && (AllDone(r) ==> Count(r.handled, j) == if j < numJobs then 1 else 0)
  {
    RunAccounts(workers, numJobs, schedule);
    var r := Run(Start(workers), numJobs, schedule);
    if AllDone(r) { DoneIsComplete(r, numJobs, j); }
  }

  /** Steps that the pool can still make. */
  function Weight(w: Worker): nat { match w case Ready => 1 case Busy(_) => 2 case Done => 0 }

  function Effort(workers: seq<Worker>): nat {
    if |workers| == 0 then 0 else Effort(workers[..|workers| - 1]) + Weight(workers[|workers| - 1])
  }

  function StepsLeft(p: Pool, numJobs: nat): nat {
    Effort(p.workers) + (if p.globalJobIdx < numJobs then 2 * (numJobs - p.globalJobIdx) else 0)
  }

  lemma {:induction false} EffortUpdate(workers: seq<Worker>, t: nat, w: Worker)
    requires t < |workers|
    ensures Effort(workers[t := w]) == Effort(workers) - Weight(workers[t]) + Weight(w)
  {
    var last := |workers| - 1;
    if t == last {
      assert workers[t := w][..last] == workers[..last];
    } else {
      assert workers[t := w][..last] == workers[..last][t := w];
      EffortUpdate(workers[..last], t, w);
    }
  }

  /** A step of a worker that has not stopped brings the end nearer. */
  lemma StepProgresses(p: Pool, numJobs: nat, t: nat)
    requires t < |p.workers| && !p.workers[t].Done?
    ensures StepsLeft(Step(p, numJobs, t), numJobs) < StepsLeft(p, numJobs)
  {
    EffortUpdate(p.workers, t, Step(p, numJobs, t).workers[t]);
  }

  /**
   Handle all jobs, by one thread or by several in an order that is left open: the call ends,
   and it ends only when every job has been handled exactly once.
   */
  method RunJobsMT(numJobs: nat, requested: int) returns (handled: seq<nat>)
    ensures forall j: nat :: Count(handled, j) == if j < numJobs then 1 else 0
  {
    var numThreads := if numJobs < requested then numJobs else requested;
    if numThreads <= 1 {
      handled := [];
      for i := 0 to numJobs
        invariant forall j: nat :: Count(handled, j) == if j < i then 1 else 0
      {
        var job: nat := i;
        forall j: nat ensures Count(handled + [job], j) == Count(handled, j) + (if job == j then 1 else 0) {
          CountSnoc(handled, job, j);
        }
        handled := handled + [job];
      }
    } else {
      var p := Start(numThreads);
      RunAccounts(numThreads, numJobs, []);
      assert Run(p, numJobs, []) == p;
      while exists t :: 0 <= t < |p.workers| && !p.workers[t].Done?
        invariant |p.workers| == numThreads && Accounted(p, numJobs)
        decreases StepsLeft(p, numJobs)
      {
        var t :| 0 <= t < |p.workers| && !p.workers[t].Done?;
        StepKeeps(p, numJobs, t);
        StepProgresses(p, numJobs, t);
        p := Step(p, numJobs, t);
      }
      handled := p.handled;
      forall j: nat ensures Count(handled, j) == if j < numJobs then 1 else 0 { DoneIsComplete(p, numJobs, j); }
    }
  }
}
