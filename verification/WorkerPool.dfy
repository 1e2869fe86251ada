/** The bounded worker pools of the connector (connector/app/runtime.py): a semaphore, two
    counters and an executor, over every interleaving of callers and workers. */
module WorkerPool {
  function AnalysisWorkers(cpus: int): (n: nat)
    ensures 1 <= n <= 4
  {
    if cpus - 2 < 1 then 1 else if cpus - 2 > 4 then 4 else cpus - 2
  }

  function FfmpegWorkers(cpus: int): (n: nat)
    ensures 1 <= n <= 2
  {
    if cpus < 8 then 1 else 2
  }

  // ----- the state -----

  /** An accepted job: its slot is taken, it is counted as queued, handed to the executor, run,
      returned, reported to `on_complete`, and at last its slot is free again. */
  datatype Stage = Accepted | Queued | Submitted | Running | Returned | Reported | Released

  /** `waits` tells the analysis pool, whose callers wait for a result and may give up, from the
      clip pool. `reports` logs the jobs whose `on_complete` ran; an analysis has none, there the
      step does nothing. `abandoned` are the jobs whose caller gave up. */
  datatype Pool = Pool(
    workers: nat, waits: bool, free: int, depth: int, active: int, dropped: nat, requests: nat,
    jobs: seq<Stage>, reports: seq<nat>, abandoned: set<nat>)

  function NewPool(workers: nat, waits: bool): Pool {
    Pool(workers, waits, 2 * workers, 0, 0, 0, 0, [], [], {})
  }

  // ----- the steps, each atomic -----

  datatype Action =
    | Request
    | CountQueued(job: nat)
    | Submit(job: nat)
    | StartRun(job: nat)
    | EndRun(job: nat)
    | Report(job: nat)
    | Release(job: nat)
    | TimeOut(job: nat)

  predicate IsAt(p: Pool, job: nat, stage: Stage) {
    job < |p.jobs| && p.jobs[job] == stage
  }

  function Tally(jobs: seq<Stage>, f: Stage -> nat): nat {
    if jobs == [] then 0 else Tally(jobs[..|jobs| - 1], f) + f(jobs[|jobs| - 1])
  }

  function HoldsSlot(s: Stage): nat {
    if s.Released? then 0 else 1
  }

  function IsQueued(s: Stage): nat {
    if s.Queued? || s.Submitted? then 1 else 0
  }

  function IsRunning(s: Stage): nat {
    if s.Running? then 1 else 0
  }

  function Move(p: Pool, job: nat, stage: Stage): Pool
    requires job < |p.jobs|
  {
    p.(jobs := p.jobs[job := stage])
  }

  /** The job was submitted and its caller still waits. The result of a job that returned may
      not have reached the caller yet. */
  predicate IsAwaited(p: Pool, job: nat) {
    && p.waits && job < |p.jobs| && job !in p.abandoned
    && (p.jobs[job].Submitted? || p.jobs[job].Running? || p.jobs[job].Returned?)
  }

  /** A caller that gives up counts its request as dropped; the job goes on. */
  function GiveUp(p: Pool, job: nat): Pool {
    p.(dropped := p.dropped + 1, abandoned := p.abandoned + {job})
  }

  /** A step that is not due does nothing; a job starts only while a worker thread is free. */
  function Next(p: Pool, a: Action): Pool {
    match a
    case Request =>
      if p.free > 0 then p.(requests := p.requests + 1, free := p.free - 1, jobs := p.jobs + [Accepted])
      else p.(requests := p.requests + 1, dropped := p.dropped + 1)
    case CountQueued(job) => if IsAt(p, job, Accepted) then Move(p, job, Queued).(depth := p.depth + 1) else p
    case Submit(job) => if IsAt(p, job, Queued) then Move(p, job, Submitted) else p
    case StartRun(job) =>
      if IsAt(p, job, Submitted) && Tally(p.jobs, IsRunning) < p.workers then
        Move(p, job, Running).(depth := p.depth - 1, active := p.active + 1)
      else p
    case EndRun(job) => if IsAt(p, job, Running) then Move(p, job, Returned).(active := p.active - 1) else p
    case Report(job) => if IsAt(p, job, Returned) then Move(p, job, Reported).(reports := p.reports + [job]) else p
    case Release(job) => if IsAt(p, job, Reported) then Move(p, job, Released).(free := p.free + 1) else p
    case TimeOut(job) => if IsAwaited(p, job) then GiveUp(p, job) else p
  }

  function Run(p: Pool, actions: seq<Action>): Pool
    decreases |actions|
  {
    if actions == [] then p else Run(Next(p, actions[0]), actions[1..])
  }

  // ----- what every interleaving keeps -----

  ghost predicate ReportedOnce(p: Pool) {
    && (forall i, j :: 0 <= i < j < |p.reports| ==> p.reports[i] != p.reports[j])
    && forall job: nat :: job in p.reports <==> job < |p.jobs| && (p.jobs[job].Reported? || p.jobs[job].Released?)
  }

  ghost predicate Accounted(p: Pool) {
    && p.free >= 0 && p.free + Tally(p.jobs, HoldsSlot) == 2 * p.workers
    && p.depth == Tally(p.jobs, IsQueued)
    && p.active == Tally(p.jobs, IsRunning) <= p.workers
    && p.requests + |p.abandoned| == p.dropped + |p.jobs|
    && (forall job :: job in p.abandoned ==> job < |p.jobs|) && (!p.waits ==> p.abandoned == {})
  }

  ghost predicate Invariant(p: Pool) {
    Accounted(p) && ReportedOnce(p)
  }

  lemma {:induction false} TallyMove(jobs: seq<Stage>, job: nat, stage: Stage, f: Stage -> nat)
    requires job < |jobs|
    ensures Tally(jobs[job := stage], f) == Tally(jobs, f) - f(jobs[job]) + f(stage)
  {
    var n := |jobs| - 1;
    if job == n {
      assert jobs[job := stage][..n] == jobs[..n];
    } else {
      TallyMove(jobs[..n], job, stage, f);
      assert jobs[job := stage][..n] == jobs[..n][job := stage];
    }
  }

  lemma TallySnoc(jobs: seq<Stage>, stage: Stage, f: Stage -> nat)
    ensures Tally(jobs + [stage], f) == Tally(jobs, f) + f(stage)
  {
    assert (jobs + [stage])[..|jobs|] == jobs;
  }

  lemma {:induction false} QueuedAndRunningHold(jobs: seq<Stage>)
    ensures Tally(jobs, IsQueued) + Tally(jobs, IsRunning) <= Tally(jobs, HoldsSlot)
  {
    if jobs != [] {
      QueuedAndRunningHold(jobs[..|jobs| - 1]);
    }
  }

  function JobOf(a: Action): nat
    requires !a.Request?
  {
    match a
    case CountQueued(job) => job
    case Submit(job) => job
    case StartRun(job) => job
    case EndRun(job) => job
    case Report(job) => job
    case Release(job) => job
    case TimeOut(job) => job
  }

  /** A step of some job, as opposed to one of its caller. */
  predicate IsMove(a: Action) {
    !a.Request? && !a.TimeOut?
  }

  lemma MoveTallies(jobs: seq<Stage>, job: nat, stage: Stage)
    requires job < |jobs|
    ensures var now, was := jobs[job := stage], jobs[job];
      && Tally(now, HoldsSlot) == Tally(jobs, HoldsSlot) - HoldsSlot(was) + HoldsSlot(stage)
      && Tally(now, IsQueued) == Tally(jobs, IsQueued) - IsQueued(was) + IsQueued(stage)
      && Tally(now, IsRunning) == Tally(jobs, IsRunning) - IsRunning(was) + IsRunning(stage)
  {
    TallyMove(jobs, job, stage, HoldsSlot);
    TallyMove(jobs, job, stage, IsQueued);
    TallyMove(jobs, job, stage, IsRunning);
  }

  lemma RequestAccounted(p: Pool)
    requires Accounted(p)
    ensures Accounted(Next(p, Request))
  {
    TallySnoc(p.jobs, Accepted, HoldsSlot);
    TallySnoc(p.jobs, Accepted, IsQueued);
    TallySnoc(p.jobs, Accepted, IsRunning);
  }

  lemma TimeOutAccounted(p: Pool, job: nat)
    requires Accounted(p)
    ensures Accounted(Next(p, TimeOut(job)))
  {
  }

  lemma MoveAccounted(p: Pool, a: Action)
    requires Accounted(p) && IsMove(a) && Next(p, a) != p
    ensures Accounted(Next(p, a))
  {
    MoveTallies(p.jobs, JobOf(a), Next(p, a).jobs[JobOf(a)]);
  }

  lemma NextAccounted(p: Pool, a: Action)
    requires Accounted(p)
    ensures Accounted(Next(p, a))
  {
    if a.Request? {
      RequestAccounted(p);
    } else if a.TimeOut? {
      TimeOutAccounted(p, a.job);
    } else if Next(p, a) != p {
      MoveAccounted(p, a);
    }
  }

  lemma NextReportedOnce(p: Pool, a: Action)
    requires ReportedOnce(p)
    ensures ReportedOnce(Next(p, a))
  {
  }

  lemma {:induction false} RunKeeps(p: Pool, actions: seq<Action>)
    requires Invariant(p)
    ensures Invariant(Run(p, actions))
    decreases |actions|
  {
    if actions != [] {
      NextAccounted(p, actions[0]);
      NextReportedOnce(p, actions[0]);
      RunKeeps(Next(p, actions[0]), actions[1..]);
    }
  }

  /** In every reachable state: slots balance, queue and workers never hold more than the slots
      taken, no more run than there are workers, each request was dropped or accepted, and a job
      was reported exactly once if its slot is free again and at most once otherwise. The dropped
      count is that of the refused requests and, in the analysis pool only, of the accepted ones
      whose caller gave up. */
  lemma SlotsBalance(workers: nat, waits: bool, actions: seq<Action>)
    ensures var p := Run(NewPool(workers, waits), actions);
      && Invariant(p)
      && p.workers == workers && p.waits == waits
      && p.depth + p.active <= 2 * workers - p.free
      && 0 <= p.active <= workers && 0 <= p.depth
  {
    RunKeeps(NewPool(workers, waits), actions);
    SameWorkers(NewPool(workers, waits), actions);
    QueuedAndRunningHold(Run(NewPool(workers, waits), actions).jobs);
  }

  lemma {:induction false} SameWorkers(p: Pool, actions: seq<Action>)
    ensures Run(p, actions).workers == p.workers && Run(p, actions).waits == p.waits
    decreases |actions|
  {
    if actions != [] {
      SameWorkers(Next(p, actions[0]), actions[1..]);
    }
  }

  /** The bounded semaphore is never released past its bound. */
  lemma ReleaseIsWithinBound(workers: nat, waits: bool, actions: seq<Action>, job: nat)
    requires IsAt(Run(NewPool(workers, waits), actions), job, Reported)
    ensures Run(NewPool(workers, waits), actions).free < 2 * workers
  {
    var p := Run(NewPool(workers, waits), actions);
    SlotsBalance(workers, waits, actions);
    TallyMove(p.jobs, job, Released, HoldsSlot);
  }

  // ----- nothing gets stuck -----

  function StepsLeft(s: Stage): nat {
    match s
    case Accepted => 6
    case Queued => 5
    case Submitted => 4
    case Running => 3
    case Returned => 2
    case Reported => 1
    case Released => 0
  }

  /** The step a job takes next. */
  function DueAction(p: Pool, job: nat): Action
    requires job < |p.jobs| && !p.jobs[job].Released?
  {
    match p.jobs[job]
    case Accepted => CountQueued(job)
    case Queued => Submit(job)
    case Submitted => StartRun(job)
    case Running => EndRun(job)
    case Returned => Report(job)
    case _ => Release(job)
  }

  lemma {:induction false} SomeoneRuns(jobs: seq<Stage>) returns (job: nat)
    requires Tally(jobs, IsRunning) > 0
    ensures job < |jobs| && jobs[job].Running?
  {
    var n := |jobs| - 1;
    if jobs[n].Running? {
      job := n;
    } else {
      job := SomeoneRuns(jobs[..n]);
    }
  }

  predicate CanMove(p: Pool, job: nat) {
    && job < |p.jobs| && !p.jobs[job].Released?
    && (p.jobs[job].Submitted? ==> Tally(p.jobs, IsRunning) < p.workers)
  }

  lemma DueMoves(p: Pool, job: nat) returns (stage: Stage)
    requires CanMove(p, job)
    ensures Next(p, DueAction(p, job)).jobs == p.jobs[job := stage]
    ensures StepsLeft(stage) == StepsLeft(p.jobs[job]) - 1
    ensures IsMove(DueAction(p, job)) && JobOf(DueAction(p, job)) == job
  {
    stage := Next(p, DueAction(p, job)).jobs[job];
  }

  /** While any slot is held some job can take a step, and every step brings its job closer to
      release: the pool cannot deadlock. */
  lemma SomeStepIsDue(p: Pool, held: nat) returns (a: Action)
    requires Invariant(p) && p.workers > 0 && held < |p.jobs| && !p.jobs[held].Released?
    ensures IsMove(a) && JobOf(a) < |p.jobs| && |Next(p, a).jobs| == |p.jobs|
    ensures StepsLeft(Next(p, a).jobs[JobOf(a)]) == StepsLeft(p.jobs[JobOf(a)]) - 1
    ensures Tally(Next(p, a).jobs, StepsLeft) == Tally(p.jobs, StepsLeft) - 1
  {
    var job := held;
    if p.jobs[held].Submitted? && Tally(p.jobs, IsRunning) >= p.workers {
      job := SomeoneRuns(p.jobs);
    }
    a := DueAction(p, job);
    var stage := DueMoves(p, job);
    TallyMove(p.jobs, job, stage, StepsLeft);
  }

  /** The steps of a run that move a job. */
  function StepsTaken(p: Pool, actions: seq<Action>): nat
    decreases |actions|
  {
    if actions == [] then 0
    else (if IsMove(actions[0]) && Next(p, actions[0]) != p then 1 else 0)
         + StepsTaken(Next(p, actions[0]), actions[1..])
  }

  lemma MoveLowers(p: Pool, a: Action)
    requires !a.Request?
    ensures Tally(Next(p, a).jobs, StepsLeft)
      == Tally(p.jobs, StepsLeft) - if IsMove(a) && Next(p, a) != p then 1 else 0
  {
    if IsMove(a) && Next(p, a) != p {
      TallyMove(p.jobs, JobOf(a), Next(p, a).jobs[JobOf(a)], StepsLeft);
    }
  }

  lemma {:induction false} MovesLower(p: Pool, actions: seq<Action>)
    requires forall k :: 0 <= k < |actions| ==> !actions[k].Request?
    ensures Tally(Run(p, actions).jobs, StepsLeft) == Tally(p.jobs, StepsLeft) - StepsTaken(p, actions)
    decreases |actions|
  {
    if actions != [] {
      MoveLowers(p, actions[0]);
      MovesLower(Next(p, actions[0]), actions[1..]);
    }
  }

  /** No job can take a step. */
  ghost predicate AtRest(p: Pool) {
    forall a {:trigger Next(p, a)} :: IsMove(a) ==> Next(p, a) == p
  }

  lemma AtRestIsReleased(p: Pool, job: nat)
    requires Invariant(p) && p.workers > 0 && job < |p.jobs|
    ensures AtRest(p) ==> p.jobs[job].Released?
  {
    if !p.jobs[job].Released? {
      var a := SomeStepIsDue(p, job);
      assert Next(p, a) != p;
    }
  }

  lemma {:induction false} NoneHeld(jobs: seq<Stage>)
    requires forall k :: 0 <= k < |jobs| ==> jobs[k].Released?
    ensures Tally(jobs, HoldsSlot) == 0 && Tally(jobs, StepsLeft) == 0
  {
    if jobs != [] {
      NoneHeld(jobs[..|jobs| - 1]);
    }
  }

  /** Without new requests every schedule drains the pool, whichever jobs go first and whichever
      callers give up: it comes to rest after a number of steps that is known beforehand, never
      more, and then every slot is free. */
  lemma EveryScheduleDrains(p: Pool, actions: seq<Action>)
    requires Invariant(p) && p.workers > 0 && forall k :: 0 <= k < |actions| ==> !actions[k].Request?
    ensures StepsTaken(p, actions) <= Tally(p.jobs, StepsLeft)
    ensures var q := Run(p, actions);
      AtRest(q) ==> StepsTaken(p, actions) == Tally(p.jobs, StepsLeft) && q.free == 2 * q.workers
  {
    MovesLower(p, actions);
    RunKeeps(p, actions);
    SameWorkers(p, actions);
    var q := Run(p, actions);
    if AtRest(q) {
      forall held | 0 <= held < |q.jobs| ensures q.jobs[held].Released? {
        AtRestIsReleased(q, held);
      }
      NoneHeld(q.jobs);
    }
  }

  // ----- the fields of the runtime -----

  /** One pool of `RuntimeState`: each method body runs under its lock or is one semaphore
      operation. */
  class RuntimePool {
    const workers: nat
    const waits: bool
    var slots: int
    var queueDepth: int
    var activeCount: int
    var droppedCount: nat
    ghost var requests: nat
    ghost var jobs: seq<Stage>
    ghost var reports: seq<nat>
    ghost var abandoned: set<nat>

    constructor (workers: nat, waits: bool)
      ensures this.workers == workers && this.waits == waits && Value() == NewPool(workers, waits)
    {
      this.workers, this.waits := workers, waits;
      slots, queueDepth, activeCount, droppedCount := 2 * workers, 0, 0, 0;
      requests, jobs, reports, abandoned := 0, [], [], {};
    }

    ghost function Value(): Pool
      reads this
    {
      Pool(workers, waits, slots, queueDepth, activeCount, droppedCount, requests, jobs, reports, abandoned)
    }

    /** `acquire(blocking=False)`, or one more dropped. */
    method TryAccept() returns (accepted: bool)
      modifies this
      ensures accepted == (old(slots) > 0)
      ensures Value() == Next(old(Value()), Request)
    {
      requests := requests + 1;
      if slots > 0 {
        slots := slots - 1;
        jobs := jobs + [Accepted];
        return true;
      }
      droppedCount := droppedCount + 1;
      return false;
    }

    method Enter(ghost job: nat)
      requires IsAt(Value(), job, Accepted)
      modifies this
      ensures Value() == Next(old(Value()), CountQueued(job))
    {
      queueDepth := queueDepth + 1;
      jobs := jobs[job := Queued];
    }

    /** The head of `run`. */
    method Begin(ghost job: nat)
      requires IsAt(Value(), job, Submitted) && Tally(jobs, IsRunning) < workers
      modifies this
      ensures Value() == Next(old(Value()), StartRun(job))
    {
      queueDepth := queueDepth - 1;
      activeCount := activeCount + 1;
      jobs := jobs[job := Running];
    }

    /** Its `finally`. */
    method End(ghost job: nat)
      requires IsAt(Value(), job, Running)
      modifies this
      ensures Value() == Next(old(Value()), EndRun(job))
    {
      activeCount := activeCount - 1;
      jobs := jobs[job := Returned];
    }

    /** The `except FutureTimeout` of `run_analysis`. */
    method CallerTimesOut(ghost job: nat)
      requires IsAwaited(Value(), job)
      modifies this
      ensures Value() == Next(old(Value()), TimeOut(job))
    {
      droppedCount := droppedCount + 1;
      abandoned := abandoned + {job};
    }

    /** `finished`: report, then release, whether or not the report raised. */
    method Finished(ghost job: nat)
      requires IsAt(Value(), job, Returned)
      modifies this
      ensures Value() == Next(Next(old(Value()), Report(job)), Release(job))
    {
      reports := reports + [job];
      jobs := jobs[job := Reported];
      assert Value() == Next(old(Value()), Report(job));
      slots := slots + 1;
      jobs := jobs[job := Released];
    }
  }

  /** The two pools, sized by the processor count. */
  class RuntimePools {
    const analysis: RuntimePool
    const clips: RuntimePool

    constructor (cpus: int)
      ensures analysis.Value() == NewPool(if cpus <= 3 then 1 else if cpus >= 6 then 4 else cpus - 2, true)
      ensures clips.Value() == NewPool(if cpus < 8 then 1 else 2, false)
      ensures fresh(analysis) && fresh(clips) && analysis != clips
    {
      analysis := new RuntimePool(AnalysisWorkers(if cpus > 1 then cpus else 1), true);
      clips := new RuntimePool(FfmpegWorkers(if cpus > 1 then cpus else 1), false);
    }
  }
}
