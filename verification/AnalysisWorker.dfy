/** The retry and dead-letter loop of the analysis worker (cloud-ai/app/main.py). */
module AnalysisWorker {
  import opened Wrappers

  const MAX_RETRIES: nat := 3

  /** `attempt` is the count carried in the job envelope. */
  datatype Job = Job(clip: nat, attempt: nat)

  /** How processing ends: a missing clip is told apart from any other error. */
  datatype Outcome = Processed | MissingClip | OtherError

  /** One attempt and how it ended. */
  datatype Attempt = Attempt(job: Job, outcome: Outcome)

  /** Both lists are pushed at their left end, position 0; the worker pops from the right.
      `hand` holds the popped job, `lost` the jobs whose worker died before pushing them on, and
      `log` every attempt that ended. */
  datatype State = State(
    queue: seq<Job>, hand: Option<Job>, processed: seq<Job>, dead: seq<Job>, lost: seq<Job>, log: seq<Attempt>)

  datatype Action = Push(clip: nat) | Pop | Settle(outcome: Outcome) | Die

  function Settled(s: State, job: Job, outcome: Outcome): State {
    var t := s.(hand := None, log := s.log + [Attempt(job, outcome)]);
    if outcome == Processed then t.(processed := s.processed + [job])
    else if job.attempt < MAX_RETRIES && outcome != MissingClip then t.(queue := [job] + s.queue)
    else t.(dead := [job] + s.dead)
  }

  function Next(s: State, a: Action): State {
    match a
    case Push(clip) => s.(queue := [Job(clip, 0)] + s.queue)
    case Pop =>
      if s.hand.Some? || s.queue == [] then s
      else
        var job := s.queue[|s.queue| - 1];
        s.(queue := s.queue[..|s.queue| - 1], hand := Some(job.(attempt := job.attempt + 1)))
    case Settle(outcome) => if s.hand.Some? then Settled(s, s.hand.value, outcome) else s
    case Die => if s.hand.Some? then s.(hand := None, lost := s.lost + [s.hand.value]) else s
  }

  function Run(s: State, actions: seq<Action>): State
    decreases |actions|
  {
    if actions == [] then s else Run(Next(s, actions[0]), actions[1..])
  }

  const EMPTY := State([], None, [], [], [], [])

  // ----- the loop -----

  class Worker {
    var state: State

    constructor ()
      ensures state == EMPTY
    {
      state := EMPTY;
    }

    /** One pass of the `while` loop; `processing` is what becomes of the job. */
    method Iterate(processing: Outcome) returns (settled: bool)
      requires state.hand.None?
      modifies this
      ensures settled == (old(state).queue != [])
      ensures state == Next(Next(old(state), Pop), Settle(processing))
    {
      if state.queue == [] {
        return false;
      }
      var job := state.queue[|state.queue| - 1];
      state := state.(queue := state.queue[..|state.queue| - 1]);
      var attempt := job.attempt + 1;
      job := job.(attempt := attempt);
      state := state.(hand := Some(job));
      state := state.(log := state.log + [Attempt(job, processing)]);
      if processing == Processed {
        state := state.(processed := state.processed + [job]);
      } else {
        var missingClip := processing == MissingClip;
        if attempt < MAX_RETRIES && !missingClip {
          state := state.(queue := [job] + state.queue);
        } else {
          state := state.(dead := [job] + state.dead);
        }
      }
      state := state.(hand := None);
      return true;
    }
  }

  // ----- no job is lost or doubled -----

  function One(job: Job, clip: nat): nat {
    if job.clip == clip then 1 else 0
  }

  function Count(jobs: seq<Job>, clip: nat): nat {
    if jobs == [] then 0 else Count(jobs[..|jobs| - 1], clip) + One(jobs[|jobs| - 1], clip)
  }

  /** How many jobs for this clip there are, wherever they are. */
  function CountAll(s: State, clip: nat): nat {
    Count(s.queue, clip) + (if s.hand.Some? then One(s.hand.value, clip) else 0)
    + Count(s.processed, clip) + Count(s.dead, clip) + Count(s.lost, clip)
  }

  lemma {:induction false} CountCons(job: Job, jobs: seq<Job>, clip: nat)
    ensures Count([job] + jobs, clip) == One(job, clip) + Count(jobs, clip)
  {
    if jobs == [] {
      assert ([job] + jobs)[..0] == [];
    } else {
      CountCons(job, jobs[..|jobs| - 1], clip);
      assert ([job] + jobs)[..|jobs|] == [job] + jobs[..|jobs| - 1];
    }
  }

  lemma CountSnoc(jobs: seq<Job>, job: Job, clip: nat)
    ensures Count(jobs + [job], clip) == Count(jobs, clip) + One(job, clip)
  {
    assert (jobs + [job])[..|jobs|] == jobs;
  }

  lemma NextConserves(s: State, a: Action, clip: nat)
    ensures CountAll(Next(s, a), clip) == CountAll(s, clip) + if a == Push(clip) then 1 else 0
  {
    match a
    case Push(c) => CountCons(Job(c, 0), s.queue, clip);
    case Pop =>
    case Settle(outcome) =>
      if s.hand.Some? {
        var job := s.hand.value;
        CountCons(job, s.queue, clip);
        CountCons(job, s.dead, clip);
        CountSnoc(s.processed, job, clip);
      }
    case Die =>
      if s.hand.Some? {
        CountSnoc(s.lost, s.hand.value, clip);
      }
  }

  function Pushes(actions: seq<Action>, clip: nat): nat {
    if actions == [] then 0 else (if actions[0] == Push(clip) then 1 else 0) + Pushes(actions[1..], clip)
  }

  /** Over every run: the jobs of a clip that are queued, in hand, processed, dead-lettered or
      lost with their worker are as many as were pushed. */
  lemma {:induction false} JobsAreConserved(s: State, actions: seq<Action>, clip: nat)
    ensures CountAll(Run(s, actions), clip) == CountAll(s, clip) + Pushes(actions, clip)
    decreases |actions|
  {
    if actions != [] {
      NextConserves(s, actions[0], clip);
      JobsAreConserved(Next(s, actions[0]), actions[1..], clip);
    }
  }

  // ----- at most three attempts -----

  ghost predicate Attempts(jobs: seq<Job>, low: nat, high: nat) {
    forall i :: 0 <= i < |jobs| ==> low <= jobs[i].attempt <= high
  }

  /** Waiting jobs have attempts left; every other job has had one to three. */
  ghost predicate Bounded(s: State) {
    && Attempts(s.queue, 0, MAX_RETRIES - 1)
    && (s.hand.Some? ==> 1 <= s.hand.value.attempt <= MAX_RETRIES)
    && Attempts(s.processed, 1, MAX_RETRIES) && Attempts(s.dead, 1, MAX_RETRIES) && Attempts(s.lost, 1, MAX_RETRIES)
  }

  lemma {:induction false} AtMostThreeAttempts(s: State, actions: seq<Action>)
    requires Bounded(s)
    ensures Bounded(Run(s, actions))
    decreases |actions|
  {
    if actions != [] {
      AtMostThreeAttempts(Next(s, actions[0]), actions[1..]);
    }
  }

  // ----- which jobs are given up -----

  predicate GivesUp(a: Attempt) {
    a.outcome == MissingClip || (a.outcome == OtherError && a.job.attempt >= MAX_RETRIES)
  }

  /** The dead-letter list the log accounts for, newest first. */
  function GivenUp(log: seq<Attempt>): seq<Job> {
    if log == [] then []
    else (if GivesUp(log[|log| - 1]) then [log[|log| - 1].job] else []) + GivenUp(log[..|log| - 1])
  }

  lemma {:induction false} GivenUpMeaning(log: seq<Attempt>, job: Job)
    ensures job in GivenUp(log) <==> exists a :: a in log && a.job == job && GivesUp(a)
  {
    if log != [] {
      GivenUpMeaning(log[..|log| - 1], job);
      assert log == log[..|log| - 1] + [log[|log| - 1]];
    }
  }

  /** The first k attempts at the clip failed. */
  ghost predicate FailedTimes(log: seq<Attempt>, clip: nat, k: nat) {
    forall n: nat :: 1 <= n <= k ==> Attempt(Job(clip, n), OtherError) in log
  }

  /** A waiting job has attempts left, and failed as often as it was attempted. */
  ghost predicate WaitExplained(job: Job, log: seq<Attempt>) {
    job.attempt < MAX_RETRIES && FailedTimes(log, job.clip, job.attempt)
  }

  ghost predicate QueueExplained(queue: seq<Job>, log: seq<Attempt>) {
    forall i :: 0 <= i < |queue| ==> WaitExplained(queue[i], log)
  }

  /** A job in hand, or logged, failed once less. */
  ghost predicate JobExplained(job: Job, log: seq<Attempt>) {
    1 <= job.attempt <= MAX_RETRIES && FailedTimes(log, job.clip, job.attempt - 1)
  }

  ghost predicate LogExplained(log: seq<Attempt>) {
    forall i :: 0 <= i < |log| ==> JobExplained(log[i].job, log)
  }

  /** The log explains where every job is, and the dead-letter list is what was given up. */
  ghost predicate Explained(s: State) {
    && s.dead == GivenUp(s.log)
    && QueueExplained(s.queue, s.log) && LogExplained(s.log)
    && (s.hand.Some? ==> JobExplained(s.hand.value, s.log))
  }

  lemma FailedTimesStay(log: seq<Attempt>, a: Attempt, clip: nat, k: nat)
    requires FailedTimes(log, clip, k)
    ensures FailedTimes(log + [a], clip, k)
  {
  }

  lemma FailedOnceMore(log: seq<Attempt>, job: Job)
    requires JobExplained(job, log)
    ensures FailedTimes(log + [Attempt(job, OtherError)], job.clip, job.attempt)
  {
    assert Job(job.clip, job.attempt) == job;
    FailedTimesStay(log, Attempt(job, OtherError), job.clip, job.attempt - 1);
  }

  lemma QueueStaysExplained(queue: seq<Job>, log: seq<Attempt>, a: Attempt)
    requires QueueExplained(queue, log)
    ensures QueueExplained(queue, log + [a])
  {
    forall i | 0 <= i < |queue| ensures WaitExplained(queue[i], log + [a]) {
      assert WaitExplained(queue[i], log);
      FailedTimesStay(log, a, queue[i].clip, queue[i].attempt);
    }
  }

  lemma LogStaysExplained(log: seq<Attempt>, a: Attempt)
    requires LogExplained(log) && JobExplained(a.job, log)
    ensures LogExplained(log + [a])
  {
    var all := log + [a];
    forall i | 0 <= i < |all| ensures JobExplained(all[i].job, all) {
      var job := if i < |log| then log[i].job else a.job;
      assert JobExplained(job, log);
      FailedTimesStay(log, a, job.clip, job.attempt - 1);
    }
  }

  lemma GivenUpSnoc(log: seq<Attempt>, a: Attempt)
    ensures GivenUp(log + [a]) == (if GivesUp(a) then [a.job] else []) + GivenUp(log)
  {
    assert (log + [a])[..|log|] == log;
  }

  lemma SettleExplained(s: State, outcome: Outcome)
    requires Explained(s) && s.hand.Some?
    ensures Explained(Next(s, Settle(outcome)))
  {
    var job := s.hand.value;
    var a := Attempt(job, outcome);
    QueueStaysExplained(s.queue, s.log, a);
    LogStaysExplained(s.log, a);
    GivenUpSnoc(s.log, a);
    if outcome == OtherError {
      FailedOnceMore(s.log, job);
      if job.attempt < MAX_RETRIES {
        RetriedExplained(s.queue, s.log + [a], job);
      }
    }
  }

  lemma RetriedExplained(queue: seq<Job>, log: seq<Attempt>, job: Job)
    requires QueueExplained(queue, log) && WaitExplained(job, log)
    ensures QueueExplained([job] + queue, log)
  {
  }

  lemma PopExplained(s: State)
    requires Explained(s)
    ensures Explained(Next(s, Pop))
  {
    if s.queue != [] {
      assert WaitExplained(s.queue[|s.queue| - 1], s.log);
    }
  }

  lemma NextExplained(s: State, a: Action)
    requires Explained(s)
    ensures Explained(Next(s, a))
  {
    match a
    case Push(clip) => RetriedExplained(s.queue, s.log, Job(clip, 0));
    case Pop => PopExplained(s);
    case Settle(outcome) => if s.hand.Some? { SettleExplained(s, outcome); }
    case Die =>
  }

  lemma {:induction false} RunExplained(s: State, actions: seq<Action>)
    requires Explained(s)
    ensures Explained(Run(s, actions))
    decreases |actions|
  {
    if actions != [] {
      NextExplained(s, actions[0]);
      RunExplained(Next(s, actions[0]), actions[1..]);
    }
  }

  /** In every run: a job is dead-lettered if and only if its clip turned out to be missing, or
      all three attempts at it failed. */
  lemma GivenUpExactly(actions: seq<Action>, job: Job)
    ensures var s := Run(EMPTY, actions);
      job in s.dead <==> Attempt(job, MissingClip) in s.log || (job.attempt == 3 && FailedTimes(s.log, job.clip, 3))
  {
    var s := Run(EMPTY, actions);
    RunExplained(EMPTY, actions);
    GivenUpMeaning(s.log, job);
    if a :| a in s.log && a.job == job && GivesUp(a) && a.outcome == OtherError {
      assert Attempt(Job(job.clip, 3), OtherError) == a;
      assert FailedTimes(s.log, job.clip, 2);
    }
    if job.attempt == 3 && FailedTimes(s.log, job.clip, 3) {
      assert Attempt(Job(job.clip, 3), OtherError) in s.log && Job(job.clip, 3) == job;
      assert GivesUp(Attempt(job, OtherError));
    }
    assert GivesUp(Attempt(job, MissingClip));
  }

  /** A retried job is served next exactly when nothing else waits. */
  lemma RetriedNextExactly(s: State)
    requires s.hand.Some? && s.hand.value.attempt < MAX_RETRIES
    requires forall i :: 0 <= i < |s.queue| ==> s.queue[i].clip != s.hand.value.clip
    ensures var served := Next(Next(s, Settle(OtherError)), Pop).hand;
      served.Some? && (served.value.clip == s.hand.value.clip <==> s.queue == [])
  {
    var t := Next(s, Settle(OtherError));
    assert t.queue[|t.queue| - 1] == if s.queue == [] then s.hand.value else s.queue[|s.queue| - 1];
  }

  /** Two clips: after the first one's attempt failed the second is served, not the retry. */
  lemma RetryHasToWait()
    ensures var s := Run(EMPTY, [Push(1), Push(2), Pop, Settle(OtherError), Pop]);
      s.hand == Some(Job(2, 1)) && s.queue == [Job(1, 1)]
  {
    var s := Next(Next(EMPTY, Push(1)), Push(2));
    assert s.queue == [Job(2, 0), Job(1, 0)];
    var served := Next(s, Pop);
    assert served.hand == Some(Job(1, 1)) && served.queue == [Job(2, 0)];
    var t := Next(served, Settle(OtherError));
    assert t.queue == [Job(1, 1), Job(2, 0)];
    RunFive(EMPTY, Push(1), Push(2), Pop, Settle(OtherError), Pop);
    assert [Push(1)] + ([Push(2)] + ([Pop] + ([Settle(OtherError)] + ([Pop] + []))))
      == [Push(1), Push(2), Pop, Settle(OtherError), Pop];
  }

  lemma RunFive(s: State, a: Action, b: Action, c: Action, d: Action, e: Action)
    ensures Run(s, [a] + ([b] + ([c] + ([d] + ([e] + []))))) == Next(Next(Next(Next(Next(s, a), b), c), d), e)
  {
    RunCons(s, a, [b] + ([c] + ([d] + ([e] + []))));
    RunCons(Next(s, a), b, [c] + ([d] + ([e] + [])));
    RunCons(Next(Next(s, a), b), c, [d] + ([e] + []));
    RunCons(Next(Next(Next(s, a), b), c), d, [e] + []);
    RunCons(Next(Next(Next(Next(s, a), b), c), d), e, []);
  }

  lemma RunCons(s: State, a: Action, rest: seq<Action>)
    ensures Run(s, [a] + rest) == Run(Next(s, a), rest)
  {
    assert ([a] + rest)[1..] == rest;
  }

  // ----- rounds -----

  function Turn(s: State, outcome: Outcome): State {
    Next(Next(s, Pop), Settle(outcome))
  }

  function Turns(s: State, outcomes: seq<Outcome>): State
    decreases |outcomes|
  {
    if outcomes == [] then s else Turns(Turn(s, outcomes[0]), outcomes[1..])
  }

  /** What a round puts back: the jobs that fail with attempts left, in the order they had. The
      rightmost job meets the first outcome. */
  function PutBack(queue: seq<Job>, outcomes: seq<Outcome>): seq<Job>
    requires |outcomes| == |queue|
    decreases |queue|
  {
    if queue == [] then []
    else
      PutBack(queue[..|queue| - 1], outcomes[1..]) + Again(queue[|queue| - 1], outcomes[0])
  }

  function Again(job: Job, outcome: Outcome): seq<Job> {
    if outcome == OtherError && job.attempt + 1 < MAX_RETRIES then [job.(attempt := job.attempt + 1)] else []
  }

  lemma TurnServesLast(s: State, queue: seq<Job>, back: seq<Job>, outcome: Outcome)
    requires s.hand.None? && s.queue == back + queue && queue != []
    ensures var n := |queue| - 1;
      Turn(s, outcome).queue == (Again(queue[n], outcome) + back) + queue[..n] && Turn(s, outcome).hand.None?
  {
    assert s.queue[..|s.queue| - 1] == back + queue[..|queue| - 1];
  }

  lemma Regroup(a: seq<Job>, b: seq<Job>, c: seq<Job>)
    ensures a + (b + c) == (a + b) + c
  {
  }

  /** A retried job goes behind all that wait: before it has its turn again, each of them has
      had theirs. */
  lemma {:induction false} RoundServesEveryoneOnce(s: State, queue: seq<Job>, back: seq<Job>, outcomes: seq<Outcome>)
    requires s.hand.None? && s.queue == back + queue && |outcomes| == |queue|
    ensures Turns(s, outcomes).queue == PutBack(queue, outcomes) + back
    ensures Turns(s, outcomes).hand.None?
    decreases |queue|
  {
    if queue == [] {
      assert PutBack(queue, outcomes) + back == back + queue;
    } else {
      var n := |queue| - 1;
      var again := Again(queue[n], outcomes[0]);
      TurnServesLast(s, queue, back, outcomes[0]);
      RoundServesEveryoneOnce(Turn(s, outcomes[0]), queue[..n], again + back, outcomes[1..]);
      Regroup(PutBack(queue[..n], outcomes[1..]), again, back);
    }
  }

  /** The attempts the waiting jobs have left. */
  function Left(jobs: seq<Job>): int {
    if jobs == [] then 0 else Left(jobs[..|jobs| - 1]) + (MAX_RETRIES - jobs[|jobs| - 1].attempt)
  }

  lemma {:induction false} LeftCons(job: Job, jobs: seq<Job>)
    ensures Left([job] + jobs) == MAX_RETRIES - job.attempt + Left(jobs)
  {
    if jobs == [] {
      assert ([job] + jobs)[..0] == [];
    } else {
      LeftCons(job, jobs[..|jobs| - 1]);
      assert ([job] + jobs)[..|jobs|] == [job] + jobs[..|jobs| - 1];
    }
  }

  lemma {:induction false} LeftBounds(jobs: seq<Job>)
    requires Attempts(jobs, 0, MAX_RETRIES - 1)
    ensures |jobs| <= Left(jobs) <= MAX_RETRIES * |jobs|
  {
    if jobs != [] {
      LeftBounds(jobs[..|jobs| - 1]);
    }
  }

  lemma TurnCostsOne(s: State, outcome: Outcome)
    requires Bounded(s) && s.hand.None? && s.queue != []
    ensures var t := Turn(s, outcome);
      Bounded(t) && t.hand.None? && Left(t.queue) <= Left(s.queue) - 1
  {
    var rest, job := s.queue[..|s.queue| - 1], s.queue[|s.queue| - 1];
    LeftCons(job.(attempt := job.attempt + 1), rest);
  }

  /** The queue drains: no run of turns can be longer than three for each waiting job. */
  lemma {:induction false} QueueDrains(s: State, outcomes: seq<Outcome>)
    requires Bounded(s) && s.hand.None? && |outcomes| >= Left(s.queue)
    ensures Turns(s, outcomes).queue == []
    decreases |outcomes|
  {
    LeftBounds(s.queue);
    if s.queue != [] {
      TurnCostsOne(s, outcomes[0]);
      QueueDrains(Turn(s, outcomes[0]), outcomes[1..]);
    } else if outcomes != [] {
      assert Turn(s, outcomes[0]) == s;
      QueueDrains(s, outcomes[1..]);
    }
  }

  lemma DrainsWithinThreeTurnsEach(s: State, outcomes: seq<Outcome>)
    requires Bounded(s) && s.hand.None? && |outcomes| >= 3 * |s.queue|
    ensures Turns(s, outcomes).queue == []
  {
    LeftBounds(s.queue);
    QueueDrains(s, outcomes);
  }
}
