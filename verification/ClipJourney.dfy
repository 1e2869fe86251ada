/** The whole way of a clip: the connector's delivery and the analysis worker as one system,
    joined by the Redis list and by the worker's report (connector/app/workers.py,
    backend/Services/ClipQueue.cs, backend/Controllers/AiEventsController.cs, cloud-ai/app/main.py). */
module ClipJourney {
  import D = ClipDelivery
  import H = ClipHistory
  import A = AnalysisWorker

  datatype World = World(delivery: D.World, analysis: A.State)

  /** `Post` is a report that the backend saves although the attempt then ends otherwise: its
      answer is lost, or the worker dies. */
  datatype Action = Deliver(step: D.Action) | Work(task: A.Action) | Post

  /** Whatever delivery pushes arrives at the left end of the worker's list. */
  function Receive(s: A.State, before: seq<nat>, after: seq<nat>): A.State {
    if |after| > |before| then A.Next(s, A.Push(after[|after| - 1])) else s
  }

  /** The report on the job in hand marks its clip analyzed. */
  function Posted(w: World, maxRetries: int): D.World {
    if w.analysis.hand.Some? then D.Next(w.delivery, maxRetries, D.Analyze(w.analysis.hand.value.clip)) else w.delivery
  }

  /** Only the worker reports and only delivery pushes; an attempt that succeeds has reported. */
  function Next(w: World, maxRetries: int, a: Action): World {
    match a
    case Deliver(step) =>
      if step.Analyze? then w
      else
        var delivery := D.Next(w.delivery, maxRetries, step);
        World(delivery, Receive(w.analysis, w.delivery.pushed, delivery.pushed))
    case Work(task) =>
      if task.Push? then w
      else World(if task == A.Settle(A.Processed) then Posted(w, maxRetries) else w.delivery, A.Next(w.analysis, task))
    case Post => w.(delivery := Posted(w, maxRetries))
  }

  function Run(w: World, maxRetries: int, actions: seq<Action>): World
    decreases |actions|
  {
    if actions == [] then w else Run(Next(w, maxRetries, actions[0]), maxRetries, actions[1..])
  }

  function Start(me: nat): World {
    World(D.Start(me), A.EMPTY)
  }

  /** Every pushed clip has exactly one job, wherever it is, and no other clip has any. */
  ghost predicate OneJobEach(w: World) {
    forall clip: nat {:trigger A.CountAll(w.analysis, clip)} ::
      A.CountAll(w.analysis, clip) == if clip in w.delivery.pushed then 1 else 0
  }

  lemma OnePushAtATime(d: D.World, maxRetries: int, step: D.Action)
    requires D.Invariant(d, maxRetries)
    ensures var pushed := D.Next(d, maxRetries, step).pushed;
      || pushed == d.pushed
      || (|pushed| == |d.pushed| + 1 && pushed[..|d.pushed|] == d.pushed && pushed[|d.pushed|] !in d.pushed)
  {
    if step.Complete? && d.stage.Completing? {
      assert D.FreshClip(d, d.stage.job, d.stage.clip);
    }
  }

  lemma DeliverKeeps(w: World, maxRetries: int, step: D.Action)
    requires D.Invariant(w.delivery, maxRetries) && OneJobEach(w)
    ensures OneJobEach(Next(w, maxRetries, Deliver(step)))
  {
    var v := Next(w, maxRetries, Deliver(step));
    var before, after := w.delivery.pushed, v.delivery.pushed;
    OnePushAtATime(w.delivery, maxRetries, step);
    if after != before {
      var added := after[|before|];
      assert after == before + [added];
      forall clip: nat ensures A.CountAll(v.analysis, clip) == if clip in after then 1 else 0 {
        A.NextConserves(w.analysis, A.Push(added), clip);
      }
    }
  }

  lemma PostedPushesNothing(w: World, maxRetries: int)
    ensures Posted(w, maxRetries).pushed == w.delivery.pushed
  {
  }

  lemma WorkKeeps(w: World, maxRetries: int, task: A.Action)
    requires OneJobEach(w)
    ensures OneJobEach(Next(w, maxRetries, Work(task)))
  {
    PostedPushesNothing(w, maxRetries);
    forall clip: nat
      ensures A.CountAll(Next(w, maxRetries, Work(task)).analysis, clip) == if clip in w.delivery.pushed then 1 else 0
    {
      A.NextConserves(w.analysis, task, clip);
    }
  }

  ghost predicate IsAnalyzed(d: D.World, clip: nat) {
    clip < |d.clips| && d.clips[clip].status == D.ClipAnalyzed
  }

  /** Every processed job's clip is marked analyzed, and so is no clip that was not pushed. */
  ghost predicate Reported(w: World) {
    && (forall i :: 0 <= i < |w.analysis.processed| ==> IsAnalyzed(w.delivery, w.analysis.processed[i].clip))
    && forall clip: nat :: IsAnalyzed(w.delivery, clip) ==> clip in w.delivery.pushed
  }

  lemma HandIsPushed(w: World)
    requires OneJobEach(w) && w.analysis.hand.Some?
    ensures w.analysis.hand.value.clip in w.delivery.pushed
  {
    assert A.CountAll(w.analysis, w.analysis.hand.value.clip) > 0;
  }

  /** Delivery steps, reports included, take no clip's analysis back. */
  lemma StepKeepsAnalyzed(d: D.World, maxRetries: int, step: D.Action, clip: nat)
    requires D.Invariant(d, maxRetries)
    ensures IsAnalyzed(d, clip) ==> IsAnalyzed(D.Next(d, maxRetries, step), clip)
    ensures IsAnalyzed(D.Next(d, maxRetries, step), clip) ==>
      IsAnalyzed(d, clip) || (step == D.Analyze(clip) && clip in d.pushed)
    ensures clip in d.pushed ==> clip in D.Next(d, maxRetries, step).pushed
  {
    if clip < |d.clips| {
      H.NextIsFurther(d, maxRetries, step, clip);
    }
  }

  lemma DeliverReported(w: World, maxRetries: int, step: D.Action)
    requires Invariant(w, maxRetries)
    ensures Reported(Next(w, maxRetries, Deliver(step)))
  {
    var v := Next(w, maxRetries, Deliver(step));
    forall clip: nat
      ensures IsAnalyzed(w.delivery, clip) ==> IsAnalyzed(v.delivery, clip)
      ensures IsAnalyzed(v.delivery, clip) ==> clip in v.delivery.pushed
    {
      StepKeepsAnalyzed(w.delivery, maxRetries, step, clip);
    }
  }

  lemma PostReported(w: World, maxRetries: int)
    requires Invariant(w, maxRetries)
    ensures D.Invariant(Posted(w, maxRetries), maxRetries) && Reported(w.(delivery := Posted(w, maxRetries)))
    ensures w.analysis.hand.Some? ==> IsAnalyzed(Posted(w, maxRetries), w.analysis.hand.value.clip)
  {
    if w.analysis.hand.Some? {
      var report := D.Analyze(w.analysis.hand.value.clip);
      HandIsPushed(w);
      D.NextKeeps(w.delivery, maxRetries, report);
      PostedPushesNothing(w, maxRetries);
      forall clip: nat
        ensures IsAnalyzed(w.delivery, clip) ==> IsAnalyzed(Posted(w, maxRetries), clip)
        ensures IsAnalyzed(Posted(w, maxRetries), clip) ==> clip in w.delivery.pushed
      {
        StepKeepsAnalyzed(w.delivery, maxRetries, report, clip);
      }
      ReportReaches(w.delivery, maxRetries, report.clip);
    }
  }

  lemma ReportReaches(d: D.World, maxRetries: int, clip: nat)
    requires D.Invariant(d, maxRetries) && clip in d.pushed
    ensures IsAnalyzed(D.Next(d, maxRetries, D.Analyze(clip)), clip)
  {
    assert clip < |d.clips|;
  }

  lemma WorkReported(w: World, maxRetries: int, task: A.Action)
    requires Invariant(w, maxRetries)
    ensures D.Invariant(Next(w, maxRetries, Work(task)).delivery, maxRetries)
      && Reported(Next(w, maxRetries, Work(task)))
  {
    PostReported(w, maxRetries);
  }

  ghost predicate Invariant(w: World, maxRetries: int) {
    D.Invariant(w.delivery, maxRetries) && OneJobEach(w) && Reported(w)
  }

  lemma NextKeeps(w: World, maxRetries: int, a: Action)
    requires Invariant(w, maxRetries)
    ensures Invariant(Next(w, maxRetries, a), maxRetries)
  {
    match a
    case Deliver(step) =>
      D.NextKeeps(w.delivery, maxRetries, step);
      DeliverKeeps(w, maxRetries, step);
      DeliverReported(w, maxRetries, step);
    case Work(task) =>
      WorkKeeps(w, maxRetries, task);
      WorkReported(w, maxRetries, task);
    case Post =>
      PostReported(w, maxRetries);
      PostedPushesNothing(w, maxRetries);
  }

  lemma {:induction false} RunKeeps(w: World, maxRetries: int, actions: seq<Action>)
    requires Invariant(w, maxRetries)
    ensures Invariant(Run(w, maxRetries, actions), maxRetries)
    decreases |actions|
  {
    if actions != [] {
      NextKeeps(w, maxRetries, actions[0]);
      RunKeeps(Next(w, maxRetries, actions[0]), maxRetries, actions[1..]);
    }
  }

  lemma StartIsSafe(me: nat, maxRetries: int, actions: seq<Action>)
    ensures Invariant(Run(Start(me), maxRetries, actions), maxRetries)
  {
    forall clip: nat ensures A.CountAll(A.EMPTY, clip) == 0 {
    }
    RunKeeps(Start(me), maxRetries, actions);
  }

  /** In every run, whatever fails on either side: once the connector has deleted a file, its
      clip is stored and has exactly one analysis job, waiting, in hand, processed,
      dead-lettered, or lost with its worker. */
  lemma DeletedFileIsAccountedFor(me: nat, maxRetries: int, actions: seq<Action>, job: nat)
    requires job in Run(Start(me), maxRetries, actions).delivery.deleted
    ensures var w := Run(Start(me), maxRetries, actions);
      && job in w.delivery.receipts
      && w.delivery.receipts[job] in w.delivery.stored
      && A.CountAll(w.analysis, w.delivery.receipts[job]) == 1
  {
    StartIsSafe(me, maxRetries, actions);
    var w := Run(Start(me), maxRetries, actions);
    assert D.Delivered(w.delivery, job, w.delivery.receipts[job]);
  }

  /** In every run, however deliveries, attempts and reports interleave: a processed job's clip
      is marked analyzed and stays so, and a clip is only ever marked analyzed once its object
      is stored and exactly one analysis job was pushed for it. */
  lemma ProcessedIsAnalyzed(me: nat, maxRetries: int, actions: seq<Action>)
    ensures var w := Run(Start(me), maxRetries, actions);
      && (forall job :: job in w.analysis.processed ==> IsAnalyzed(w.delivery, job.clip))
      && (forall clip: nat :: IsAnalyzed(w.delivery, clip) ==>
            clip in w.delivery.stored && clip in w.delivery.pushed && A.CountAll(w.analysis, clip) == 1)
  {
    StartIsSafe(me, maxRetries, actions);
    var w := Run(Start(me), maxRetries, actions);
    forall clip: nat | IsAnalyzed(w.delivery, clip)
      ensures clip in w.delivery.stored && A.CountAll(w.analysis, clip) == 1
    {
      assert clip in w.delivery.pushed;
    }
  }
}
