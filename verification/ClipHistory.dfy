/** What a run of the delivery does to one clip and to one queue row: a clip's status, and how
    often a row is pushed (connector/app/workers.py, ClipsController.cs, AiEventsController.cs). */
module ClipHistory {
  import opened Wrappers
  import opened UploadQueue
  import opened ClipDelivery

  // ----- the status of a clip -----

  function Rank(s: ClipStatus): nat {
    match s
    case ClipPending => 0
    case ClipUploaded => 1
    case ClipAnalyzed => 2
  }

  /** The clip is still the same camera's and its status has not fallen back. */
  predicate Further(before: ClipRow, after: ClipRow) {
    before.(status := after.status) == after && Rank(before.status) <= Rank(after.status)
  }

  lemma NextIsFurther(w: World, maxRetries: int, a: Action, clip: nat)
    requires Invariant(w, maxRetries) && clip < |w.clips|
    ensures var v := Next(w, maxRetries, a); clip < |v.clips| && Further(w.clips[clip], v.clips[clip])
  {
    if w.stage.Completing? {
      assert FreshClip(w, w.stage.job, w.stage.clip);
    }
  }

  lemma {:induction false} RunIsFurther(w: World, maxRetries: int, actions: seq<Action>, clip: nat)
    requires Invariant(w, maxRetries) && clip < |w.clips|
    ensures var v := Run(w, maxRetries, actions); clip < |v.clips| && Further(w.clips[clip], v.clips[clip])
    decreases |actions|
  {
    if actions != [] {
      NextIsFurther(w, maxRetries, actions[0], clip);
      NextKeeps(w, maxRetries, actions[0]);
      RunIsFurther(Next(w, maxRetries, actions[0]), maxRetries, actions[1..], clip);
    }
  }

  /** Along every run a clip only goes from pending to uploaded to analyzed. The complete call
      sets its status without looking, yet it never undoes an analysis. */
  lemma StatusNeverFallsBack(me: nat, maxRetries: int, before: seq<Action>, after: seq<Action>, clip: nat)
    requires clip < |Run(Start(me), maxRetries, before).clips|
    ensures var w := Run(Start(me), maxRetries, before);
      var v := Run(w, maxRetries, after);
      clip < |v.clips| && Further(w.clips[clip], v.clips[clip])
  {
    Safety(me, maxRetries, before);
    RunIsFurther(Run(Start(me), maxRetries, before), maxRetries, after, clip);
  }

  /** The reason: in every run the complete call meets a clip that is pending and not pushed. */
  lemma CompletesOnlyPending(me: nat, maxRetries: int, actions: seq<Action>, job: nat, clip: nat)
    requires Run(Start(me), maxRetries, actions).stage == Completing(job, clip)
    ensures var w := Run(Start(me), maxRetries, actions);
      clip < |w.clips| && w.clips[clip].status == ClipPending && clip !in w.pushed
  {
    Safety(me, maxRetries, actions);
    assert FreshClip(Run(Start(me), maxRetries, actions), job, clip);
  }

  // ----- how often a row is pushed -----

  function JobInWork(s: Stage): Option<nat> {
    match s
    case Idle => None
    case Selected(job) => Some(job)
    case Requesting(job) => Some(job)
    case Putting(job, _) => Some(job)
    case Completing(job, _) => Some(job)
    case Closing(job, _) => Some(job)
    case Removing(job, _) => Some(job)
    case Failing(job) => Some(job)
  }

  predicate Grows(w: World, maxRetries: int, a: Action) {
    |Next(w, maxRetries, a).pushed| > |w.pushed|
  }

  /** The step pushes an analysis job on behalf of this row. */
  predicate PushesRow(w: World, maxRetries: int, a: Action, job: nat) {
    Grows(w, maxRetries, a) && JobInWork(w.stage) == Some(job)
  }

  /** The calls of a pass over this row are over and their outcome is not yet on disk. */
  predicate Owes(w: World, job: nat) {
    (w.stage.Closing? || w.stage.Failing?) && w.stage.job == job
  }

  predicate Forgets(w: World, a: Action, job: nat) {
    a.Crash? && Owes(w, job)
  }

  function PushesOfRow(w: World, maxRetries: int, actions: seq<Action>, job: nat): nat
    decreases |actions|
  {
    if actions == [] then 0
    else (if PushesRow(w, maxRetries, actions[0], job) then 1 else 0)
         + PushesOfRow(Next(w, maxRetries, actions[0]), maxRetries, actions[1..], job)
  }

  function CrashesOver(w: World, maxRetries: int, actions: seq<Action>, job: nat): nat
    decreases |actions|
  {
    if actions == [] then 0
    else (if Forgets(w, actions[0], job) then 1 else 0)
         + CrashesOver(Next(w, maxRetries, actions[0]), maxRetries, actions[1..], job)
  }

  /** The attempts the row has left, less the one under way. */
  function Spare(w: World, maxRetries: int, job: nat): int {
    (if job < |w.rows| then Left(w.rows[job], maxRetries) else Limit(maxRetries)) - if Owes(w, job) then 1 else 0
  }

  lemma SpareIsNotNegative(w: World, maxRetries: int, job: nat)
    requires Invariant(w, maxRetries)
    ensures Spare(w, maxRetries, job) >= 0
  {
    FinishedBefore(w.rows);
    if job < |w.rows| {
      assert RowOk(w.rows[job], maxRetries);
    }
  }

  lemma SpareStep(w: World, maxRetries: int, a: Action, job: nat)
    requires Invariant(w, maxRetries)
    ensures (if PushesRow(w, maxRetries, a, job) then 1 else 0) + Spare(Next(w, maxRetries, a), maxRetries, job)
      <= Spare(w, maxRetries, job) + if Forgets(w, a, job) then 1 else 0
  {
    JobIsOpen(w, maxRetries);
    if w.stage.Selected? || w.stage.Closing? || w.stage.Failing? {
      LeftAfter(w.rows[w.stage.job], maxRetries, if a.Retreat? then a.error else "");
    }
  }

  lemma {:induction false} PushesFrom(w: World, maxRetries: int, actions: seq<Action>, job: nat)
    requires Invariant(w, maxRetries)
    ensures PushesOfRow(w, maxRetries, actions, job) + Spare(Run(w, maxRetries, actions), maxRetries, job)
      <= Spare(w, maxRetries, job) + CrashesOver(w, maxRetries, actions, job)
    decreases |actions|
  {
    if actions != [] {
      SpareStep(w, maxRetries, actions[0], job);
      NextKeeps(w, maxRetries, actions[0]);
      PushesFrom(Next(w, maxRetries, actions[0]), maxRetries, actions[1..], job);
    }
  }

  /** In every run a row is pushed, under whatever clip ids, at most as often as it may be
      attempted, plus once for each crash that forgot how its calls ended. */
  lemma PushesAreBounded(me: nat, maxRetries: int, actions: seq<Action>, job: nat)
    ensures PushesOfRow(Start(me), maxRetries, actions, job)
      <= Limit(maxRetries) + CrashesOver(Start(me), maxRetries, actions, job)
  {
    PushesFrom(Start(me), maxRetries, actions, job);
    RunKeeps(Start(me), maxRetries, actions);
    SpareIsNotNegative(Run(Start(me), maxRetries, actions), maxRetries, job);
  }

  // ----- all pushes are some row's -----

  function PushesOfRows(w: World, maxRetries: int, actions: seq<Action>, n: nat): nat {
    if n == 0 then 0
    else PushesOfRows(w, maxRetries, actions, n - 1) + PushesOfRow(w, maxRetries, actions, n - 1)
  }

  function One(b: bool): nat {
    if b then 1 else 0
  }

  lemma {:induction false} RowsNext(w: World, maxRetries: int, actions: seq<Action>, n: nat)
    requires actions != []
    ensures var a := actions[0];
      PushesOfRows(w, maxRetries, actions, n) == PushesOfRows(Next(w, maxRetries, a), maxRetries, actions[1..], n)
        + One(Grows(w, maxRetries, a) && JobInWork(w.stage).Some? && JobInWork(w.stage).value < n)
  {
    if n > 0 {
      RowsNext(w, maxRetries, actions, n - 1);
    }
  }

  lemma GrowthHasARow(w: World, maxRetries: int, a: Action)
    requires Invariant(w, maxRetries)
    ensures var v := Next(w, maxRetries, a);
      && |w.rows| <= |v.rows| && |v.pushed| == |w.pushed| + One(Grows(w, maxRetries, a))
      && (Grows(w, maxRetries, a) ==> JobInWork(w.stage).Some? && JobInWork(w.stage).value < |w.rows|)
  {
  }

  lemma {:induction false} PushesFromAddUp(w: World, maxRetries: int, actions: seq<Action>, n: nat)
    requires Invariant(w, maxRetries) && n >= |Run(w, maxRetries, actions).rows|
    ensures |w.rows| <= |Run(w, maxRetries, actions).rows|
    ensures |Run(w, maxRetries, actions).pushed| == |w.pushed| + PushesOfRows(w, maxRetries, actions, n)
    decreases |actions|
  {
    if actions == [] {
      NoPushes(w, maxRetries, n);
    } else {
      NextKeeps(w, maxRetries, actions[0]);
      PushesFromAddUp(Next(w, maxRetries, actions[0]), maxRetries, actions[1..], n);
      GrowthHasARow(w, maxRetries, actions[0]);
      RowsNext(w, maxRetries, actions, n);
    }
  }

  lemma {:induction false} NoPushes(w: World, maxRetries: int, n: nat)
    ensures PushesOfRows(w, maxRetries, [], n) == 0
  {
    if n > 0 {
      NoPushes(w, maxRetries, n - 1);
    }
  }

  /** The pushes counted row by row are all there are. */
  lemma PushesAddUp(me: nat, maxRetries: int, actions: seq<Action>)
    ensures var w := Run(Start(me), maxRetries, actions);
      |w.pushed| == PushesOfRows(Start(me), maxRetries, actions, |w.rows|)
  {
    PushesFromAddUp(Start(me), maxRetries, actions, |Run(Start(me), maxRetries, actions).rows|);
  }

  // ----- a lost answer repeats a clip -----

  predicate AnswerLost(f: Fate) {
    f.created && f.urlAnswered && f.arrived && f.putAnswered && f.saved && f.queued && !f.completeAnswered
  }

  /** The clip is pushed, and the row waits for another pass. */
  lemma LostAnswerPass(w: World, maxRetries: int, f: Fate)
    requires w.stage == Idle && FirstUnfinished(w.rows) < |w.rows| && AnswerLost(f)
    ensures var v, job := Pass(w, maxRetries, f), FirstUnfinished(w.rows);
      && v.stage == Idle && v.pushed == w.pushed + [|w.clips|] && |v.clips| == |w.clips| + 1
      && v.rows == w.rows[job := AfterFailure(Marked(w.rows[job], Uploading, None, false), maxRetries, f.error)]
  {
    var job := FirstUnfinished(w.rows);
    var begun := Next(Next(w, maxRetries, Select), maxRetries, Begin);
    assert begun == WithRow(w, job, Marked(w.rows[job], Uploading, None, false)).(stage := Requesting(job));
    LostAnswerCalls(begun, maxRetries, f, job);
    LostAnswerEnd(Calls(begun, maxRetries, f), maxRetries, f, job);
  }

  lemma LostAnswerCalls(w: World, maxRetries: int, f: Fate, job: nat)
    requires Sane(w) && w.stage == Requesting(job) && AnswerLost(f)
    ensures var v := Calls(w, maxRetries, f);
      && Sane(v) && v.stage == Failing(job) && v.rows == w.rows
      && v.pushed == w.pushed + [|w.clips|] && |v.clips| == |w.clips| + 1
  {
    var requested := Next(w, maxRetries, Request(true, true));
    assert requested.stage == Putting(job, |w.clips|);
    var put := Next(requested, maxRetries, Put(true, true));
    assert put.stage == Completing(job, |w.clips|);
  }

  lemma LostAnswerEnd(w: World, maxRetries: int, f: Fate, job: nat)
    requires Sane(w) && w.stage == Failing(job)
    ensures EndOfPass(w, maxRetries, f)
      == WithRow(w, job, AfterFailure(w.rows[job], maxRetries, f.error)).(stage := Idle)
  {
    assert Next(w, maxRetries, Close(f.written)) == w;
    assert Next(w, maxRetries, Remove) == w;
  }

  /** The row is done in `v`, after two clips were pushed for it. */
  predicate PushedTwice(w: World, v: World, job: nat) {
    && v.pushed == w.pushed + [|w.clips|, |w.clips| + 1]
    && job < |v.rows| && v.rows[job].state == Done && job in v.deleted
  }

  /** So a row is analyzed twice: it has another attempt left, the first answer to the complete
      call is lost, and the next pass succeeds. */
  lemma LostAnswerRepeatsTheClip(w: World, maxRetries: int, f: Fate, g: Fate)
    requires w.stage == Idle && FirstUnfinished(w.rows) < |w.rows| && AnswerLost(f) && AllGood(g)
    requires w.rows[FirstUnfinished(w.rows)].retries + 1 < maxRetries
    ensures PushedTwice(w, Pass(Pass(w, maxRetries, f), maxRetries, g), FirstUnfinished(w.rows))
  {
    var job, u := FirstUnfinished(w.rows), Pass(w, maxRetries, f);
    LostAnswerPass(w, maxRetries, f);
    FinishedBefore(w.rows);
    FirstUnfinishedIs(u.rows, job);
    GoodPassDelivers(u, maxRetries, g);
    assert w.pushed + [|w.clips|] + [|w.clips| + 1] == w.pushed + [|w.clips|, |w.clips| + 1];
  }

  // ----- the facts of a queue row -----

  predicate SameJob(before: Row, after: Row) {
    && after.clipPath == before.clipPath && after.cameraId == before.cameraId
    && after.duration == before.duration && after.trigger == before.trigger
    && after.retries >= before.retries
  }

  /** A clip is queued as it was cut, unfinished, with no attempt and no error, behind the others. */
  lemma EnqueuedExactly(w: World, maxRetries: int, path: string, camera: nat, duration: real, trigger: string)
    requires Sane(w)
    ensures var v := Next(w, maxRetries, Enqueue(path, camera, duration, trigger));
      && |v.rows| == |w.rows| + 1 && v.rows[..|w.rows|] == w.rows
      && var r := v.rows[|w.rows|];
         r.clipPath == path && r.cameraId == camera && r.duration == duration && r.trigger == trigger
         && r.state == Pending && r.retries == 0 && r.lastError == None
  {
  }

  /** A failed attempt is written into its own row: the error, one attempt more, and given up
      exactly when the attempts are used up. */
  lemma FailureIsRecorded(w: World, maxRetries: int, error: string)
    requires Sane(w) && w.stage.Failing?
    ensures var job, v := w.stage.job, Next(w, maxRetries, Retreat(error));
      && |v.rows| == |w.rows| && (forall k :: 0 <= k < |w.rows| && k != job ==> v.rows[k] == w.rows[k])
      && var b, r := w.rows[job], v.rows[job];
         SameJob(b, r) && r.retries == b.retries + 1 && r.lastError == Some(error)
         && r.state == if b.retries + 1 >= maxRetries then Failed else Pending
  {
  }

  lemma NextIsSameJob(w: World, maxRetries: int, a: Action, job: nat)
    requires job < |w.rows|
    ensures var v := Next(w, maxRetries, a); job < |v.rows| && SameJob(w.rows[job], v.rows[job])
  {
  }

  /** Along every run a queued job stays the job that was queued. */
  lemma {:induction false} JobsKeepTheirClip(w: World, maxRetries: int, actions: seq<Action>, job: nat)
    requires job < |w.rows|
    ensures var v := Run(w, maxRetries, actions); job < |v.rows| && SameJob(w.rows[job], v.rows[job])
    decreases |actions|
  {
    if actions != [] {
      NextIsSameJob(w, maxRetries, actions[0], job);
      JobsKeepTheirClip(Next(w, maxRetries, actions[0]), maxRetries, actions[1..], job);
    }
  }

  /** A pause between selecting a job and beginning it puts the job back untouched. */
  lemma PauseHoldsTheJob(w: World, maxRetries: int)
    requires w.stage.Idle?
    ensures Run(w, maxRetries, [Select, Hold]) == w
  {
    assert [Select, Hold][1..] == [Hold];
    assert Run(w, maxRetries, [Select, Hold]) == Next(Next(w, maxRetries, Select), maxRetries, Hold);
  }

  // ----- nothing without a file in storage -----

  predicate NoArrival(actions: seq<Action>) {
    forall k :: 0 <= k < |actions| ==> !(actions[k].Put? && actions[k].arrived)
  }

  lemma {:induction false} StorageStaysEmpty(w: World, maxRetries: int, actions: seq<Action>)
    requires NoArrival(actions) && w.stored == {}
    ensures Run(w, maxRetries, actions).stored == {}
    decreases |actions|
  {
    if actions != [] {
      assert Next(w, maxRetries, actions[0]).stored == {};
      StorageStaysEmpty(Next(w, maxRetries, actions[0]), maxRetries, actions[1..]);
    }
  }

  /** As long as no file reaches the storage, every run leaves every file on disk and no job done,
      whatever was answered. */
  lemma NothingArrivesNothingIsDone(me: nat, maxRetries: int, actions: seq<Action>, job: nat)
    requires NoArrival(actions)
    ensures var w := Run(Start(me), maxRetries, actions);
      w.deleted == {} && (job < |w.rows| ==> w.rows[job].state != Done)
  {
    var w := Run(Start(me), maxRetries, actions);
    Safety(me, maxRetries, actions);
    StorageStaysEmpty(Start(me), maxRetries, actions);
    assert forall j: nat :: j in w.receipts ==> Delivered(w, j, w.receipts[j]);
  }
}
