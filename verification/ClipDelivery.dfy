/** A queued clip's way from the connector's disk to the analysis queue, as one state machine:
    the uploader loop (connector/app/workers.py) against the backend (ClipsController.cs,
    ClipQueue.cs), with failures, lost responses and crashes at every point, and with the analysis
    reporting on what was pushed (AiEventsController.cs). */
module ClipDelivery {
  import opened Wrappers
  import opened UploadQueue

  // ----- the state -----

  datatype ClipStatus = ClipPending | ClipUploaded | ClipAnalyzed

  datatype ClipRow = ClipRow(cameraId: nat, connectorId: nat, status: ClipStatus)

  /** Where the uploader is in its loop body, with what it holds in local variables. */
  datatype Stage =
    | Idle
    | Selected(job: nat)
    | Requesting(job: nat)
    | Putting(job: nat, clip: nat)
    | Completing(job: nat, clip: nat)
    | Closing(job: nat, clip: nat)
    | Removing(job: nat, clip: nat)
    | Failing(job: nat)

  /** `me` is the connector; `job` is a row position. `pushed` logs the analysis jobs in the order of pushing,
      `receipts` the clip under which each job was closed, `deleted` the jobs whose file the
      uploader removed. */
  datatype World = World(
    me: nat, rows: seq<Row>, clips: seq<ClipRow>, stored: set<nat>, pushed: seq<nat>,
    stage: Stage, receipts: map<nat, nat>, deleted: set<nat>)

  function Start(me: nat): World {
    World(me, [], [], {}, [], Idle, map[], {})
  }

  // ----- the steps -----

  /** The booleans of a call say how far it got before it failed, if it did. */
  datatype Action =
    | Enqueue(clipPath: string, cameraId: nat, duration: real, trigger: string)
    | Select
    | Hold
    | Begin
    | Request(created: bool, answered: bool)
    | Put(arrived: bool, answered: bool)
    | Complete(saved: bool, queued: bool, answered: bool)
    | Close(written: bool)
    | Remove
    | Retreat(error: string)
    | Crash
    | Analyze(clip: nat)

  function WithRow(w: World, job: nat, r: Row): World
    requires job < |w.rows|
  {
    w.(rows := w.rows[job := r])
  }

  function AfterFailure(r: Row, maxRetries: int, error: string): Row {
    if r.retries + 1 >= maxRetries then Marked(r, Failed, Some(error), true) else Marked(r, Pending, Some(error), true)
  }

  /** POST upload-url creates the clip row; its answer may get lost. */
  function AfterRequest(w: World, job: nat, created: bool, answered: bool): World
    requires job < |w.rows|
  {
    var v := if created then w.(clips := w.clips + [ClipRow(w.rows[job].cameraId, w.me, ClipPending)]) else w;
    v.(stage := if created && answered then Putting(job, |w.clips|) else Failing(job))
  }

  /** The complete call refuses an object that is not in storage; otherwise it saves the status
      and then pushes the job, and may break off in between. */
  function AfterComplete(w: World, job: nat, clip: nat, saved: bool, queued: bool, answered: bool): World
    requires clip < |w.clips|
  {
    if clip !in w.stored || !saved then w.(stage := Failing(job))
    else
      var v := w.(clips := w.clips[clip := w.clips[clip].(status := ClipUploaded)]);
      if !queued then v.(stage := Failing(job))
      else v.(pushed := w.pushed + [clip], stage := if answered then Closing(job, clip) else Failing(job))
  }

  function AfterClose(w: World, job: nat, clip: nat): World
    requires job < |w.rows|
  {
    WithRow(w, job, Marked(w.rows[job], Done, None, false)).(
      stage := Removing(job, clip), receipts := w.receipts[job := clip])
  }

  /** The worker reports on a clip; it only knows the clips that were pushed. */
  function AfterAnalysis(w: World, clip: nat): World {
    if clip in w.pushed && clip < |w.clips| then w.(clips := w.clips[clip := w.clips[clip].(status := ClipAnalyzed)])
    else w
  }

  function Apply(w: World, maxRetries: int, a: Action): World
    requires Sane(w)
  {
    match a
    case Enqueue(path, camera, duration, trigger) =>
      w.(rows := w.rows + [NewRow(path, camera, duration, trigger)])
    case Crash => w.(stage := Idle)
    case Analyze(clip) => AfterAnalysis(w, clip)
    case Select =>
      if w.stage.Idle? && FirstUnfinished(w.rows) < |w.rows| then w.(stage := Selected(FirstUnfinished(w.rows)))
      else w
    case Hold => if w.stage.Selected? then w.(stage := Idle) else w
    case Begin =>
      if !w.stage.Selected? then w
      else
        var job := w.stage.job;
        WithRow(w, job, Marked(w.rows[job], Uploading, None, false)).(stage := Requesting(job))
    case Request(created, answered) =>
      if w.stage.Requesting? then AfterRequest(w, w.stage.job, created, answered) else w
    case Put(arrived, answered) =>
      if !w.stage.Putting? then w
      else
        w.(stored := if arrived then w.stored + {w.stage.clip} else w.stored,
           stage := if answered then Completing(w.stage.job, w.stage.clip) else Failing(w.stage.job))
    case Complete(saved, queued, answered) =>
      if w.stage.Completing? then AfterComplete(w, w.stage.job, w.stage.clip, saved, queued, answered) else w
    case Close(written) =>
      if !w.stage.Closing? then w
      else if !written then w.(stage := Failing(w.stage.job))
      else AfterClose(w, w.stage.job, w.stage.clip)
    case Remove =>
      if w.stage.Removing? then w.(deleted := w.deleted + {w.stage.job}, stage := Idle) else w
    case Retreat(error) =>
      if w.stage.Failing? then
        WithRow(w, w.stage.job, AfterFailure(w.rows[w.stage.job], maxRetries, error)).(stage := Idle)
      else w
  }

  function Next(w: World, maxRetries: int, a: Action): World {
    if Sane(w) then Apply(w, maxRetries, a) else w
  }

  function Run(w: World, maxRetries: int, actions: seq<Action>): World
    decreases |actions|
  {
    if actions == [] then w else Run(Next(w, maxRetries, actions[0]), maxRetries, actions[1..])
  }

  /** What the uploader's local variables refer to exists. */
  predicate Sane(w: World) {
    match w.stage
    case Idle => true
    case Selected(job) => job < |w.rows|
    case Requesting(job) => job < |w.rows|
    case Failing(job) => job < |w.rows|
    case Putting(job, clip) => job < |w.rows| && clip < |w.clips|
    case Completing(job, clip) => job < |w.rows| && clip < |w.clips|
    case Closing(job, clip) => job < |w.rows| && clip < |w.clips|
    case Removing(job, clip) => job < |w.rows| && clip < |w.clips|
  }

  // ----- what every step keeps -----

  /** The number of failed attempts a job is allowed. */
  function Limit(maxRetries: int): (r: nat)
    ensures r >= 1
  {
    if maxRetries < 1 then 1 else maxRetries
  }

  ghost predicate RowOk(r: Row, maxRetries: int) {
    if r.state == Failed then r.retries == Limit(maxRetries) else r.retries < Limit(maxRetries)
  }

  /** Jobs finish in the order of their ids, and one behind an unfinished job is untouched. */
  ghost predicate InOrder(rows: seq<Row>) {
    forall i, j :: 0 <= i < j < |rows| && Unfinished(rows[i]) ==> rows[j].state == Pending && rows[j].retries == 0
  }

  /** The job in hand is the first unfinished one, until it is closed. */
  ghost predicate InHand(w: World, job: nat) {
    job < |w.rows| && job == FirstUnfinished(w.rows) && job !in w.receipts
  }

  ghost predicate NoRepeats(s: seq<nat>) {
    forall i, j :: 0 <= i < j < |s| ==> s[i] != s[j]
  }

  /** A clip made for this job and not yet handed on. */
  ghost predicate FreshClip(w: World, job: nat, clip: nat) {
    && job < |w.rows| && clip < |w.clips| && w.clips[clip] == ClipRow(w.rows[job].cameraId, w.me, ClipPending)
    && clip !in w.pushed
  }

  ghost predicate StageOk(w: World) {
    match w.stage
    case Idle => true
    case Selected(job) => InHand(w, job)
    case Requesting(job) => InHand(w, job)
    case Failing(job) => InHand(w, job)
    case Putting(job, clip) => InHand(w, job) && FreshClip(w, job, clip)
    case Completing(job, clip) => InHand(w, job) && FreshClip(w, job, clip)
    case Closing(job, clip) => InHand(w, job) && Delivered(w, job, clip)
    case Removing(job, clip) => job in w.receipts && w.receipts[job] == clip && Delivered(w, job, clip)
  }

  /** The object is in storage under a clip of the job's camera, the clip is marked uploaded or
      already analyzed, and an analysis job was pushed for it. */
  ghost predicate Delivered(w: World, job: nat, clip: nat) {
    && job < |w.rows| && clip < |w.clips|
    && w.clips[clip].cameraId == w.rows[job].cameraId && w.clips[clip].connectorId == w.me
    && w.clips[clip].status != ClipPending
    && clip in w.stored && clip in w.pushed
  }

  ghost predicate Receipts(w: World) {
    && (forall job: nat :: job in w.receipts ==> Delivered(w, job, w.receipts[job]))
    && (forall job: nat :: job < |w.rows| ==> (w.rows[job].state == Done <==> job in w.receipts))
    && w.deleted <= w.receipts.Keys
  }

  ghost predicate Pushes(w: World) {
    && NoRepeats(w.pushed)
    && forall clip: nat :: clip in w.pushed ==>
         clip < |w.clips| && w.clips[clip].status != ClipPending && clip in w.stored
  }

  ghost predicate Invariant(w: World, maxRetries: int) {
    && (forall i :: 0 <= i < |w.rows| ==> RowOk(w.rows[i], maxRetries))
    && InOrder(w.rows)
    && StageOk(w) && Receipts(w) && Pushes(w)
  }

  // ----- each step keeps it -----

  lemma FinishedBefore(rows: seq<Row>)
    ensures FirstUnfinished(rows) <= |rows|
    ensures FirstUnfinished(rows) < |rows| ==> Unfinished(rows[FirstUnfinished(rows)])
    ensures forall i :: 0 <= i < FirstUnfinished(rows) ==> !Unfinished(rows[i])
  {
    FirstUnfinishedMeaning(rows, 0);
    forall i: nat | i < FirstUnfinished(rows) ensures !Unfinished(rows[i]) {
      FirstUnfinishedMeaning(rows, i);
    }
  }

  lemma EnqueueKeepsReceipts(w: World, v: World, r: Row)
    requires v == w.(rows := w.rows + [r]) && Receipts(w) && r.state == Pending
    ensures Receipts(v)
  {
    assert forall job: nat, clip: nat :: Delivered(w, job, clip) ==> Delivered(v, job, clip);
  }

  lemma EnqueueKeepsStage(w: World, v: World, r: Row)
    requires v == w.(rows := w.rows + [r]) && Receipts(w) && StageOk(w) && Unfinished(r)
    ensures StageOk(v)
  {
    FinishedBefore(w.rows);
    FirstUnfinishedIs(v.rows, FirstUnfinished(w.rows));
    assert forall job: nat, clip: nat :: Delivered(w, job, clip) ==> Delivered(v, job, clip);
  }

  lemma EnqueueKeeps(w: World, maxRetries: int, r: Row)
    requires Invariant(w, maxRetries) && r.state == Pending && r.retries == 0
    ensures Invariant(w.(rows := w.rows + [r]), maxRetries)
  {
    var v := w.(rows := w.rows + [r]);
    EnqueueKeepsReceipts(w, v, r);
    EnqueueKeepsStage(w, v, r);
  }

  /** A row in hand that stays unfinished, and does not lose retries. */
  lemma UpdateKeeps(w: World, maxRetries: int, job: nat, r: Row, stage: Stage)
    requires Invariant(w, maxRetries) && InHand(w, job)
    requires RowOk(r, maxRetries) && r.state != Done && r.cameraId == w.rows[job].cameraId
    requires stage == Idle || (stage == Requesting(job) && Unfinished(r))
    ensures Invariant(WithRow(w, job, r).(stage := stage), maxRetries)
  {
    var v := WithRow(w, job, r).(stage := stage);
    FirstUnfinishedMeaning(w.rows, job);
    FinishedBefore(w.rows);
    if Unfinished(r) {
      FirstUnfinishedIs(v.rows, job);
    }
    assert forall j: nat, clip: nat :: Delivered(w, j, clip) ==> Delivered(v, j, clip);
  }

  lemma RequestKeeps(w: World, maxRetries: int, job: nat, created: bool, answered: bool)
    requires Invariant(w, maxRetries) && w.stage == Requesting(job)
    ensures Invariant(AfterRequest(w, job, created, answered), maxRetries)
  {
    var v := AfterRequest(w, job, created, answered);
    assert forall j: nat, clip: nat :: Delivered(w, j, clip) ==> Delivered(v, j, clip);
  }

  lemma PutKeeps(w: World, maxRetries: int, arrived: bool, answered: bool)
    requires Invariant(w, maxRetries) && w.stage.Putting?
    ensures Invariant(Next(w, maxRetries, Put(arrived, answered)), maxRetries)
  {
    var v := Next(w, maxRetries, Put(arrived, answered));
    assert forall j: nat, clip: nat :: Delivered(w, j, clip) ==> Delivered(v, j, clip);
  }

  lemma CompleteKeeps(w: World, maxRetries: int, job: nat, clip: nat, saved: bool, queued: bool, answered: bool)
    requires Invariant(w, maxRetries) && w.stage == Completing(job, clip)
    ensures Invariant(AfterComplete(w, job, clip, saved, queued, answered), maxRetries)
  {
    var v := AfterComplete(w, job, clip, saved, queued, answered);
    assert forall j: nat, c: nat :: Delivered(w, j, c) ==> Delivered(v, j, c);
  }

  lemma CloseKeepsRows(rows: seq<Row>, maxRetries: int, job: nat)
    requires (forall i :: 0 <= i < |rows| ==> RowOk(rows[i], maxRetries)) && InOrder(rows)
    requires job < |rows| && job == FirstUnfinished(rows)
    ensures var next := rows[job := Marked(rows[job], Done, None, false)];
      (forall i :: 0 <= i < |next| ==> RowOk(next[i], maxRetries)) && InOrder(next)
  {
    FinishedBefore(rows);
  }

  lemma CloseKeeps(w: World, maxRetries: int, job: nat, clip: nat)
    requires Invariant(w, maxRetries) && w.stage == Closing(job, clip)
    ensures Invariant(Next(w, maxRetries, Close(true)), maxRetries)
  {
    var v := Next(w, maxRetries, Close(true));
    CloseKeepsRows(w.rows, maxRetries, job);
    assert v == AfterClose(w, job, clip);
    CloseKeepsReceipts(w, job, clip);
  }

  lemma CloseKeepsReceipts(w: World, job: nat, clip: nat)
    requires Receipts(w) && Pushes(w) && Delivered(w, job, clip)
    ensures Receipts(AfterClose(w, job, clip)) && StageOk(AfterClose(w, job, clip)) && Pushes(AfterClose(w, job, clip))
  {
    var v := AfterClose(w, job, clip);
    assert forall j: nat, c: nat :: Delivered(w, j, c) ==> Delivered(v, j, c);
  }

  lemma SelectKeeps(w: World, maxRetries: int)
    requires Invariant(w, maxRetries) && w.stage == Idle
    ensures Invariant(Next(w, maxRetries, Select), maxRetries)
  {
    FirstUnfinishedMeaning(w.rows, FirstUnfinished(w.rows));
  }

  lemma BeginKeeps(w: World, maxRetries: int)
    requires Invariant(w, maxRetries) && w.stage.Selected?
    ensures Invariant(Next(w, maxRetries, Begin), maxRetries)
  {
    var job := w.stage.job;
    FirstUnfinishedMeaning(w.rows, job);
    UpdateKeeps(w, maxRetries, job, Marked(w.rows[job], Uploading, None, false), Requesting(job));
  }

  lemma RetreatKeeps(w: World, maxRetries: int, error: string)
    requires Invariant(w, maxRetries) && w.stage.Failing?
    ensures Invariant(Next(w, maxRetries, Retreat(error)), maxRetries)
  {
    var job := w.stage.job;
    FirstUnfinishedMeaning(w.rows, job);
    UpdateKeeps(w, maxRetries, job, AfterFailure(w.rows[job], maxRetries, error), Idle);
  }

  lemma RemoveKeeps(w: World, maxRetries: int)
    requires Invariant(w, maxRetries) && w.stage.Removing?
    ensures Invariant(Next(w, maxRetries, Remove), maxRetries)
  {
    var v := Next(w, maxRetries, Remove);
    assert forall j: nat, c: nat :: Delivered(w, j, c) ==> Delivered(v, j, c);
  }

  lemma ForgetKeeps(w: World, maxRetries: int)
    requires Invariant(w, maxRetries)
    ensures Invariant(w.(stage := Idle), maxRetries)
  {
    assert forall j: nat, c: nat :: Delivered(w, j, c) ==> Delivered(w.(stage := Idle), j, c);
  }

  lemma AnalysisKeeps(w: World, maxRetries: int, clip: nat)
    requires Invariant(w, maxRetries)
    ensures Invariant(AfterAnalysis(w, clip), maxRetries)
  {
    var v := AfterAnalysis(w, clip);
    assert forall j: nat, c: nat :: Delivered(w, j, c) ==> Delivered(v, j, c);
    assert forall j: nat, c: nat :: FreshClip(w, j, c) ==> FreshClip(v, j, c);
  }

  lemma NextKeeps(w: World, maxRetries: int, a: Action)
    requires Invariant(w, maxRetries)
    ensures Invariant(Next(w, maxRetries, a), maxRetries)
  {
    match a
    case Enqueue(path, camera, duration, trigger) =>
      EnqueueKeeps(w, maxRetries, NewRow(path, camera, duration, trigger));
    case Select => if w.stage.Idle? { SelectKeeps(w, maxRetries); }
    case Begin => if w.stage.Selected? { BeginKeeps(w, maxRetries); }
    case Request(created, answered) =>
      if w.stage.Requesting? { RequestKeeps(w, maxRetries, w.stage.job, created, answered); }
    case Put(arrived, answered) => if w.stage.Putting? { PutKeeps(w, maxRetries, arrived, answered); }
    case Complete(saved, queued, answered) =>
      if w.stage.Completing? {
        CompleteKeeps(w, maxRetries, w.stage.job, w.stage.clip, saved, queued, answered);
      }
    case Close(written) => if w.stage.Closing? && written { CloseKeeps(w, maxRetries, w.stage.job, w.stage.clip); }
    case Remove => if w.stage.Removing? { RemoveKeeps(w, maxRetries); }
    case Retreat(error) => if w.stage.Failing? { RetreatKeeps(w, maxRetries, error); }
    case Hold => ForgetKeeps(w, maxRetries);
    case Crash => ForgetKeeps(w, maxRetries);
    case Analyze(clip) => AnalysisKeeps(w, maxRetries, clip);
  }

  lemma {:induction false} RunKeeps(w: World, maxRetries: int, actions: seq<Action>)
    requires Invariant(w, maxRetries)
    ensures Invariant(Run(w, maxRetries, actions), maxRetries)
    decreases |actions|
  {
    if actions != [] {
      NextKeeps(w, maxRetries, actions[0]);
      RunKeeps(Next(w, maxRetries, actions[0]), maxRetries, actions[1..]);
    }
  }

  /** Every reachable state, whatever fails, gets lost or crashes on the way. */
  lemma Safety(me: nat, maxRetries: int, actions: seq<Action>)
    ensures Invariant(Run(Start(me), maxRetries, actions), maxRetries)
  {
    RunKeeps(Start(me), maxRetries, actions);
  }

  // ----- what a reader may conclude -----

  /** A file is removed only when its object is in storage and its analysis job was pushed. */
  lemma DeletedOnlyOnceDelivered(me: nat, maxRetries: int, actions: seq<Action>, a: Action, job: nat)
    requires var w := Run(Start(me), maxRetries, actions);
      job !in w.deleted && job in Next(w, maxRetries, a).deleted
    ensures var w := Run(Start(me), maxRetries, actions);
      job < |w.rows| && w.rows[job].state == Done && job in w.receipts && Delivered(w, job, w.receipts[job])
  {
    Safety(me, maxRetries, actions);
  }

  /** A crash loses no unfinished job: the next pass picks the very job that was in hand. */
  lemma CrashKeepsJobSelectable(me: nat, maxRetries: int, actions: seq<Action>)
    ensures var w := Run(Start(me), maxRetries, actions);
      var v := Next(w, maxRetries, Crash);
      && v.rows == w.rows && v.stage == Idle
      && (forall job :: InHand(w, job) ==> Next(v, maxRetries, Select).stage == Selected(job))
  {
    var w := Run(Start(me), maxRetries, actions);
    Safety(me, maxRetries, actions);
    FirstUnfinishedMeaning(w.rows, 0);
  }

  lemma FinishedInOrder(me: nat, maxRetries: int, actions: seq<Action>, i: nat, j: nat)
    requires i < j < |Run(Start(me), maxRetries, actions).rows|
    requires !Unfinished(Run(Start(me), maxRetries, actions).rows[j])
    ensures !Unfinished(Run(Start(me), maxRetries, actions).rows[i])
  {
    Safety(me, maxRetries, actions);
  }

  // ----- draining -----

  /** The attempts a row has left. */
  function Left(r: Row, maxRetries: int): int {
    if Unfinished(r) then Limit(maxRetries) - r.retries else 0
  }

  function Budget(rows: seq<Row>, maxRetries: int): int {
    if rows == [] then 0
    else Budget(rows[..|rows| - 1], maxRetries) + Left(rows[|rows| - 1], maxRetries)
  }

  lemma {:induction false} BudgetUpdate(rows: seq<Row>, maxRetries: int, job: nat, r: Row)
    requires job < |rows|
    ensures Budget(rows[job := r], maxRetries)
      == Budget(rows, maxRetries) - Left(rows[job], maxRetries) + Left(r, maxRetries)
  {
    var n := |rows| - 1;
    if job == n {
      assert rows[job := r][..n] == rows[..n];
    } else {
      BudgetUpdate(rows[..n], maxRetries, job, r);
      assert rows[job := r][..n] == rows[..n][job := r];
    }
  }

  lemma {:induction false} BudgetMeaning(rows: seq<Row>, maxRetries: int)
    requires forall i :: 0 <= i < |rows| ==> RowOk(rows[i], maxRetries)
    ensures Budget(rows, maxRetries) >= 0
    ensures Budget(rows, maxRetries) == 0 <==> FirstUnfinished(rows) == |rows|
  {
    if rows != [] {
      var n := |rows| - 1;
      BudgetMeaning(rows[..n], maxRetries);
      FinishedBefore(rows);
      FinishedBefore(rows[..n]);
      if FirstUnfinished(rows[..n]) < n {
        FirstUnfinishedIs(rows, FirstUnfinished(rows[..n]));
      } else if Unfinished(rows[n]) {
        FirstUnfinishedIs(rows, n);
      } else {
        FirstUnfinishedIs(rows, |rows|);
      }
    }
  }

  /** The step closes an attempt: a job is marked done, or its failure is recorded. */
  predicate Settles(w: World, a: Action) {
    (w.stage.Closing? && a == Close(true)) || (w.stage.Failing? && a.Retreat?)
  }

  /** The row a step would rewrite is unfinished and within its limit. */
  ghost predicate JobOpen(w: World, maxRetries: int) {
    && Sane(w)
    && (w.stage.Selected? || w.stage.Closing? || w.stage.Failing? ==>
          Unfinished(w.rows[w.stage.job]) && RowOk(w.rows[w.stage.job], maxRetries))
  }

  lemma JobIsOpen(w: World, maxRetries: int)
    requires Invariant(w, maxRetries)
    ensures JobOpen(w, maxRetries)
  {
    FinishedBefore(w.rows);
  }

  lemma LeftAfter(r: Row, maxRetries: int, error: string)
    requires Unfinished(r) && RowOk(r, maxRetries)
    ensures Left(Marked(r, Uploading, None, false), maxRetries) == Left(r, maxRetries) >= 1
    ensures Left(Marked(r, Done, None, false), maxRetries) == 0
    ensures Left(AfterFailure(r, maxRetries, error), maxRetries) == Left(r, maxRetries) - 1
  {
  }

  lemma OpenBudgetStep(w: World, maxRetries: int, a: Action)
    requires JobOpen(w, maxRetries)
    ensures var v := Next(w, maxRetries, a);
      Budget(v.rows, maxRetries) + (if Settles(w, a) then 1 else 0)
        <= Budget(w.rows, maxRetries) + (if a.Enqueue? then Limit(maxRetries) else 0)
  {
    match a
    case Enqueue(path, camera, duration, trigger) =>
      var r := NewRow(path, camera, duration, trigger);
      assert (w.rows + [r])[..|w.rows|] == w.rows;
    case Begin =>
      if w.stage.Selected? {
        LeftAfter(w.rows[w.stage.job], maxRetries, "");
        BudgetUpdate(w.rows, maxRetries, w.stage.job, Marked(w.rows[w.stage.job], Uploading, None, false));
      }
    case Close(written) =>
      if w.stage.Closing? {
        LeftAfter(w.rows[w.stage.job], maxRetries, "");
        BudgetUpdate(w.rows, maxRetries, w.stage.job, Marked(w.rows[w.stage.job], Done, None, false));
      }
    case Retreat(error) =>
      if w.stage.Failing? {
        LeftAfter(w.rows[w.stage.job], maxRetries, error);
        BudgetUpdate(w.rows, maxRetries, w.stage.job, AfterFailure(w.rows[w.stage.job], maxRetries, error));
      }
    case Request(_, _) =>
    case Put(_, _) =>
    case Complete(_, _, _) =>
    case Select =>
    case Hold =>
    case Remove =>
    case Crash =>
    case Analyze(_) =>
  }

  /** Every settled attempt costs at least one unit, and only a new clip adds any. */
  lemma BudgetStep(w: World, maxRetries: int, a: Action)
    requires Invariant(w, maxRetries)
    ensures var v := Next(w, maxRetries, a);
      Budget(v.rows, maxRetries) + (if Settles(w, a) then 1 else 0)
        <= Budget(w.rows, maxRetries) + (if a.Enqueue? then Limit(maxRetries) else 0)
  {
    JobIsOpen(w, maxRetries);
    OpenBudgetStep(w, maxRetries, a);
  }

  function Enqueues(actions: seq<Action>): nat {
    if actions == [] then 0 else (if actions[0].Enqueue? then 1 else 0) + Enqueues(actions[1..])
  }

  function SettledAttempts(w: World, maxRetries: int, actions: seq<Action>): nat
    decreases |actions|
  {
    if actions == [] then 0
    else (if Settles(w, actions[0]) then 1 else 0)
         + SettledAttempts(Next(w, maxRetries, actions[0]), maxRetries, actions[1..])
  }

  lemma {:induction false} AttemptsFrom(w: World, maxRetries: int, actions: seq<Action>)
    requires Invariant(w, maxRetries)
    ensures SettledAttempts(w, maxRetries, actions) + Budget(Run(w, maxRetries, actions).rows, maxRetries)
      <= Budget(w.rows, maxRetries) + Allowance(maxRetries, actions)
    decreases |actions|
  {
    if actions != [] {
      var v, rest := Next(w, maxRetries, actions[0]), actions[1..];
      NextKeeps(w, maxRetries, actions[0]);
      BudgetStep(w, maxRetries, actions[0]);
      AttemptsFrom(v, maxRetries, rest);
      AllowanceNext(maxRetries, actions);
    }
  }

  /** What these actions may add to the budget. */
  function Allowance(maxRetries: int, actions: seq<Action>): nat {
    Limit(maxRetries) * Enqueues(actions)
  }

  lemma AllowanceNext(maxRetries: int, actions: seq<Action>)
    requires actions != []
    ensures Allowance(maxRetries, actions)
      == (if actions[0].Enqueue? then Limit(maxRetries) else 0) + Allowance(maxRetries, actions[1..])
  {
    TimesSucc(Limit(maxRetries), Enqueues(actions[1..]));
  }

  lemma TimesSucc(a: nat, n: nat)
    ensures a * (1 + n) == a + a * n
  {
  }

  /** In any run the attempts that were settled, and those still to come, number at most the
      limit for each clip ever queued. */
  lemma AttemptsAreBounded(me: nat, maxRetries: int, actions: seq<Action>)
    ensures SettledAttempts(Start(me), maxRetries, actions)
      + Budget(Run(Start(me), maxRetries, actions).rows, maxRetries)
      <= Limit(maxRetries) * Enqueues(actions)
  {
    AttemptsFrom(Start(me), maxRetries, actions);
  }

  // ----- passes of the loop -----

  /** How far each call of one pass gets. */
  datatype Fate = Fate(
    created: bool, urlAnswered: bool, arrived: bool, putAnswered: bool,
    saved: bool, queued: bool, completeAnswered: bool, written: bool, error: string)

  /** The calls of a pass; one that is not due, because an earlier one failed, does nothing. */
  function Calls(w: World, maxRetries: int, f: Fate): World {
    var requested := Next(w, maxRetries, Request(f.created, f.urlAnswered));
    var put := Next(requested, maxRetries, Put(f.arrived, f.putAnswered));
    Next(put, maxRetries, Complete(f.saved, f.queued, f.completeAnswered))
  }

  /** What follows the calls: success, or the `except` branch. */
  function EndOfPass(w: World, maxRetries: int, f: Fate): World {
    var closed := Next(w, maxRetries, Close(f.written));
    Next(Next(closed, maxRetries, Remove), maxRetries, Retreat(f.error))
  }

  /** One pass without a crash. */
  function Pass(w: World, maxRetries: int, f: Fate): World {
    var begun := Next(Next(w, maxRetries, Select), maxRetries, Begin);
    EndOfPass(Calls(begun, maxRetries, f), maxRetries, f)
  }

  function Passes(w: World, maxRetries: int, fates: seq<Fate>): World
    decreases |fates|
  {
    if fates == [] then w else Passes(Pass(w, maxRetries, fates[0]), maxRetries, fates[1..])
  }

  ghost predicate Within(w: World, maxRetries: int, budget: int) {
    Invariant(w, maxRetries) && Budget(w.rows, maxRetries) <= budget
  }

  lemma StepDown(w: World, maxRetries: int, a: Action, budget: int)
    requires Within(w, maxRetries, budget) && !a.Enqueue?
    ensures Within(Next(w, maxRetries, a), maxRetries, if Settles(w, a) then budget - 1 else budget)
  {
    NextKeeps(w, maxRetries, a);
    BudgetStep(w, maxRetries, a);
  }

  lemma BeginPass(w: World, maxRetries: int)
    requires w.stage == Idle && FirstUnfinished(w.rows) < |w.rows|
    ensures var v := Next(Next(w, maxRetries, Select), maxRetries, Begin);
      Sane(v) && v.stage.Requesting?
  {
  }

  /** The calls end in success or in failure, never half-way. */
  lemma CallsEnd(w: World, maxRetries: int, f: Fate)
    requires Sane(w) && w.stage.Requesting?
    ensures var v := Calls(w, maxRetries, f); Sane(v) && (v.stage.Closing? || v.stage.Failing?)
  {
    var requested := Next(w, maxRetries, Request(f.created, f.urlAnswered));
    assert Sane(requested) && (requested.stage.Putting? || requested.stage.Failing?);
    var put := Next(requested, maxRetries, Put(f.arrived, f.putAnswered));
    assert Sane(put) && (put.stage.Completing? || put.stage.Failing?);
  }

  lemma CallsDown(w: World, maxRetries: int, f: Fate, budget: int)
    requires Within(w, maxRetries, budget) && w.stage.Requesting?
    ensures Within(Calls(w, maxRetries, f), maxRetries, budget)
  {
    var requested := Next(w, maxRetries, Request(f.created, f.urlAnswered));
    StepDown(w, maxRetries, Request(f.created, f.urlAnswered), budget);
    StepDown(requested, maxRetries, Put(f.arrived, f.putAnswered), budget);
    var put := Next(requested, maxRetries, Put(f.arrived, f.putAnswered));
    StepDown(put, maxRetries, Complete(f.saved, f.queued, f.completeAnswered), budget);
  }

  lemma EndPass(w: World, maxRetries: int, f: Fate, budget: int)
    requires Sane(w) && (w.stage.Closing? || w.stage.Failing?) && Within(w, maxRetries, budget)
    ensures var v := EndOfPass(w, maxRetries, f);
      v.stage == Idle && Within(v, maxRetries, budget - 1)
  {
    var closed := Next(w, maxRetries, Close(f.written));
    StepDown(w, maxRetries, Close(f.written), budget);
    if w.stage.Closing? && f.written {
      assert closed.stage.Removing?;
      EndDone(closed, maxRetries, f, budget - 1);
    } else {
      assert closed.stage.Failing?;
      EndFailed(closed, maxRetries, f, budget);
    }
  }

  lemma EndDone(w: World, maxRetries: int, f: Fate, budget: int)
    requires w.stage.Removing? && Within(w, maxRetries, budget)
    ensures var v := Next(Next(w, maxRetries, Remove), maxRetries, Retreat(f.error));
      v.stage == Idle && Within(v, maxRetries, budget)
  {
    StepDown(w, maxRetries, Remove, budget);
    assert Next(Next(w, maxRetries, Remove), maxRetries, Retreat(f.error)) == Next(w, maxRetries, Remove);
  }

  lemma EndFailed(w: World, maxRetries: int, f: Fate, budget: int)
    requires w.stage.Failing? && Within(w, maxRetries, budget)
    ensures var v := Next(Next(w, maxRetries, Remove), maxRetries, Retreat(f.error));
      v.stage == Idle && Within(v, maxRetries, budget - 1)
  {
    assert Next(w, maxRetries, Remove) == w;
    StepDown(w, maxRetries, Retreat(f.error), budget);
  }

  /** A pass that finds a job settles one attempt, however its calls fare. */
  lemma PassSettles(w: World, maxRetries: int, f: Fate, budget: int)
    requires Within(w, maxRetries, budget) && w.stage == Idle && FirstUnfinished(w.rows) < |w.rows|
    ensures Pass(w, maxRetries, f).stage == Idle && Within(Pass(w, maxRetries, f), maxRetries, budget - 1)
  {
    var selected := Next(w, maxRetries, Select);
    var begun := Next(selected, maxRetries, Begin);
    BeginPass(w, maxRetries);
    StepDown(w, maxRetries, Select, budget);
    StepDown(selected, maxRetries, Begin, budget);
    CallsEnd(begun, maxRetries, f);
    CallsDown(begun, maxRetries, f, budget);
    EndPass(Calls(begun, maxRetries, f), maxRetries, f, budget);
  }

  predicate AllGood(f: Fate) {
    && f.created && f.urlAnswered && f.arrived && f.putAnswered
    && f.saved && f.queued && f.completeAnswered && f.written
  }

  /** A pass whose calls all succeed delivers the first unfinished job under a new clip, which
      is pushed once, and removes its file. */
  lemma GoodPassDelivers(w: World, maxRetries: int, f: Fate)
    requires w.stage == Idle && FirstUnfinished(w.rows) < |w.rows| && AllGood(f)
    ensures var v, job := Pass(w, maxRetries, f), FirstUnfinished(w.rows);
      && v.pushed == w.pushed + [|w.clips|] && v.stored == w.stored + {|w.clips|}
      && v.rows == w.rows[job := w.rows[job].(state := Done, lastError := None)]
      && job in v.deleted && v.receipts == w.receipts[job := |w.clips|]
  {
    var job := FirstUnfinished(w.rows);
    var begun := Next(Next(w, maxRetries, Select), maxRetries, Begin);
    assert begun == WithRow(w, job, Marked(w.rows[job], Uploading, None, false)).(stage := Requesting(job));
    GoodCalls(begun, maxRetries, f, job);
    GoodEnd(Calls(begun, maxRetries, f), maxRetries, f, job, |w.clips|);
  }

  lemma GoodCalls(w: World, maxRetries: int, f: Fate, job: nat)
    requires Sane(w) && w.stage == Requesting(job) && AllGood(f)
    ensures var v, clip := Calls(w, maxRetries, f), |w.clips|;
      && Sane(v) && v.stage == Closing(job, clip) && v.rows == w.rows && v.receipts == w.receipts
      && v.deleted == w.deleted
      && v.pushed == w.pushed + [clip] && v.stored == w.stored + {clip}
  {
    var requested := Next(w, maxRetries, Request(true, true));
    assert requested.stage == Putting(job, |w.clips|);
    var put := Next(requested, maxRetries, Put(true, true));
    assert put.stage == Completing(job, |w.clips|);
  }

  lemma GoodEnd(w: World, maxRetries: int, f: Fate, job: nat, clip: nat)
    requires Sane(w) && w.stage == Closing(job, clip) && f.written
    ensures var v := EndOfPass(w, maxRetries, f);
      && v.rows == w.rows[job := w.rows[job].(state := Done, lastError := None)]
      && v.pushed == w.pushed && v.stored == w.stored && v.receipts == w.receipts[job := clip] && job in v.deleted
  {
    var closed := Next(w, maxRetries, Close(true));
    assert closed.stage == Removing(job, clip);
  }

  /** A pass over an empty queue changes nothing. */
  lemma IdlePass(w: World, maxRetries: int, f: Fate)
    requires w.stage == Idle && FirstUnfinished(w.rows) == |w.rows|
    ensures Pass(w, maxRetries, f) == w
  {
    assert Next(w, maxRetries, Select) == w;
    assert Next(w, maxRetries, Begin) == w;
    assert Calls(w, maxRetries, f) == w;
    assert Next(w, maxRetries, Close(f.written)) == w;
    assert Next(w, maxRetries, Remove) == w;
  }

  /** The queue drains: as many passes as attempts are left finish every job. */
  lemma {:induction false} QueueDrains(w: World, maxRetries: int, fates: seq<Fate>)
    requires Within(w, maxRetries, |fates|) && w.stage == Idle
    ensures FirstUnfinished(Passes(w, maxRetries, fates).rows) == |Passes(w, maxRetries, fates).rows|
    decreases |fates|
  {
    BudgetMeaning(w.rows, maxRetries);
    FinishedBefore(w.rows);
    if fates != [] {
      var v := Pass(w, maxRetries, fates[0]);
      if FirstUnfinished(w.rows) < |w.rows| {
        PassSettles(w, maxRetries, fates[0], |fates|);
      } else {
        IdlePass(w, maxRetries, fates[0]);
      }
      QueueDrains(v, maxRetries, fates[1..]);
    }
  }
}
