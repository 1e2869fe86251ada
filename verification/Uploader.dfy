/** One pass of `run_uploader` (connector/app/workers.py) against the backend's clip endpoints
    (backend/Controllers/ClipsController.cs, backend/Services/ClipQueue.cs). */
module Uploader {
  import opened Wrappers
  import opened UploadQueue
  import opened ClipDelivery

  datatype HttpError = Unauthorized | UnknownCamera | Forbidden | NotFound | NoObject | Interrupted

  datatype CameraRow = CameraRow(storeId: nat, connectorId: Option<nat>)

  /** The connector the request's key belongs to. */
  datatype Caller = Caller(id: nat, storeId: nat)

  // ----- the backend -----

  /** `cameras` is what provisioning left; `pushed` is what went onto the Redis list. */
  class Backend {
    var cameras: map<nat, CameraRow>
    var clips: seq<ClipRow>
    var stored: set<nat>
    var pushed: seq<nat>

    constructor (cameras: map<nat, CameraRow>)
      ensures this.cameras == cameras && clips == [] && stored == {} && pushed == []
    {
      this.cameras, clips, stored, pushed := cameras, [], {}, [];
    }

    predicate Permits(caller: Caller, cameraId: nat)
      reads this`cameras
    {
      && cameraId in cameras && cameras[cameraId].storeId == caller.storeId
      && cameras[cameraId].connectorId == Some(caller.id)
    }

    /** `UploadUrl`; the row is in the table before the answer leaves. */
    method UploadUrl(caller: Option<Caller>, cameraId: nat, saves: bool, answers: bool)
      returns (r: Result<nat, HttpError>)
      modifies this`clips
      ensures var created := caller.Some? && cameraId in cameras && saves
          && cameras[cameraId] == CameraRow(caller.value.storeId, Some(caller.value.id));
        && clips == (if created then old(clips) + [ClipRow(cameraId, caller.value.id, ClipPending)] else old(clips))
        && r.Ok? == (created && answers)
        && (r.Ok? ==> r.value == |old(clips)|)
      ensures caller.None? ==> r == Err(Unauthorized)
      ensures caller.Some? && cameraId !in cameras ==> r == Err(UnknownCamera)
      ensures caller.Some? && cameraId in cameras ==>
        (cameras[cameraId] != CameraRow(caller.value.storeId, Some(caller.value.id)) <==> r == Err(Forbidden))
    {
      if caller.None? {
        return Err(Unauthorized);
      }
      if cameraId !in cameras {
        return Err(UnknownCamera);
      }
      var camera := cameras[cameraId];
      if camera.storeId != caller.value.storeId || camera.connectorId != Some(caller.value.id) {
        return Err(Forbidden);
      }
      if !saves {
        return Err(Interrupted);
      }
      var id := |clips|;
      clips := clips + [ClipRow(cameraId, caller.value.id, ClipPending)];
      return if answers then Ok(id) else Err(Interrupted);
    }

    /** The signed PUT goes to storage directly. */
    method PutObject(clip: nat, arrives: bool, answers: bool) returns (ok: bool)
      modifies this`stored
      ensures stored == if arrives then old(stored) + {clip} else old(stored)
      ensures ok == answers
    {
      if arrives {
        stored := stored + {clip};
      }
      return answers;
    }

    /** `EnqueueAsync`. */
    method Enqueue(clip: nat)
      modifies this`pushed
      ensures pushed == old(pushed) + [clip]
    {
      pushed := pushed + [clip];
    }

    /** `Complete`: the object must be there; the status is saved before the job is pushed. */
    method Complete(caller: Option<Caller>, clip: nat, saves: bool, queues: bool, answers: bool)
      returns (r: Result<(), HttpError>)
      modifies this`clips, this`pushed
      ensures var allowed := caller.Some? && clip < |old(clips)| && old(clips)[clip].connectorId == caller.value.id;
        var saved := allowed && clip in stored && saves;
        && clips == (if saved then old(clips)[clip := old(clips)[clip].(status := ClipUploaded)] else old(clips))
        && pushed == (if saved && queues then old(pushed) + [clip] else old(pushed))
        && r.Ok? == (saved && queues && answers)
      ensures caller.None? ==> r == Err(Unauthorized)
      ensures caller.Some? && clip >= |old(clips)| ==> r == Err(NotFound)
      ensures caller.Some? && clip < |old(clips)| && old(clips)[clip].connectorId != caller.value.id ==>
        r == Err(Forbidden)
    {
      if caller.None? {
        return Err(Unauthorized);
      }
      if clip >= |clips| {
        return Err(NotFound);
      }
      if clips[clip].connectorId != caller.value.id {
        return Err(Forbidden);
      }
      if clip !in stored {
        return Err(NoObject);
      }
      if !saves {
        return Err(Interrupted);
      }
      clips := clips[clip := clips[clip].(status := ClipUploaded)];
      if !queues {
        return Err(Interrupted);
      }
      Enqueue(clip);
      return if answers then Ok(()) else Err(Interrupted);
    }
  }

  // ----- the loop body -----

  class UploaderLoop {
    const store: LocalStore
    const backend: Backend
    const caller: Caller
    const maxRetries: int
    var uploadsOk: nat
    var uploadsFailed: nat
    var deleted: set<nat>
    ghost var receipts: map<nat, nat>

    constructor (store: LocalStore, backend: Backend, caller: Caller, maxRetries: int)
      ensures this.store == store && this.backend == backend && this.caller == caller && this.maxRetries == maxRetries
      ensures uploadsOk == 0 && uploadsFailed == 0 && deleted == {} && receipts == map[]
    {
      this.store, this.backend, this.caller, this.maxRetries := store, backend, caller, maxRetries;
      uploadsOk, uploadsFailed, deleted, receipts := 0, 0, {}, map[];
    }

    ghost function State(stage: Stage): World
      reads this, store, backend
    {
      World(caller.id, store.rows, backend.clips, backend.stored, backend.pushed, stage, receipts, deleted)
    }

    /** What becomes of a pass, given that the backend may also refuse the camera. */
    ghost function Outcome(f: Fate, job: nat): Fate
      reads this, store, backend
      requires job < |store.rows|
    {
      f.(created := f.created && backend.Permits(caller, store.rows[job].cameraId))
    }

    /** The calls inside the `try` up to the closing `mark`; None is an exception. */
    method TryUpload(job: nat, f: Fate) returns (clip: Option<nat>)
      requires job < |store.rows|
      modifies backend`clips, backend`stored, backend`pushed
      ensures State(if clip.Some? then Closing(job, clip.value) else Failing(job))
        == Calls(old(State(Requesting(job))), maxRetries, old(Outcome(f, job)))
      ensures clip.Some? ==> clip.value < |backend.clips|
    {
      ghost var w, g := State(Requesting(job)), Outcome(f, job);
      var info := backend.UploadUrl(Some(caller), store.rows[job].cameraId, f.created, f.urlAnswered);
      ghost var requested := Next(w, maxRetries, Request(g.created, g.urlAnswered));
      if info.Err? {
        assert requested == State(Failing(job));
        return None;
      }
      assert requested == State(Putting(job, info.value));
      clip := PutAndComplete(job, info.value, f);
    }

    method PutAndComplete(job: nat, id: nat, f: Fate) returns (clip: Option<nat>)
      requires job < |store.rows| && id < |backend.clips| && backend.clips[id].connectorId == caller.id
      modifies backend`clips, backend`stored, backend`pushed
      ensures State(if clip.Some? then Closing(job, clip.value) else Failing(job))
        == Next(Next(old(State(Putting(job, id))), maxRetries, Put(f.arrived, f.putAnswered)),
                maxRetries, Complete(f.saved, f.queued, f.completeAnswered))
      ensures |backend.clips| == old(|backend.clips|) && (clip.Some? ==> clip.value == id)
    {
      ghost var sent := Next(State(Putting(job, id)), maxRetries, Put(f.arrived, f.putAnswered));
      var put := backend.PutObject(id, f.arrived, f.putAnswered);
      if !put {
        assert sent == State(Failing(job));
        return None;
      }
      assert sent == State(Completing(job, id));
      var done := backend.Complete(Some(caller), id, f.saved, f.queued, f.completeAnswered);
      return if done.Ok? then Some(id) else None;
    }

    /** The `except` branch, with the retry count read when the job was picked. */
    method RecordFailure(job: nat, retries: nat, error: string)
      requires job < |store.rows| && store.rows[job].retries == retries
      modifies store, this`uploadsFailed
      ensures store.rows == old(store.rows)[job := AfterFailure(old(store.rows)[job], maxRetries, error)]
      ensures uploadsFailed == old(uploadsFailed) + if retries + 1 >= maxRetries then 1 else 0
    {
      if retries + 1 >= maxRetries {
        store.Mark(job + 1, Failed, Some(error), true);
        uploadsFailed := uploadsFailed + 1;
      } else {
        store.Mark(job + 1, Pending, Some(error), true);
      }
    }

    /** From the closing `mark` on: success, or the `except` branch. */
    method Finish(job: nat, retries: nat, clip: Option<nat>, f: Fate)
      requires job < |store.rows| && store.rows[job].retries == retries
      requires clip.Some? ==> clip.value < |backend.clips|
      modifies this, store
      ensures backend.clips == old(backend.clips) && backend.stored == old(backend.stored)
      ensures backend.pushed == old(backend.pushed)
      ensures var w := old(State(if clip.Some? then Closing(job, clip.value) else Failing(job)));
        State(Idle) == EndOfPass(w, maxRetries, f)
    {
      ghost var w := State(if clip.Some? then Closing(job, clip.value) else Failing(job));
      ghost var closed := Next(w, maxRetries, Close(f.written));
      if clip.Some? && f.written {
        store.Mark(job + 1, Done, None, false);
        uploadsOk := uploadsOk + 1;
        receipts := receipts[job := clip.value];
        assert closed == State(Removing(job, clip.value));
        deleted := deleted + {job};
        assert Next(closed, maxRetries, Remove) == State(Idle);
      } else {
        assert closed == State(Failing(job));
        assert Next(closed, maxRetries, Remove) == closed;
        RecordFailure(job, retries, f.error);
      }
    }

    /** The job is picked and, unless monitoring is paused, marked. */
    method Start(paused: bool) returns (job: Option<nat>)
      modifies store
      ensures job.Some? <==> FirstUnfinished(old(store.rows)) < |old(store.rows)| && !paused
      ensures job.None? ==> store.rows == old(store.rows)
      ensures job.Some? ==>
        && job.value == FirstUnfinished(old(store.rows)) < |store.rows|
        && store.rows[job.value].cameraId == old(store.rows)[job.value].cameraId
        && State(Requesting(job.value)) == Next(Next(old(State(Idle)), maxRetries, Select), maxRetries, Begin)
    {
      var next := store.NextPending();
      if next.None? || paused {
        return None;
      }
      ghost var selected := Next(State(Idle), maxRetries, Select);
      assert selected == State(Selected(next.value - 1));
      store.Mark(next.value, Uploading, None, false);
      return Some(next.value - 1);
    }

    /** One pass of the `while` loop without a crash. */
    method RunOnce(f: Fate, paused: bool)
      modifies this, store, backend`clips, backend`stored, backend`pushed
      ensures var w := old(State(Idle));
        State(Idle) == if FirstUnfinished(w.rows) < |w.rows| && !paused
                       then Pass(w, maxRetries, old(Outcome(f, FirstUnfinished(store.rows)))) else w
    {
      var job := Start(paused);
      if job.None? {
        return;
      }
      var retries := store.rows[job.value].retries;
      var clip := TryUpload(job.value, f);
      Finish(job.value, retries, clip, f);
    }
  }
}
