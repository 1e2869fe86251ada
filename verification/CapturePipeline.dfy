/** The capture loop as the object it is: `CapturePipeline` of connector/app/capture.py. */
module CapturePipeline {
  import opened Wrappers
  import opened Polygons
  import opened CaptureLoop

  class Pipeline {
    const cfg: Config
    var rolling: seq<nat>
    var preLen: nat
    var postLen: nat
    var lastTrigger: real
    var triggerRequested: bool
    var zonePoints: seq<Polygon>
    var maskPixels: Option<nat>
    var maskShape: Option<nat>
    var loadedAt: real
    var loadedRevision: int
    var fetchFailures: nat
    var frameCount: nat
    var clips: seq<Clip>

    constructor (cfg: Config, preSeconds: real, postSeconds: real)
      ensures this.cfg == cfg && Value() == Start(cfg, preSeconds, postSeconds)
    {
      this.cfg := cfg;
      rolling, preLen, postLen := [], WindowFrames(preSeconds, cfg.fps), WindowFrames(postSeconds, cfg.fps);
      lastTrigger, triggerRequested := 0.0, false;
      zonePoints, maskPixels, maskShape, loadedAt, loadedRevision, fetchFailures := [], None, None, 0.0, -1, 0;
      frameCount, clips := 0, [];
    }

    function ZoneValue(): Zones
      reads this
    {
      Zones(zonePoints, maskPixels, maskShape, loadedAt, loadedRevision, fetchFailures)
    }

    function Value(): State
      reads this
    {
      State(rolling, preLen, postLen, lastTrigger, triggerRequested, ZoneValue(), frameCount, clips)
    }

    method RequestTrigger()
      modifies this`triggerRequested
      ensures Value() == Next(cfg, old(Value()), Request)
    {
      triggerRequested := true;
    }

    method ConsumeTrigger() returns (manual: bool)
      modifies this`triggerRequested
      ensures manual == old(triggerRequested) && !triggerRequested
    {
      manual := triggerRequested;
      if triggerRequested {
        triggerRequested := false;
      }
    }

    method ParseZones(zones: seq<Polygon>) returns (points: seq<Polygon>)
      ensures points == UsableZones(zones)
    {
      points := [];
      for k := 0 to |zones|
        invariant points == UsableZones(zones[..k])
      {
        assert zones[..k + 1][..k] == zones[..k];
        if Usable(zones[k]) {
          points := points + [zones[k]];
        }
      }
      assert zones[..|zones|] == zones;
    }

    /** `_refresh_zones`: a failed fetch keeps the old polygons twice, then drops them. */
    method RefreshZones(fetch: Fetch, shape: nat, revision: int, now: real)
      modifies this`zonePoints, this`maskPixels, this`maskShape, this`loadedAt, this`loadedRevision, this`fetchFailures
      ensures ZoneValue() == Refreshed(cfg, old(ZoneValue()), fetch, shape, revision, now)
    {
      if fetch.NoProvider? {
        zonePoints, maskPixels := [], None;
        return;
      }
      if maskShape == Some(shape) && loadedRevision == revision && now - loadedAt < REFRESH_SECONDS {
        return;
      }
      loadedRevision := revision;
      loadedAt := now;
      if fetch.Fetched? {
        var points := ParseZones(fetch.zones);
        zonePoints := points;
        fetchFailures := 0;
      } else {
        fetchFailures := fetchFailures + 1;
        if zonePoints != [] && fetchFailures < MAX_FETCH_FAILURES {
          return;
        }
        zonePoints := [];
      }
      var pixels := 0;
      if zonePoints != [] {
        pixels := cfg.raster(zonePoints, shape);
      }
      maskPixels, maskShape := Some(pixels), Some(shape);
    }

    /** The loop that collects the frames after a trigger. */
    method CollectPost(after: seq<PostRead>, next: nat) returns (post: seq<nat>, taken: nat)
      ensures post == PostFrames(after, postLen, next) && taken == PostReads(after, postLen)
    {
      post, taken := [], 0;
      for k := 0 to postLen
        invariant taken == k && post == seq(k, j requires j >= 0 => next + j)
        invariant PostReads(after, postLen) == k + PostReads(Rest(after, k), postLen - k)
        invariant Interrupts(after, postLen) == Interrupts(Rest(after, k), postLen - k)
      {
        if k < |after| {
          RestStep(after, k);
          if after[k] == Interrupted {
            return [], taken;
          }
          if after[k] == Broke {
            return post, taken;
          }
        }
        post := post + [next + k];
        taken := taken + 1;
      }
    }

    /** The frame joins the rolling buffer, and the windows follow the settings. */
    method BufferFrame(i: Input)
      requires i.Frame?
      modifies this`rolling, this`frameCount, this`preLen, this`postLen
      ensures preLen == WindowFrames(i.preSeconds, cfg.fps) && postLen == WindowFrames(i.postSeconds, cfg.fps)
      ensures rolling == Newest(Newest(old(rolling) + [old(frameCount)], old(preLen)), preLen)
      ensures frameCount == old(frameCount) + 1
    {
      rolling := Newest(rolling + [frameCount], preLen);
      frameCount := frameCount + 1;
      var newPre, newPost := WindowFrames(i.preSeconds, cfg.fps), WindowFrames(i.postSeconds, cfg.fps);
      if newPre != preLen {
        preLen := newPre;
        rolling := Newest(rolling, preLen);
      }
      postLen := newPost;
    }

    method ReadFrame(i: Input) returns (manual: bool)
      requires i.Frame?
      modifies this
      ensures manual == old(triggerRequested)
      ensures Value() == Read(cfg, old(Value()), i)
    {
      BufferFrame(i);
      RefreshZones(i.fetch, i.shape, i.revision, i.clock);
      manual := ConsumeTrigger();
    }

    method Decide(i: Input, manual: bool) returns (cut: bool)
      requires i.Frame?
      ensures cut == Decides(cfg, Value(), i, manual)
    {
      var motion, person := false, false;
      if i.analysis.Some? {
        motion := HasMotion(cfg, ZoneValue(), i.analysis.value.moving);
        person := motion && i.analysis.value.person;
      }
      cut := manual || (motion && i.now - lastTrigger >= i.cooldown);
      if cut && !manual && !person {
        cut := false;
      }
    }

    method Cut(i: Input, manual: bool, trigger: nat)
      requires i.Frame?
      modifies this
      ensures Value() == CutNow(old(Value()), i, manual, trigger)
    {
      lastTrigger := i.now;
      var post, taken := CollectPost(i.after, frameCount);
      clips := clips + [Clip(rolling + post, trigger, i.now, manual, preLen, postLen, i.cooldown, ZoneValue())];
      frameCount := frameCount + taken;
      rolling := [];
    }

    /** One pass of the loop after a successful read. */
    method ProcessFrame(i: Input)
      requires i.Frame?
      modifies this
      ensures Value() == AfterFrame(cfg, old(Value()), i)
    {
      var trigger := frameCount;
      var manual := ReadFrame(i);
      var cut := Decide(i, manual);
      if cut {
        Cut(i, manual, trigger);
      }
    }

    /** The loop over whatever happens to the source. */
    method RunLoop(inputs: seq<Input>)
      modifies this
      ensures Value() == Run(cfg, old(Value()), inputs)
    {
      for k := 0 to |inputs|
        invariant Value() == Run(cfg, old(Value()), inputs[..k])
      {
        assert inputs[..k + 1][..k] == inputs[..k];
        match inputs[k] {
          case Pause => rolling := [];
          case Reconnect => rolling := [];
          case LoopFile =>
          case Request => RequestTrigger();
          case Frame(_, _, _, _, _, _, _, _, _, _) => ProcessFrame(inputs[k]);
        }
      }
      assert inputs[..|inputs|] == inputs;
    }
  }

  function Rest(after: seq<PostRead>, k: nat): seq<PostRead> {
    if k <= |after| then after[k..] else []
  }

  lemma RestStep(after: seq<PostRead>, k: nat)
    requires k < |after|
    ensures Rest(after, k)[1..] == Rest(after, k + 1) && Rest(after, k)[0] == after[k]
  {
  }
}
