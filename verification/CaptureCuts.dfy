/** When the capture loop cuts a clip, and which frames are in it (connector/app/capture.py). */
module CaptureCuts {
  import opened Wrappers
  import opened Polygons
  import opened Selections
  import opened CaptureLoop

  // ----- when a clip is cut -----

  lemma RatioAtLeast(x: real, d: real, k: real)
    requires d > 0.0
    ensures x / d >= k <==> x >= k * d
  {
    var q := x / d;
    assert q * d == x;
    Ordered(q, k, d);
  }

  lemma Ordered(q: real, k: real, d: real)
    requires d > 0.0
    ensures q >= k <==> q * d >= k * d
  {
    if q >= k {
      assert (q - k) * d >= 0.0;
    } else {
      assert (k - q) * d > 0.0;
    }
  }

  /** An analysis came back, saw a person, and enough pixels of the mask in force were moving, a
      cooldown or more after the last cut. */
  predicate SeesMotion(cfg: Config, zones: Zones, i: Input, last: real)
    requires i.Frame?
  {
    && i.analysis.Some? && i.analysis.value.person
    && zones.maskPixels.Some? && zones.maskPixels.value > 0
    && i.analysis.value.moving as real >= cfg.motionFraction * zones.maskPixels.value as real
    && i.now - last >= i.cooldown
  }

  lemma MotionExactly(cfg: Config, z: Zones, moving: nat)
    ensures HasMotion(cfg, z, moving) <==>
      z.maskPixels.Some? && z.maskPixels.value > 0 && moving as real >= cfg.motionFraction * z.maskPixels.value as real
  {
    if z.maskPixels.Some? && z.maskPixels.value > 0 {
      RatioAtLeast(moving as real, z.maskPixels.value as real, cfg.motionFraction);
    }
  }

  /** In every state a frame makes one more clip if and only if a request is pending or motion was
      seen under the mask as it is after the refresh; the clip is manual exactly in the first
      case. Nothing else ever makes a clip. */
  lemma CutsExactly(cfg: Config, s: State, i: Input)
    requires i.Frame?
    ensures var t := Next(cfg, s, i);
      if s.requested || SeesMotion(cfg, t.zones, i, s.lastTrigger)
      then |t.clips| == |s.clips| + 1 && t.clips[..|s.clips|] == s.clips && t.lastTrigger == i.now
           && var c := t.clips[|s.clips|]; c.manual == s.requested && c.at == i.now && c.trigger == s.count
      else t.clips == s.clips && t.lastTrigger == s.lastTrigger
  {
    var read := Read(cfg, s, i);
    if i.analysis.Some? {
      MotionExactly(cfg, read.zones, i.analysis.value.moving);
    }
    assert read.clips == s.clips && read.lastTrigger == s.lastTrigger;
  }

  lemma NoFrameNoClip(cfg: Config, s: State, i: Input)
    requires !i.Frame?
    ensures Next(cfg, s, i).clips == s.clips
    ensures Next(cfg, s, i).requested <==> s.requested || i.Request?
  {
  }

  /** A person moving in half of a hundred-pixel mask, long after the last cut. */
  lemma MotionIsCut(cfg: Config, s: State, i: Input)
    requires i.Frame? && cfg.motionFraction == 0.1 && i.analysis == Some(Analysis(50, true))
    requires i.now - s.lastTrigger >= i.cooldown && Next(cfg, s, i).zones.maskPixels == Some(100)
    ensures |Next(cfg, s, i).clips| == |s.clips| + 1
  {
    CutsExactly(cfg, s, i);
  }

  // ----- windows -----

  /** As many whole frames as fit into the seconds, and never none. */
  lemma WindowExactly(seconds: real, fps: real)
    ensures var n := WindowFrames(seconds, fps);
      && n >= 1
      && (seconds * fps >= 1.0 ==> n as real <= seconds * fps < n as real + 1.0)
      && (seconds * fps < 1.0 ==> n == 1)
  {
    var x := seconds * fps;
    assert x.Floor as real <= x < x.Floor as real + 1.0;
  }

  function Min(a: nat, b: nat): nat {
    if a <= b then a else b
  }

  /** The buffer grows by each read until the window is full, and shrinks with the window. */
  lemma BufferLength(cfg: Config, s: State, i: Input)
    requires i.Frame?
    ensures |Read(cfg, s, i).rolling| == Min(Min(|s.rolling| + 1, s.pre), WindowFrames(i.preSeconds, cfg.fps))
  {
  }

  /** The first n reads after the trigger succeed, and the next one, if wanted, does not. */
  predicate SucceedFor(after: seq<PostRead>, post: nat, n: nat) {
    && n <= post && (forall j :: 0 <= j < n && j < |after| ==> after[j] == Got)
    && (n < post ==> n < |after| && after[n] != Got)
  }

  lemma {:induction false} PostExactly(after: seq<PostRead>, post: nat, n: nat)
    requires SucceedFor(after, post, n)
    ensures PostReads(after, post) == n
    ensures Interrupts(after, post) <==> n < post && after[n] == Interrupted
  {
    if post > 0 && after != [] && after[0] == Got {
      PostExactly(after[1..], post - 1, n - 1);
    }
  }

  /** The frame numbers from `first` on. */
  function Numbers(first: int, n: nat): seq<int> {
    seq(n, k requires k >= 0 => first + k)
  }

  lemma JoinedNumbers(rolling: seq<nat>, first: nat, after: seq<PostRead>, post: nat, next: nat)
    requires Consecutive(rolling, first) && first + |rolling| == next
    ensures rolling + PostFrames(after, post, next)
      == Numbers(first, |rolling| + if Interrupts(after, post) then 0 else PostReads(after, post))
  {
  }

  function Buffered(cfg: Config, s: State, i: Input): nat
    requires i.Frame?
  {
    Min(Min(|s.rolling| + 1, s.pre), WindowFrames(i.preSeconds, cfg.fps))
  }

  /** How many of n successful reads are kept. */
  function Kept(after: seq<PostRead>, post: nat, n: nat): nat {
    if n < post && n < |after| && after[n] == Interrupted then 0 else n
  }

  /** The buffer is an unbroken block of reads that ends with the latest, within its window. */
  ghost predicate BufferOk(s: State) {
    |s.rolling| <= s.pre && s.pre >= 1 && Unused(s) >= 0 && Consecutive(s.rolling, Unused(s))
  }

  lemma BufferIsOk(cfg: Config, preSeconds: real, postSeconds: real, inputs: seq<Input>)
    ensures BufferOk(Run(cfg, Start(cfg, preSeconds, postSeconds), inputs))
  {
    RunKeeps(cfg, Start(cfg, preSeconds, postSeconds), inputs);
  }

  lemma ReadIsConsecutive(cfg: Config, s: State, i: Input)
    requires BufferOk(s) && i.Frame?
    ensures var rolling := Read(cfg, s, i).rolling;
      |rolling| == Buffered(cfg, s, i) && Consecutive(rolling, s.count + 1 - |rolling|)
  {
    BufferLength(cfg, s, i);
    RollingOk(s, WindowFrames(i.preSeconds, cfg.fps));
  }

  /** The clip is what was buffered, with this frame, and the reads after it: all the window asks
      for if nothing goes wrong, those before the source broke, none if the loop was interrupted. */
  lemma ClipFramesExactly(cfg: Config, s: State, i: Input, n: nat)
    requires BufferOk(s) && i.Frame? && Cuts(cfg, s, i)
    requires SucceedFor(i.after, WindowFrames(i.postSeconds, cfg.fps), n)
    ensures var t, buffered := Next(cfg, s, i), Buffered(cfg, s, i);
      && |t.clips| == |s.clips| + 1 && t.count == s.count + 1 + n
      && t.clips[|s.clips|].frames
         == Numbers(s.count + 1 - buffered, buffered + Kept(i.after, WindowFrames(i.postSeconds, cfg.fps), n))
  {
    CutHolds(cfg, s, i);
    FramesAfterRead(cfg, s, i, WindowFrames(i.postSeconds, cfg.fps), n);
  }

  lemma FramesAfterRead(cfg: Config, s: State, i: Input, post: nat, n: nat)
    requires BufferOk(s) && i.Frame? && SucceedFor(i.after, post, n)
    ensures var buffered := Buffered(cfg, s, i);
      && buffered <= s.count + 1 && PostReads(i.after, post) == n
      && Read(cfg, s, i).rolling + PostFrames(i.after, post, s.count + 1)
         == Numbers(s.count + 1 - buffered, buffered + Kept(i.after, post, n))
  {
    ReadIsConsecutive(cfg, s, i);
    FramesOfCut(Read(cfg, s, i).rolling, s.count + 1, i.after, post, n);
  }

  lemma FramesOfCut(rolling: seq<nat>, next: nat, after: seq<PostRead>, post: nat, n: nat)
    requires next >= |rolling| && Consecutive(rolling, next - |rolling|) && SucceedFor(after, post, n)
    ensures rolling + PostFrames(after, post, next) == Numbers(next - |rolling|, |rolling| + Kept(after, post, n))
    ensures PostReads(after, post) == n
  {
    PostExactly(after, post, n);
    JoinedNumbers(rolling, next - |rolling|, after, post, next);
  }

  lemma CutHolds(cfg: Config, s: State, i: Input)
    requires i.Frame? && Cuts(cfg, s, i)
    ensures var t, read := Next(cfg, s, i), Read(cfg, s, i);
      && |t.clips| == |s.clips| + 1 && read.count == s.count + 1
      && var post := WindowFrames(i.postSeconds, cfg.fps);
      && t.clips[|s.clips|].frames == read.rolling + PostFrames(i.after, post, read.count)
      && t.count == read.count + PostReads(i.after, post)
  {
  }

  ghost predicate HoldsAll(frames: seq<nat>, low: int, high: int) {
    forall f: nat :: low <= f <= high ==> f in frames
  }

  lemma NumbersHold(frames: seq<nat>, first: int, n: nat, low: int, high: int)
    requires frames == Numbers(first, n) && first <= low && high < first + n
    ensures HoldsAll(frames, low, high)
  {
    forall f: nat | low <= f <= high ensures f in frames {
      assert frames[f - first] == f;
    }
  }

  lemma SomethingIsBuffered(cfg: Config, s: State, i: Input)
    requires i.Frame? && s.pre >= 1
    ensures Buffered(cfg, s, i) >= 1
  {
    WindowExactly(i.preSeconds, cfg.fps);
  }

  lemma AllGot(after: seq<PostRead>, post: nat)
    requires forall j :: 0 <= j < |after| ==> after[j] == Got
    ensures SucceedFor(after, post, post) && Kept(after, post, post) == post
  {
  }

  /** An undisturbed cut holds the trigger and the whole window after it. */
  lemma UndisturbedCut(cfg: Config, s: State, i: Input)
    requires BufferOk(s) && i.Frame? && Cuts(cfg, s, i)
    requires forall j :: 0 <= j < |i.after| ==> i.after[j] == Got
    ensures var t := Next(cfg, s, i);
      && |t.clips| == |s.clips| + 1
      && HoldsAll(t.clips[|s.clips|].frames, s.count, s.count + WindowFrames(i.postSeconds, cfg.fps))
  {
    var post, buffered := WindowFrames(i.postSeconds, cfg.fps), Buffered(cfg, s, i);
    AllGot(i.after, post);
    ClipFramesExactly(cfg, s, i, post);
    SomethingIsBuffered(cfg, s, i);
    var frames := Next(cfg, s, i).clips[|s.clips|].frames;
    NumbersHold(frames, s.count + 1 - buffered, buffered + post, s.count, s.count + post);
  }

  // ----- zones -----

  /** Where there is a provider, a frame asks it for the zones if and only if the frame has a new
      size, the zones were edited, or ten seconds have passed. */
  lemma FetchesExactly(s: State, i: Input)
    requires i.Frame? && i.fetch != NoProvider
    ensures Fetches(s, i) <==>
      || s.zones.maskShape != Some(i.shape)
      || s.zones.loadedRevision != i.revision
      || i.clock - s.zones.loadedAt >= 10.0
  {
  }

  predicate IsUsable(zones: seq<Polygon>, k: nat) {
    && k < |zones| && |zones[k]| >= 3
    && forall q :: q in zones[k] ==> 0.0 <= q.x && q.x <= 1.0 && 0.0 <= q.y && q.y <= 1.0
  }

  /** Of the fetched polygons those with three points or more, all in the unit square, are used,
      in their order. */
  lemma {:induction false} UsableExactly(zones: seq<Polygon>) returns (at: seq<nat>)
    ensures Selects(zones, (k: nat) => IsUsable(zones, k), at, UsableZones(zones))
  {
    if zones == [] {
      return [];
    }
    var rest := zones[..|zones| - 1];
    var before := UsableExactly(rest);
    assert forall k: nat :: k < |rest| ==> (IsUsable(zones, k) <==> IsUsable(rest, k));
    at := SelectsNext(zones, (k: nat) => IsUsable(zones, k), before, UsableZones(rest));
  }

  /** A fetch that succeeds puts its polygons in force and draws the mask anew, at the size of the
      frame; without polygons the mask is empty. */
  lemma FetchedInForce(cfg: Config, s: State, i: Input)
    requires Fetches(s, i) && i.fetch.Fetched?
    ensures var z, points := Next(cfg, s, i).zones, UsableZones(i.fetch.zones);
      && z.points == points && z.maskShape == Some(i.shape) && z.loadedAt == i.clock && z.loadedRevision == i.revision
      && z.maskPixels == Some(if points == [] then 0 else cfg.raster(points, i.shape))
  {
  }

  /** In between the zones and the mask stay as they are. */
  lemma KeptBetweenFetches(cfg: Config, s: State, i: Input)
    requires i.Frame? && i.fetch != NoProvider
    requires s.zones.maskShape == Some(i.shape) && s.zones.loadedRevision == i.revision
    requires i.clock - s.zones.loadedAt < 10.0
    ensures Next(cfg, s, i).zones == s.zones
  {
  }

  /** A fetch that fails is counted and not repeated at once. The polygons and their mask outlive
      two failures in a row; the third leaves an empty mask. */
  lemma FailedFetchExactly(cfg: Config, s: State, i: Input)
    requires Fetches(s, i) && i.fetch.FetchFailed?
    ensures var b, z := s.zones, Next(cfg, s, i).zones;
      && z.failures == b.failures + 1 && z.loadedAt == i.clock && z.loadedRevision == i.revision
      && if b.points != [] && b.failures < 2
         then z.points == b.points && z.maskPixels == b.maskPixels && z.maskShape == b.maskShape
         else z.points == [] && z.maskPixels == Some(0) && z.maskShape == Some(i.shape)
  {
  }

  /** Without a provider there are no zones, and only requests cut. */
  lemma NoProviderNoMotion(cfg: Config, s: State, i: Input)
    requires i.Frame? && i.fetch == NoProvider
    ensures var t := Next(cfg, s, i);
      && t.zones.points == [] && t.zones.maskPixels == None
      && |t.clips| == |s.clips| + if s.requested then 1 else 0
  {
    CutsExactly(cfg, s, i);
  }

  // ----- pauses -----

  /** Clip n and those after it, and the buffer, start at frame `low` or later. */
  ghost predicate NothingBefore(s: State, n: nat, low: nat) {
    Unused(s) >= low && forall k :: n <= k < |s.clips| ==> Begin(s.clips[k]) >= low
  }

  lemma FrameNothingBefore(cfg: Config, s: State, i: Input, n: nat, low: nat)
    requires Invariant(cfg, s) && i.Frame? && NothingBefore(s, n, low)
    ensures NothingBefore(Next(cfg, s, i), n, low)
  {
    if Cuts(cfg, s, i) {
      CutIsOk(cfg, s, i);
    } else {
      RollingOk(s, WindowFrames(i.preSeconds, cfg.fps));
    }
  }

  lemma {:induction false} RunNothingBefore(cfg: Config, s: State, inputs: seq<Input>, n: nat, low: nat)
    requires Invariant(cfg, s) && NothingBefore(s, n, low)
    ensures NothingBefore(Run(cfg, s, inputs), n, low)
  {
    if inputs != [] {
      var before, i := inputs[..|inputs| - 1], inputs[|inputs| - 1];
      RunNothingBefore(cfg, s, before, n, low);
      RunKeeps(cfg, s, before);
      if i.Frame? {
        FrameNothingBefore(cfg, Run(cfg, s, before), i, n, low);
      }
    }
  }

  /** No clip spans a pause or a reconnect: what is cut after it holds only frames read after it. */
  lemma NoClipSpansAPause(cfg: Config, s: State, i: Input, after: seq<Input>, k: nat, f: nat)
    requires Invariant(cfg, s) && (i.Pause? || i.Reconnect?)
    requires var clips := Run(cfg, Next(cfg, s, i), after).clips; |s.clips| <= k < |clips| && f in clips[k].frames
    ensures f >= s.count
  {
    var paused := Next(cfg, s, i);
    NextKeeps(cfg, s, i);
    RunKeeps(cfg, paused, after);
    RunNothingBefore(cfg, paused, after, |s.clips|, s.count);
    assert ClipOk(Run(cfg, paused, after).clips[k]);
  }
}
