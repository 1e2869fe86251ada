/** The capture loop of the connector (connector/app/capture.py): rolling buffer, live window
    changes, cooldown, and detection zones that fail closed. */
module CaptureLoop {
  import opened Wrappers
  import opened Polygons

  /** `raster` counts the mask pixels that polygons cover on frames of a shape. */
  datatype Config = Config(fps: real, motionFraction: real, raster: (seq<Polygon>, nat) -> nat)

  // ----- zones -----

  datatype Zones = Zones(
    points: seq<Polygon>, maskPixels: Option<nat>, maskShape: Option<nat>,
    loadedAt: real, loadedRevision: int, failures: nat)

  datatype Fetch = NoProvider | Fetched(zones: seq<Polygon>) | FetchFailed

  const REFRESH_SECONDS := 10.0
  const MAX_FETCH_FAILURES: nat := 3

  predicate Usable(zone: Polygon) {
    |zone| >= 3 && forall p :: p in zone ==> 0.0 <= p.x <= 1.0 && 0.0 <= p.y <= 1.0
  }

  function UsableZones(zones: seq<Polygon>): seq<Polygon> {
    if zones == [] then []
    else UsableZones(zones[..|zones| - 1]) + if Usable(zones[|zones| - 1]) then [zones[|zones| - 1]] else []
  }

  /** The mask starts out empty; only polygons put pixels into it. */
  function Pixels(cfg: Config, points: seq<Polygon>, shape: nat): nat {
    if points == [] then 0 else cfg.raster(points, shape)
  }

  predicate StillFresh(z: Zones, shape: nat, revision: int, now: real) {
    z.maskShape == Some(shape) && z.loadedRevision == revision && now - z.loadedAt < REFRESH_SECONDS
  }

  function WithMask(cfg: Config, z: Zones, shape: nat): Zones {
    z.(maskPixels := Some(Pixels(cfg, z.points, shape)), maskShape := Some(shape))
  }

  function Refreshed(cfg: Config, z: Zones, fetch: Fetch, shape: nat, revision: int, now: real): Zones {
    if fetch.NoProvider? then z.(points := [], maskPixels := None)
    else if StillFresh(z, shape, revision, now) then z
    else
      var loaded := z.(loadedRevision := revision, loadedAt := now);
      match fetch
      case Fetched(zones) => WithMask(cfg, loaded.(points := UsableZones(zones), failures := 0), shape)
      case _ =>
        var failed := loaded.(failures := z.failures + 1);
        if z.points != [] && z.failures + 1 < MAX_FETCH_FAILURES then failed
        else WithMask(cfg, failed.(points := []), shape)
  }

  /** Motion needs a mask with pixels in it. */
  predicate HasMotion(cfg: Config, z: Zones, moving: nat) {
    && z.maskPixels.Some? && z.maskPixels.value > 0
    && moving as real / z.maskPixels.value as real >= cfg.motionFraction
  }

  // ----- the loop's variables -----

  /** A cut, with what held when it was made. Frames are numbered by successful reads. */
  datatype Clip = Clip(
    frames: seq<nat>, trigger: nat, at: real, manual: bool,
    pre: nat, post: nat, cooldown: real, zones: Zones)

  datatype State = State(
    rolling: seq<nat>, pre: nat, post: nat, lastTrigger: real, requested: bool,
    zones: Zones, count: nat, clips: seq<Clip>)

  /** How one read after a trigger goes. */
  datatype PostRead = Got | Broke | Interrupted

  /** `analysis` is None when the analysis was dropped or timed out. */
  datatype Analysis = Analysis(moving: nat, person: bool)

  datatype Input =
    | Pause
    | Reconnect
    | LoopFile
    | Request
    | Frame(now: real, clock: real, shape: nat, revision: int, fetch: Fetch,
            preSeconds: real, postSeconds: real, cooldown: real,
            analysis: Option<Analysis>, after: seq<PostRead>)

  function WindowFrames(seconds: real, fps: real): (n: nat)
    ensures n >= 1
  {
    var n := (seconds * fps).Floor;
    if n >= 1 then n else 1
  }

  /** The newest n entries, as a bounded deque keeps them. */
  function Newest(frames: seq<nat>, n: nat): seq<nat> {
    if |frames| <= n then frames else frames[|frames| - n..]
  }

  /** Reads collected after the trigger: until the window is full, the source breaks, or the
      loop is interrupted, which throws them away. */
  function PostFrames(after: seq<PostRead>, post: nat, next: nat): seq<nat> {
    if Interrupts(after, post) then [] else seq(PostReads(after, post), k requires k >= 0 => next + k)
  }

  predicate Interrupts(after: seq<PostRead>, post: nat) {
    post > 0 && after != [] && (after[0] == Interrupted || (after[0] == Got && Interrupts(after[1..], post - 1)))
  }

  /** How many reads succeed, kept or thrown away. */
  function PostReads(after: seq<PostRead>, post: nat): nat {
    if post == 0 then 0
    else if after == [] then post
    else if after[0] == Got then 1 + PostReads(after[1..], post - 1)
    else 0
  }

  /** The frame is buffered, the zones are refreshed, and the windows follow the settings. */
  function Read(cfg: Config, s: State, i: Input): State
    requires i.Frame?
  {
    var pre, post := WindowFrames(i.preSeconds, cfg.fps), WindowFrames(i.postSeconds, cfg.fps);
    s.(rolling := Newest(Newest(s.rolling + [s.count], s.pre), pre), pre := pre, post := post, requested := false,
       zones := Refreshed(cfg, s.zones, i.fetch, i.shape, i.revision, i.clock), count := s.count + 1)
  }

  /** A request always cuts; motion does when it is a person and the cooldown has passed. */
  predicate Decides(cfg: Config, read: State, i: Input, manual: bool)
    requires i.Frame?
  {
    manual || (i.analysis.Some? && HasMotion(cfg, read.zones, i.analysis.value.moving)
               && i.now - read.lastTrigger >= i.cooldown && i.analysis.value.person)
  }

  function CutNow(read: State, i: Input, manual: bool, trigger: nat): State
    requires i.Frame?
  {
    var frames := read.rolling + PostFrames(i.after, read.post, read.count);
    read.(rolling := [], lastTrigger := i.now, count := read.count + PostReads(i.after, read.post),
          clips := read.clips + [Clip(frames, trigger, i.now, manual, read.pre, read.post, i.cooldown, read.zones)])
  }

  function AfterFrame(cfg: Config, s: State, i: Input): State
    requires i.Frame?
  {
    var read := Read(cfg, s, i);
    if Decides(cfg, read, i, s.requested) then CutNow(read, i, s.requested, s.count) else read
  }

  function Next(cfg: Config, s: State, i: Input): State {
    match i
    case Pause => s.(rolling := [])
    case Reconnect => s.(rolling := [])
    case LoopFile => s
    case Request => s.(requested := true)
    case Frame(_, _, _, _, _, _, _, _, _, _) => AfterFrame(cfg, s, i)
  }

  function Run(cfg: Config, s: State, inputs: seq<Input>): State {
    if inputs == [] then s else Next(cfg, Run(cfg, s, inputs[..|inputs| - 1]), inputs[|inputs| - 1])
  }

  function Start(cfg: Config, preSeconds: real, postSeconds: real): State {
    State([], WindowFrames(preSeconds, cfg.fps), WindowFrames(postSeconds, cfg.fps), 0.0, false,
          Zones([], None, None, 0.0, -1, 0), 0, [])
  }

  // ----- what every run keeps -----

  predicate Consecutive(frames: seq<nat>, first: nat) {
    forall k :: 0 <= k < |frames| ==> frames[k] == first + k
  }

  /** An unbroken block of reads that holds the trigger, within the window of its time. */
  predicate ClipOk(c: Clip) {
    && c.frames != [] && Consecutive(c.frames, c.frames[0])
    && c.frames[0] <= c.trigger < c.frames[0] + |c.frames|
    && c.trigger < c.frames[0] + c.pre
    && |c.frames| <= c.pre + c.post
  }

  /** A motion cut was made under a mask with pixels, on zones of a recent enough fetch. */
  predicate ZonedOk(c: Clip) {
    !c.manual ==>
      c.zones.maskPixels.Some? && c.zones.maskPixels.value > 0 && c.zones.points != []
      && c.zones.failures < MAX_FETCH_FAILURES
  }

  ghost predicate ZonesOk(cfg: Config, z: Zones) {
    && (z.maskPixels.Some? ==> z.maskShape.Some? && z.maskPixels.value == Pixels(cfg, z.points, z.maskShape.value))
    && (z.failures >= MAX_FETCH_FAILURES ==> z.points == [])
  }

  /** The first frame number a later clip may use. */
  function Unused(s: State): int {
    s.count - |s.rolling|
  }

  ghost predicate Apart(clips: seq<Clip>, limit: int) {
    && (forall i, j :: 0 <= i < j < |clips| ==> End(clips[i]) <= Begin(clips[j]))
    && forall i :: 0 <= i < |clips| ==> End(clips[i]) <= limit
  }

  function Begin(c: Clip): int {
    if c.frames == [] then 0 else c.frames[0]
  }

  function End(c: Clip): int {
    if c.frames == [] then 0 else c.frames[0] + |c.frames|
  }

  ghost predicate Spaced(clips: seq<Clip>) {
    forall j :: 0 < j < |clips| && !clips[j].manual ==> clips[j].at - clips[j - 1].at >= clips[j].cooldown
  }

  ghost predicate Invariant(cfg: Config, s: State) {
    && |s.rolling| <= s.pre && s.pre >= 1 && Unused(s) >= 0 && Consecutive(s.rolling, Unused(s))
    && (forall i :: 0 <= i < |s.clips| ==> ClipOk(s.clips[i]) && ZonedOk(s.clips[i]))
    && Apart(s.clips, Unused(s)) && Spaced(s.clips)
    && (s.clips != [] ==> s.lastTrigger == s.clips[|s.clips| - 1].at)
    && ZonesOk(cfg, s.zones)
  }

  lemma {:induction false} PostReadsBound(after: seq<PostRead>, post: nat)
    ensures PostReads(after, post) <= post
  {
    if post > 0 && after != [] && after[0] == Got {
      PostReadsBound(after[1..], post - 1);
    }
  }

  lemma RefreshedOk(cfg: Config, z: Zones, fetch: Fetch, shape: nat, revision: int, now: real)
    requires ZonesOk(cfg, z)
    ensures ZonesOk(cfg, Refreshed(cfg, z, fetch, shape, revision, now))
  {
  }

  lemma NewestConsecutive(frames: seq<nat>, first: nat, n: nat)
    requires Consecutive(frames, first)
    ensures var kept := Newest(frames, n);
      |kept| <= n && |kept| <= |frames| && Consecutive(kept, first + |frames| - |kept|)
    ensures n >= 1 && frames != [] ==> Newest(frames, n) != []
  {
  }

  /** The rolling buffer after a read ends with that read, whatever the window becomes. */
  lemma RollingOk(s: State, pre: nat)
    requires |s.rolling| <= s.pre && s.pre >= 1 && pre >= 1 && Unused(s) >= 0 && Consecutive(s.rolling, Unused(s))
    ensures var rolling := Newest(Newest(s.rolling + [s.count], s.pre), pre);
      && 1 <= |rolling| <= pre && |rolling| <= |s.rolling| + 1
      && Consecutive(rolling, s.count + 1 - |rolling|)
  {
    var grown := s.rolling + [s.count];
    assert Consecutive(grown, Unused(s));
    NewestConsecutive(grown, Unused(s), s.pre);
    var kept := Newest(grown, s.pre);
    NewestConsecutive(kept, s.count + 1 - |kept|, pre);
  }

  predicate Cuts(cfg: Config, s: State, i: Input)
    requires i.Frame?
  {
    AfterFrame(cfg, s, i).clips != s.clips
  }

  lemma CutIsOk(cfg: Config, s: State, i: Input)
    requires Invariant(cfg, s) && i.Frame? && Cuts(cfg, s, i)
    ensures var t := AfterFrame(cfg, s, i);
      var c := t.clips[|s.clips|];
      && t.clips == s.clips + [c] && t.rolling == [] && t.pre >= 1
      && ClipOk(c) && ZonedOk(c) && c.at == i.now == t.lastTrigger
      && Unused(s) <= Begin(c) && End(c) <= t.count
      && (!c.manual ==> c.at - s.lastTrigger >= c.cooldown)
      && ZonesOk(cfg, t.zones)
  {
    var pre, post := WindowFrames(i.preSeconds, cfg.fps), WindowFrames(i.postSeconds, cfg.fps);
    RollingOk(s, pre);
    PostReadsBound(i.after, post);
    RefreshedOk(cfg, s.zones, i.fetch, i.shape, i.revision, i.clock);
  }

  lemma NoCutIsOk(cfg: Config, s: State, i: Input)
    requires Invariant(cfg, s) && i.Frame? && !Cuts(cfg, s, i)
    ensures Invariant(cfg, AfterFrame(cfg, s, i))
  {
    RollingOk(s, WindowFrames(i.preSeconds, cfg.fps));
    RefreshedOk(cfg, s.zones, i.fetch, i.shape, i.revision, i.clock);
  }

  lemma OneMoreClip(clips: seq<Clip>, limit: int, last: real, c: Clip, newLimit: int)
    requires Apart(clips, limit) && Spaced(clips)
    requires clips != [] ==> last == clips[|clips| - 1].at
    requires limit <= Begin(c) <= End(c) <= newLimit
    requires !c.manual ==> c.at - last >= c.cooldown
    ensures Apart(clips + [c], newLimit) && Spaced(clips + [c])
  {
  }

  lemma CutKeeps(cfg: Config, s: State, t: State, c: Clip)
    requires Invariant(cfg, s)
    requires t.clips == s.clips + [c] && t.rolling == [] && t.pre >= 1 && ZonesOk(cfg, t.zones)
    requires ClipOk(c) && ZonedOk(c) && c.at == t.lastTrigger
    requires Unused(s) <= Begin(c) && End(c) <= t.count
    requires !c.manual ==> c.at - s.lastTrigger >= c.cooldown
    ensures Invariant(cfg, t)
  {
    OneMoreClip(s.clips, Unused(s), s.lastTrigger, c, t.count);
  }

  lemma FrameKeeps(cfg: Config, s: State, i: Input)
    requires Invariant(cfg, s) && i.Frame?
    ensures Invariant(cfg, AfterFrame(cfg, s, i))
  {
    if Cuts(cfg, s, i) {
      CutIsOk(cfg, s, i);
      var t := AfterFrame(cfg, s, i);
      CutKeeps(cfg, s, t, t.clips[|s.clips|]);
    } else {
      NoCutIsOk(cfg, s, i);
    }
  }

  lemma NextKeeps(cfg: Config, s: State, i: Input)
    requires Invariant(cfg, s)
    ensures Invariant(cfg, Next(cfg, s, i))
  {
    if i.Frame? {
      FrameKeeps(cfg, s, i);
    }
  }

  /** Every run: whatever is read, dropped, resized, requested or fetched. */
  lemma {:induction false} RunKeeps(cfg: Config, s: State, inputs: seq<Input>)
    requires Invariant(cfg, s)
    ensures Invariant(cfg, Run(cfg, s, inputs))
  {
    if inputs != [] {
      RunKeeps(cfg, s, inputs[..|inputs| - 1]);
      NextKeeps(cfg, Run(cfg, s, inputs[..|inputs| - 1]), inputs[|inputs| - 1]);
    }
  }

  /** No two clips of a run share a frame. */
  lemma ClipsAreDisjoint(cfg: Config, preSeconds: real, postSeconds: real, inputs: seq<Input>, i: nat, j: nat, f: nat)
    requires var clips := Run(cfg, Start(cfg, preSeconds, postSeconds), inputs).clips;
      i < j < |clips| && f in clips[i].frames
    ensures f !in Run(cfg, Start(cfg, preSeconds, postSeconds), inputs).clips[j].frames
  {
    RunKeeps(cfg, Start(cfg, preSeconds, postSeconds), inputs);
    var clips := Run(cfg, Start(cfg, preSeconds, postSeconds), inputs).clips;
    assert ClipOk(clips[i]) && ClipOk(clips[j]);
    assert End(clips[i]) <= Begin(clips[j]);
  }

  predicate NoFrames(inputs: seq<Input>) {
    forall k :: 0 <= k < |inputs| ==> !inputs[k].Frame?
  }

  /** A request waits through pauses and reconnects, and the next frame read is cut for it. */
  lemma {:induction false} RequestIsHonoured(cfg: Config, s: State, between: seq<Input>, i: Input)
    requires Invariant(cfg, s) && s.requested && NoFrames(between) && i.Frame?
    ensures var t := Run(cfg, s, between + [i]);
      && |t.clips| == |s.clips| + 1 && !t.requested
      && var c := t.clips[|s.clips|]; c.manual && c.trigger == s.count && c.trigger in c.frames
  {
    Waits(cfg, s, between);
    RunKeeps(cfg, s, between);
    assert (between + [i])[..|between|] == between;
    var mid := Run(cfg, s, between);
    CutIsOk(cfg, mid, i);
    var c := AfterFrame(cfg, mid, i).clips[|s.clips|];
    assert c.frames[c.trigger - c.frames[0]] == c.trigger;
  }

  lemma {:induction false} Waits(cfg: Config, s: State, between: seq<Input>)
    requires s.requested && NoFrames(between)
    ensures var t := Run(cfg, s, between); t.requested && t.clips == s.clips && t.count == s.count
  {
    if between != [] {
      Waits(cfg, s, between[..|between| - 1]);
    }
  }

  // ----- failing fetches -----

  predicate StepAt(cfg: Config, states: seq<State>, inputs: seq<Input>, k: nat)
    requires |states| == |inputs| + 1
  {
    k < |inputs| ==> states[k + 1] == Next(cfg, states[k], inputs[k])
  }

  /** The states a run goes through. */
  ghost predicate IsTrace(cfg: Config, states: seq<State>, inputs: seq<Input>) {
    |states| == |inputs| + 1 && forall k: nat :: StepAt(cfg, states, inputs, k)
  }

  lemma {:induction false} TraceIsRun(cfg: Config, states: seq<State>, inputs: seq<Input>, k: nat)
    requires IsTrace(cfg, states, inputs) && k <= |inputs|
    ensures states[k] == Run(cfg, states[0], inputs[..k])
  {
    if k > 0 {
      TraceIsRun(cfg, states, inputs, k - 1);
      assert StepAt(cfg, states, inputs, k - 1);
      assert inputs[..k][..k - 1] == inputs[..k - 1];
    }
  }

  lemma {:induction false} TraceExists(cfg: Config, s: State, inputs: seq<Input>) returns (states: seq<State>)
    ensures IsTrace(cfg, states, inputs) && states[0] == s && states[|inputs|] == Run(cfg, s, inputs)
  {
    if inputs == [] {
      states := [s];
    } else {
      var n := |inputs| - 1;
      var before := TraceExists(cfg, s, inputs[..n]);
      states := before + [Next(cfg, before[n], inputs[n])];
      forall k: nat ensures StepAt(cfg, states, inputs, k) {
        assert StepAt(cfg, before, inputs[..n], k);
      }
    }
  }

  lemma TraceKeeps(cfg: Config, states: seq<State>, inputs: seq<Input>, k: nat)
    requires IsTrace(cfg, states, inputs) && Invariant(cfg, states[0]) && k <= |inputs|
    ensures Invariant(cfg, states[k])
  {
    TraceIsRun(cfg, states, inputs, k);
    RunKeeps(cfg, states[0], inputs[..k]);
  }

  /** This frame asks for the zones; in between they are fresh enough. */
  predicate Fetches(s: State, i: Input) {
    i.Frame? && !i.fetch.NoProvider? && !StillFresh(s.zones, i.shape, i.revision, i.clock)
  }

  predicate FailsAt(states: seq<State>, inputs: seq<Input>, k: nat)
    requires |states| == |inputs| + 1
  {
    k < |inputs| && Fetches(states[k], inputs[k]) && inputs[k].fetch.FetchFailed?
  }

  predicate SucceedsAt(states: seq<State>, inputs: seq<Input>, k: nat)
    requires |states| == |inputs| + 1
  {
    k < |inputs| && Fetches(states[k], inputs[k]) && inputs[k].fetch.Fetched?
  }

  ghost predicate NoneSucceeds(states: seq<State>, inputs: seq<Input>, from: nat)
    requires |states| == |inputs| + 1
  {
    forall k: nat :: from <= k < |inputs| ==> !SucceedsAt(states, inputs, k)
  }

  /** One input and the count of failures. */
  lemma FailuresNext(cfg: Config, s: State, i: Input)
    requires !(Fetches(s, i) && i.fetch.Fetched?)
    ensures Next(cfg, s, i).zones.failures == s.zones.failures + if Fetches(s, i) then 1 else 0
  {
  }

  lemma {:induction false} FailuresGrow(cfg: Config, states: seq<State>, inputs: seq<Input>, from: nat, n: nat)
    requires IsTrace(cfg, states, inputs) && from <= n <= |inputs| && NoneSucceeds(states, inputs, from)
    ensures states[from].zones.failures <= states[n].zones.failures
    ensures from < n && FailsAt(states, inputs, from) ==> states[from].zones.failures < states[n].zones.failures
    decreases n - from
  {
    if from < n {
      assert StepAt(cfg, states, inputs, from) && !SucceedsAt(states, inputs, from);
      FailuresNext(cfg, states[from], inputs[from]);
      FailuresGrow(cfg, states, inputs, from + 1, n);
    }
  }

  predicate OnlyManual(clips: seq<Clip>) {
    forall k :: 0 <= k < |clips| ==> clips[k].manual
  }

  /** The clips are the same, or one manual clip more. */
  predicate ManualAtMost(before: seq<Clip>, after: seq<Clip>) {
    after == before || (|after| == |before| + 1 && after[..|before|] == before && after[|before|].manual)
  }

  lemma StaysClosed(cfg: Config, s: State, i: Input)
    requires Invariant(cfg, s) && i.Frame? && Read(cfg, s, i).zones.failures >= MAX_FETCH_FAILURES
    ensures ManualAtMost(s.clips, AfterFrame(cfg, s, i).clips)
  {
    if Cuts(cfg, s, i) {
      CutIsOk(cfg, s, i);
    }
  }

  lemma StillOnlyManual(before: seq<Clip>, after: seq<Clip>, n: nat)
    requires n <= |before| && OnlyManual(before[n..]) && ManualAtMost(before, after)
    ensures n <= |after| && OnlyManual(after[n..])
  {
    if after != before {
      assert after == before + [after[|before|]];
      assert after[n..] == before[n..] + [after[|before|]];
    }
  }

  predicate ManualSince(s: State, n: nat) {
    n <= |s.clips| && OnlyManual(s.clips[n..])
  }

  lemma ClosedNext(cfg: Config, s: State, i: Input, n: nat)
    requires Invariant(cfg, s) && ManualSince(s, n)
    requires i.Frame? ==> Next(cfg, s, i).zones.failures >= MAX_FETCH_FAILURES
    ensures ManualSince(Next(cfg, s, i), n)
  {
    if i.Frame? {
      StaysClosed(cfg, s, i);
      StillOnlyManual(s.clips, AfterFrame(cfg, s, i).clips, n);
    }
  }

  lemma {:induction false} StaysManual(cfg: Config, states: seq<State>, inputs: seq<Input>, from: nat, n: nat)
    requires IsTrace(cfg, states, inputs) && Invariant(cfg, states[0]) && from <= n <= |inputs|
    requires forall k :: from < k <= n ==> states[k].zones.failures >= MAX_FETCH_FAILURES
    ensures ManualSince(states[n], |states[from].clips|)
    decreases n
  {
    if from < n {
      StaysManual(cfg, states, inputs, from, n - 1);
      TraceKeeps(cfg, states, inputs, n - 1);
      assert StepAt(cfg, states, inputs, n - 1);
      ClosedNext(cfg, states[n - 1], inputs[n - 1], |states[from].clips|);
    }
  }

  lemma ThreeFailures(cfg: Config, states: seq<State>, inputs: seq<Input>, first: nat, second: nat, third: nat, n: nat)
    requires IsTrace(cfg, states, inputs) && first < second < third < n <= |inputs|
      && NoneSucceeds(states, inputs, first)
    requires FailsAt(states, inputs, first) && FailsAt(states, inputs, second) && FailsAt(states, inputs, third)
    ensures states[n].zones.failures >= MAX_FETCH_FAILURES
  {
    FailuresGrow(cfg, states, inputs, first, second);
    FailuresGrow(cfg, states, inputs, second, third);
    FailuresGrow(cfg, states, inputs, third, n);
  }

  /** In any run, once three fetches failed with none succeeding in between, every later cut is a
      requested one, from the very frame of the third on, until a fetch succeeds. */
  lemma FailsClosed(cfg: Config, states: seq<State>, inputs: seq<Input>, first: nat, second: nat, third: nat)
    requires IsTrace(cfg, states, inputs) && Invariant(cfg, states[0])
    requires first < second < third && NoneSucceeds(states, inputs, first)
    requires FailsAt(states, inputs, first) && FailsAt(states, inputs, second) && FailsAt(states, inputs, third)
    ensures ManualSince(states[|inputs|], |states[third].clips|)
  {
    forall k | third < k <= |inputs| ensures states[k].zones.failures >= MAX_FETCH_FAILURES {
      ThreeFailures(cfg, states, inputs, first, second, third, k);
    }
    StaysManual(cfg, states, inputs, third, |inputs|);
  }

  // ----- which zones are in force -----

  function FailuresSince(states: seq<State>, inputs: seq<Input>, from: nat, n: nat): nat
    requires |states| == |inputs| + 1 && from <= n
  {
    if from == n then 0
    else FailuresSince(states, inputs, from, n - 1) + if FailsAt(states, inputs, n - 1) then 1 else 0
  }

  predicate HasProvider(i: Input) {
    i.Frame? ==> !i.fetch.NoProvider?
  }

  /** What `failures` failed fetches leave of the polygons of the last successful one. */
  predicate InForce(z: Zones, fetched: seq<Polygon>, failures: nat) {
    && z.failures == failures
    && z.points == if failures < MAX_FETCH_FAILURES then UsableZones(fetched) else []
  }

  lemma InForceNext(cfg: Config, s: State, i: Input, fetched: seq<Polygon>, failures: nat)
    requires InForce(s.zones, fetched, failures) && HasProvider(i) && !(Fetches(s, i) && i.fetch.Fetched?)
    ensures InForce(Next(cfg, s, i).zones, fetched, failures + if Fetches(s, i) then 1 else 0)
  {
  }

  lemma InForceFirst(cfg: Config, s: State, i: Input)
    requires Fetches(s, i) && i.fetch.Fetched?
    ensures InForce(Next(cfg, s, i).zones, i.fetch.zones, 0)
  {
  }

  lemma {:induction false} InForceUntil(cfg: Config, states: seq<State>, inputs: seq<Input>, last: nat, n: nat)
    requires IsTrace(cfg, states, inputs) && last < n <= |inputs|
    requires SucceedsAt(states, inputs, last) && NoneSucceeds(states, inputs, last + 1)
    requires forall k :: last < k < |inputs| ==> HasProvider(inputs[k])
    ensures InForce(states[n].zones, inputs[last].fetch.zones, FailuresSince(states, inputs, last + 1, n))
    decreases n
  {
    assert StepAt(cfg, states, inputs, n - 1);
    if n == last + 1 {
      InForceFirst(cfg, states[last], inputs[last]);
    } else {
      InForceUntil(cfg, states, inputs, last, n - 1);
      assert !SucceedsAt(states, inputs, n - 1);
      InForceNext(cfg, states[n - 1], inputs[n - 1], inputs[last].fetch.zones,
                  FailuresSince(states, inputs, last + 1, n - 1));
    }
  }

  /** At any time of a run the zones are those of the last successful fetch if fewer than three
      fetches failed since, and none otherwise. */
  lemma ZonesInForce(cfg: Config, states: seq<State>, inputs: seq<Input>, last: nat)
    requires IsTrace(cfg, states, inputs)
    requires SucceedsAt(states, inputs, last) && NoneSucceeds(states, inputs, last + 1)
    requires forall k :: last < k < |inputs| ==> HasProvider(inputs[k])
    ensures states[|inputs|].zones.points
      == if FailuresSince(states, inputs, last + 1, |inputs|) < 3 then UsableZones(inputs[last].fetch.zones) else []
  {
    InForceUntil(cfg, states, inputs, last, |inputs|);
  }
}
