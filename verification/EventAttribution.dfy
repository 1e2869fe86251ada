/** Whom an event names: always a person of the clip or nobody, never the track of a bag or of
    any other cue (cloud-ai/app/events.py). */
module EventAttribution {
  import opened Detections
  import opened Zones
  import opened EventTypes
  import opened EventCues
  import opened EventTimelines
  import opened EventExtraction

  /** The ids an event may carry. */
  type Allowed = int -> bool

  /** Both the person a view is attributed to and, for a person, its own track are allowed. */
  predicate ViewNames(v: View, ok: Allowed) {
    ok(v.near) && (v.cue == Person ==> ok(v.track))
  }

  predicate StepNames(step: Step, ok: Allowed) {
    step.See? ==> ViewNames(step.view, ok)
  }

  predicate TracksName(tracks: seq<Timeline>, ok: Allowed) {
    forall i :: 0 <= i < |tracks| ==> ok(tracks[i].track)
  }

  predicate CuesName(c: Cues, ok: Allowed) {
    && ok(c.openBag.track) && ok(c.bag.track) && ok(c.handling.track) && ok(c.conceal.track)
    && ok(c.highValue.track) && ok(c.group.track) && TracksName(c.tracks, ok)
  }

  predicate ScanNames(s: Scan, ok: Allowed) {
    CuesName(s.cues, ok) && ok(s.frame.shelfTrack)
  }

  lemma {:induction false} AppendNames(tracks: seq<Timeline>, track: int, v: Visit, ok: Allowed)
    requires TracksName(tracks, ok) && ok(track)
    ensures TracksName(Append(tracks, track, v), ok)
  {
    if tracks != [] && tracks[0].track != track {
      AppendNames(tracks[1..], track, v, ok);
    }
  }

  lemma AdvanceNames(s: Scan, step: Step, ok: Allowed)
    requires ok(0) && ScanNames(s, ok) && StepNames(step, ok)
    ensures ScanNames(Advance(s, step), ok)
  {
    if step.See? && step.view.cue == Person {
      AppendNames(s.cues.tracks, step.view.track, Visit(step.view.idx, step.view.zones), ok);
    }
  }

  lemma {:induction false} FoldNames(steps: seq<Step>, ok: Allowed)
    requires ok(0) && forall i :: 0 <= i < |steps| ==> StepNames(steps[i], ok)
    ensures ScanNames(Fold(steps), ok)
  {
    if steps != [] {
      FoldNames(steps[..|steps| - 1], ok);
      AdvanceNames(Fold(steps[..|steps| - 1]), steps[|steps| - 1], ok);
    }
  }

  // ----- the second pass -----

  predicate CarriedNames(c: Carried, ok: Allowed) {
    ok(c.highValueTrack) && ok(c.reentryTrack)
  }

  predicate AcrossNames(a: Across, ok: Allowed) {
    CarriedNames(a.carried, ok) && ok(a.dwellTrack) && ok(a.exitTrack) && ok(a.blindTrack)
  }

  lemma {:induction false} CarryNames(c: Carried, track: int, visits: seq<Visit>, ok: Allowed)
    requires CarriedNames(c, ok) && ok(track)
    ensures CarriedNames(CarryAll(c, track, visits), ok)
  {
    if visits != [] {
      CarryNames(c, track, visits[..|visits| - 1], ok);
    }
  }

  lemma AddTrackNames(a: Across, fps: real, tl: Timeline, ok: Allowed)
    requires AcrossNames(a, ok) && ok(tl.track)
    ensures AcrossNames(AddTrack(a, fps, tl), ok)
  {
    CarryNames(a.carried, tl.track, tl.visits, ok);
  }

  lemma {:induction false} AcrossOfNames(fps: real, tracks: seq<Timeline>, ok: Allowed)
    requires ok(0) && TracksName(tracks, ok)
    ensures AcrossNames(AcrossOf(fps, tracks), ok)
  {
    if tracks != [] {
      AcrossOfNames(fps, tracks[..|tracks| - 1], ok);
      AddTrackNames(AcrossOf(fps, tracks[..|tracks| - 1]), fps, tracks[|tracks| - 1], ok);
    }
  }

  // ----- the events -----

  lemma {:induction false} FirstShelfTrackNames(tracks: seq<Timeline>, ok: Allowed)
    requires ok(0) && TracksName(tracks, ok)
    ensures ok(FirstShelfTrack(tracks))
  {
    if tracks != [] && Visited(tracks[0].visits) * SHELF_LIKE == {} {
      FirstShelfTrackNames(tracks[1..], ok);
    }
  }

  lemma EvidenceNames(c: Cues, a: Across, t: AiEventType, ok: Allowed)
    requires ok(0) && CuesName(c, ok) && AcrossNames(a, ok)
    ensures Evidence(c, a, t).Some? ==> ok(Evidence(c, a, t).value.trackId)
  {
    FirstShelfTrackNames(c.tracks, ok);
  }

  // ----- the persons of a clip -----

  predicate PersonOf(frames: seq<Frame>, id: int) {
    exists i, k :: 0 <= i < |frames| && 0 <= k < |frames[i]| && frames[i][k].cue == Person && frames[i][k].trackId == id
  }

  function Known(frames: seq<Frame>): Allowed {
    id => id == 0 || PersonOf(frames, id)
  }

  lemma ViewOfNames(frames: seq<Frame>, i: nat, zones: seq<Zone>, k: nat)
    requires i < |frames| && k < |frames[i]|
    ensures ViewNames(ViewOf(i, frames[i], k, zones), Known(frames))
  {
    var dets := frames[i];
    var dist := DistanceFrom(dets[k].at);
    if j: nat :| IsNearest(dist, dets, j) {
      NearestMeaning(dist, dets, j);
      assert frames[i][j].cue == Person;
    } else {
      assert NearestBy(dist, dets) == 0;
    }
    assert frames[i][k].cue == Person ==> PersonOf(frames, frames[i][k].trackId);
  }

  ghost predicate StepsName(steps: seq<Step>, ok: Allowed) {
    forall i :: 0 <= i < |steps| ==> StepNames(steps[i], ok)
  }

  lemma FrameStepsName(frames: seq<Frame>, i: nat, zones: seq<Zone>)
    requires i < |frames|
    ensures StepsName(FrameSteps(i, frames[i], zones, |frames[i]|), Known(frames))
  {
    FrameStepsAreViews(i, frames[i], zones, |frames[i]|);
    forall k: nat | k < |frames[i]| ensures ViewNames(ViewOf(i, frames[i], k, zones), Known(frames)) {
      ViewOfNames(frames, i, zones, k);
    }
  }

  lemma {:induction false} PrefixStepsName(frames: seq<Frame>, zones: seq<Zone>, n: nat)
    requires n <= |frames|
    ensures StepsName(StepsOf(frames[..n], zones), Known(frames))
  {
    if n > 0 {
      PrefixStepsName(frames, zones, n - 1);
      assert frames[..n][..n - 1] == frames[..n - 1];
      FrameStepsName(frames, n - 1, zones);
    }
  }

  /** Every event of every clip. */
  lemma EventsNamePersons(fps: real, frames: seq<Frame>, zones: seq<Zone>, e: AiEvent)
    requires e in EventsOf(fps, frames, zones)
    ensures e.trackId == 0 || PersonOf(frames, e.trackId)
  {
    var c, ok := CuesOf(frames, zones), Known(frames);
    PrefixStepsName(frames, zones, |frames|);
    assert frames[..|frames|] == frames;
    FoldNames(StepsOf(frames, zones), ok);
    AcrossOfNames(fps, c.tracks, ok);
    EventsExactly(fps, frames, zones, e);
    EvidenceNames(c, AcrossOf(fps, c.tracks), e.eventType, ok);
  }

  // ----- nearness -----

  /** How far apart two points are, squared. */
  function Apart(p: Point, q: Point): real {
    (q.x - p.x) * (q.x - p.x) + (q.y - p.y) * (q.y - p.y)
  }

  lemma ApartIsSquaredDistance(p: Point, q: Point)
    ensures SquaredDistance(p, q) == Apart(p, q)
  {
    assert (p.x - q.x) * (p.x - q.x) == (q.x - p.x) * (q.x - p.x);
    assert (p.y - q.y) * (p.y - q.y) == (q.y - p.y) * (q.y - p.y);
  }

  predicate HasId(d: Detection) {
    d.cue == Person && d.trackId >= 0
  }

  /** A cue is put down to the person with an id who is least far away, the first on a tie, and to
      nobody where there is none. */
  lemma NearestExactly(at: Point, dets: Frame, k: nat)
    requires k < |dets| && HasId(dets[k])
    requires forall j :: 0 <= j < |dets| && HasId(dets[j]) ==>
      Apart(at, dets[k].at) <= Apart(at, dets[j].at) && (j < k ==> Apart(at, dets[k].at) < Apart(at, dets[j].at))
    ensures Nearest(at, dets) == dets[k].trackId
  {
    forall j | 0 <= j < |dets| ensures DistanceFrom(at)(dets[j].at) == Apart(at, dets[j].at) {
      ApartIsSquaredDistance(dets[j].at, at);
      ApartIsSymmetric(dets[j].at, at);
    }
    assert IsNearest(DistanceFrom(at), dets, k);
    NearestMeaning(DistanceFrom(at), dets, k);
  }

  lemma ApartIsSymmetric(p: Point, q: Point)
    ensures Apart(p, q) == Apart(q, p)
  {
    ApartIsSquaredDistance(p, q);
  }

  lemma NobodyNear(at: Point, dets: Frame)
    requires forall j :: 0 <= j < |dets| ==> !HasId(dets[j])
    ensures Nearest(at, dets) == 0
  {
    NearestMeaning(DistanceFrom(at), dets, 0);
  }
}
