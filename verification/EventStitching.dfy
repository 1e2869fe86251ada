/** Stitching person tracks never changes the evidence that comes from cues
    (cloud-ai/app/track_merge.py, cloud-ai/app/events.py). */
module EventStitching {
  import opened Wrappers
  import opened Detections
  import opened Zones
  import opened EventTypes
  import opened EventCues
  import opened EventTimelines
  import opened EventExtraction
  import opened EventTheorems
  import TrackMerge
  import TrackMergeApply

  // ----- everything but who it was -----

  function BlurView(v: View): View {
    v.(track := 0, near := 0)
  }

  function Blur(step: Step): Step {
    match step
    case See(v) => See(BlurView(v))
    case EndOfFrame => EndOfFrame
  }

  /** The same steps but for the tracks they are attributed to. */
  ghost predicate SameSteps(a: seq<Step>, b: seq<Step>) {
    |a| == |b| && forall i :: 0 <= i < |a| ==> Blur(a[i]) == Blur(b[i])
  }

  /** The accumulators without tracks, timelines and embeddings. */
  function Untracked(s: Scan): Scan {
    var c := s.cues;
    Scan(Cues([], [], c.openBag.(track := 0), c.bag.(track := 0), c.handling.(track := 0),
              c.conceal.(track := 0), c.highValue.(track := 0), c.group.(track := 0)),
         s.frame.(shelfTrack := 0))
  }

  /** Who it was does not flow into anything else. */
  lemma Anonymously(s: Scan, v: View)
    ensures Untracked(Observe(s, v)) == Untracked(Observe(Untracked(s), BlurView(v)))
  {
    match v.cue
    case Person => AnonymousPerson(s, v);
    case OpenBag =>
    case PlainBag =>
    case ProductInHand =>
    case Hiding =>
    case OtherCue(_) =>
  }

  lemma AnonymousPerson(s: Scan, v: View)
    ensures Untracked(SeePerson(s, v)) == Untracked(SeePerson(Untracked(s), BlurView(v)))
  {
  }

  lemma SameObservation(s: Scan, t: Scan, v: View, w: View)
    requires Untracked(s) == Untracked(t) && BlurView(v) == BlurView(w)
    ensures Untracked(Observe(s, v)) == Untracked(Observe(t, w))
  {
    Anonymously(s, v);
    Anonymously(t, w);
  }

  lemma SameAdvance(s: Scan, t: Scan, a: Step, b: Step)
    requires Untracked(s) == Untracked(t) && Blur(a) == Blur(b)
    ensures Untracked(Advance(s, a)) == Untracked(Advance(t, b))
  {
    if a.See? {
      SameObservation(s, t, a.view, b.view);
    }
  }

  lemma {:induction false} SameFold(a: seq<Step>, b: seq<Step>)
    requires SameSteps(a, b)
    ensures Untracked(Fold(a)) == Untracked(Fold(b))
  {
    if a != [] {
      var n := |a| - 1;
      SameFold(a[..n], b[..n]);
      SameAdvance(Fold(a[..n]), Fold(b[..n]), a[n], b[n]);
    }
  }

  lemma SameEntry(a: seq<Step>, b: seq<Step>)
    requires SameSteps(a, b)
    ensures Enters(a) <==> Enters(b)
  {
    forall p: nat | p < |a| ensures EntersAt(a, p) == EntersAt(b, p) {
      assert Blur(a[p]) == Blur(b[p]);
    }
  }

  // ----- clips that differ in track ids only -----

  ghost predicate SameFrame(a: Frame, b: Frame) {
    |a| == |b| && forall k :: 0 <= k < |a| ==> a[k].(trackId := 0) == b[k].(trackId := 0)
  }

  ghost predicate SameClip(a: seq<Frame>, b: seq<Frame>) {
    |a| == |b| && forall i :: 0 <= i < |a| ==> SameFrame(a[i], b[i])
  }

  lemma SameView(idx: nat, a: Frame, b: Frame, zones: seq<Zone>, k: nat)
    requires SameFrame(a, b) && k < |a|
    ensures Blur(See(ViewOf(idx, a, k, zones))) == Blur(See(ViewOf(idx, b, k, zones)))
  {
    assert a[k].(trackId := 0) == b[k].(trackId := 0);
  }

  lemma SameSnoc(a: seq<Step>, b: seq<Step>, s: Step, t: Step)
    requires SameSteps(a, b) && Blur(s) == Blur(t)
    ensures SameSteps(a + [s], b + [t])
  {
  }

  lemma SameConcat(a: seq<Step>, b: seq<Step>, c: seq<Step>, d: seq<Step>)
    requires SameSteps(a, b) && SameSteps(c, d)
    ensures SameSteps(a + c, b + d)
  {
  }

  lemma SameFrameSteps(idx: nat, a: Frame, b: Frame, zones: seq<Zone>)
    requires SameFrame(a, b)
    ensures SameSteps(FrameSteps(idx, a, zones, |a|), FrameSteps(idx, b, zones, |b|))
  {
    FrameStepsAreViews(idx, a, zones, |a|);
    FrameStepsAreViews(idx, b, zones, |b|);
    forall k: nat | k < |a|
      ensures Blur(See(ViewOf(idx, a, k, zones))) == Blur(See(ViewOf(idx, b, k, zones)))
    {
      SameView(idx, a, b, zones, k);
    }
  }

  lemma {:induction false} SameClipSteps(a: seq<Frame>, b: seq<Frame>, zones: seq<Zone>)
    requires SameClip(a, b)
    ensures SameSteps(StepsOf(a, zones), StepsOf(b, zones))
  {
    if a != [] {
      var n := |a| - 1;
      SameClipSteps(a[..n], b[..n], zones);
      SameFrameSteps(n, a[n], b[n], zones);
      var s, t := FrameSteps(n, a[n], zones, |a[n]|), FrameSteps(n, b[n], zones, |b[n]|);
      SameConcat(StepsOf(a[..n], zones), StepsOf(b[..n], zones), s, t);
      SameSnoc(StepsOf(a[..n], zones) + s, StepsOf(b[..n], zones) + t, EndOfFrame, EndOfFrame);
    }
  }

  // ----- the evidence -----

  /** Evidence that no track attribution feeds, up to the track it names. */
  function Anonymous(e: Option<AiEvent>): Option<AiEvent> {
    if e.Some? then Some(e.value.(trackId := 0, embedding := [])) else None
  }

  predicate FromCues(t: AiEventType) {
    t == Concealment || t == GroupDistraction || t == HighValueActivity || t == LowStaffRemoval || t == BagOpen
  }

  lemma SameEvidence(s: Scan, t: Scan, a: Across, b: Across, eventType: AiEventType)
    requires Untracked(s) == Untracked(t)
    requires FromCues(eventType) || (eventType == RepeatedHandling && s.cues.handling.episodes > 0)
    ensures Anonymous(Evidence(s.cues, a, eventType)) == Anonymous(Evidence(t.cues, b, eventType))
  {
    assert SameFields(s, t);
  }

  predicate SameFields(s: Scan, t: Scan) {
    var c, d := s.cues, t.cues;
    && c.openBag.(track := 0) == d.openBag.(track := 0)
    && c.bag.(track := 0) == d.bag.(track := 0)
    && c.handling.(track := 0) == d.handling.(track := 0)
    && c.conceal.(track := 0) == d.conceal.(track := 0)
    && c.highValue.(track := 0) == d.highValue.(track := 0)
    && c.group.(track := 0) == d.group.(track := 0)
  }

  /** Zone, value and confidence of every event that comes from cues agree, and so does
      whether, and how strongly, a high-value entry is reported. */
  ghost predicate CueEvidenceAgrees(fps: real, a: seq<Frame>, b: seq<Frame>, zones: seq<Zone>, t: AiEventType) {
    var c, d := CuesOf(a, zones), CuesOf(b, zones);
    var e, f := Evidence(c, SignalsOf(fps, a, zones), t), Evidence(d, SignalsOf(fps, b, zones), t);
    && c.handling.episodes == d.handling.episodes
    && (FromCues(t) || (t == RepeatedHandling && c.handling.episodes > 0) ==> Anonymous(e) == Anonymous(f))
    && (t == HighValueZoneEntry ==> e.Some? == f.Some?)
    && (t == HighValueZoneEntry && e.Some? ==>
          e.value.value == f.value.value && e.value.confidence == f.value.confidence)
  }

  /** Whatever ids two clips give their tracks. */
  lemma TrackIdsDoNotMatter(fps: real, a: seq<Frame>, b: seq<Frame>, zones: seq<Zone>, t: AiEventType)
    requires SameClip(a, b)
    ensures CueEvidenceAgrees(fps, a, b, zones, t)
  {
    var s, r := StepsOf(a, zones), StepsOf(b, zones);
    SameClipSteps(a, b, zones);
    SameFold(s, r);
    assert SameFields(Fold(s), Fold(r));
    if FromCues(t) || (t == RepeatedHandling && Fold(s).cues.handling.episodes > 0) {
      SameEvidence(Fold(s), Fold(r), SignalsOf(fps, a, zones), SignalsOf(fps, b, zones), t);
    }
    if t == HighValueZoneEntry {
      SameEntry(s, r);
      HighValueEntryExactly(fps, a, zones);
      HighValueEntryExactly(fps, b, zones);
    }
  }

  lemma MergedIsSameClip(frames: seq<Frame>, remap: map<nat, nat>)
    ensures SameClip(frames, TrackMergeApply.Merged(frames, remap))
  {
  }

  /** A clip and the same clip stitched. */
  lemma StitchingKeepsCueEvidence(
    fps: real, frames: seq<Frame>, params: TrackMerge.Params, zones: seq<Zone>, t: AiEventType)
    ensures var remap := TrackMerge.RemapOf(TrackMerge.FramesClip(frames, params));
      CueEvidenceAgrees(fps, frames, TrackMergeApply.Merged(frames, remap), zones, t)
  {
    var remap := TrackMerge.RemapOf(TrackMerge.FramesClip(frames, params));
    MergedIsSameClip(frames, remap);
    TrackIdsDoNotMatter(fps, frames, TrackMergeApply.Merged(frames, remap), zones, t);
  }
}
