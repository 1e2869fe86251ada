/** The steps of a clip are its detections, each once and in order (cloud-ai/app/events.py). */
module EventViews {
  import opened Detections
  import opened Zones
  import opened EventCues
  import opened EventMeaning

  /** Every detection has its step. */
  lemma {:induction false} DetectionHasStep(frames: seq<Frame>, zones: seq<Zone>, i: nat, k: nat) returns (p: nat)
    requires i < |frames| && k < |frames[i]|
    ensures var steps := StepsOf(frames, zones); p < |steps| && steps[p] == See(ViewOf(i, frames[i], k, zones))
  {
    var n := |frames| - 1;
    if i < n {
      p := DetectionHasStep(frames[..n], zones, i, k);
    } else {
      FrameStepsAreViews(n, frames[n], zones, |frames[n]|);
      p := |StepsOf(frames[..n], zones)| + k;
    }
  }

  /** Every sighting among the steps is of a detection. */
  lemma {:induction false} StepHasDetection(frames: seq<Frame>, zones: seq<Zone>, p: nat) returns (i: nat, k: nat)
    requires p < |StepsOf(frames, zones)| && StepsOf(frames, zones)[p].See?
    ensures i < |frames| && k < |frames[i]| && StepsOf(frames, zones)[p] == See(ViewOf(i, frames[i], k, zones))
  {
    var n := |frames| - 1;
    var before := StepsOf(frames[..n], zones);
    if p < |before| {
      i, k := StepHasDetection(frames[..n], zones, p);
    } else {
      i, k := n, p - |before|;
      FrameStepsAreViews(n, frames[n], zones, |frames[n]|);
    }
  }

  // ----- counting -----

  function CountIn(dets: Frame, cue: Cue): nat {
    if dets == [] then 0 else CountIn(dets[..|dets| - 1], cue) + if dets[|dets| - 1].cue == cue then 1 else 0
  }

  function Total(frames: seq<Frame>, cue: Cue): nat {
    if frames == [] then 0 else Total(frames[..|frames| - 1], cue) + CountIn(frames[|frames| - 1], cue)
  }

  lemma CountSnoc(dets: Frame, d: Detection, cue: Cue)
    ensures CountIn(dets + [d], cue) == CountIn(dets, cue) + if d.cue == cue then 1 else 0
  {
    assert (dets + [d])[..|dets|] == dets;
  }

  lemma TotalSnoc(frames: seq<Frame>, dets: Frame, cue: Cue)
    ensures Total(frames + [dets], cue) == Total(frames, cue) + CountIn(dets, cue)
  {
    assert (frames + [dets])[..|frames|] == frames;
  }

  lemma {:induction false} FrameCount(
    before: seq<Step>, steps: seq<Step>, idx: nat, dets: Frame, zones: seq<Zone>, cue: Cue)
    requires AreViews(steps, idx, dets, zones)
    ensures |Sightings(before + steps, cue)| == |Sightings(before, cue)| + CountIn(dets[..|steps|], cue)
  {
    if steps == [] {
      assert before + steps == before;
    } else {
      var n := |steps| - 1;
      FrameCount(before, steps[..n], idx, dets, zones, cue);
      SightingsSnoc(before + steps[..n], steps[n], cue);
      JoinNext(before, steps);
      assert dets[..|steps|][..n] == dets[..n];
    }
  }

  /** As many sightings of a cue as detections of it. */
  lemma {:induction false} SightingsAreDetections(frames: seq<Frame>, zones: seq<Zone>, cue: Cue)
    ensures |Sightings(StepsOf(frames, zones), cue)| == Total(frames, cue)
  {
    if frames == [] {
      assert Sightings(StepsOf(frames, zones), cue) == {};
    } else {
      var n := |frames| - 1;
      var before := StepsOf(frames[..n], zones);
      SightingsAreDetections(frames[..n], zones, cue);
      var steps := FrameSteps(n, frames[n], zones, |frames[n]|);
      FrameStepsAreViews(n, frames[n], zones, |frames[n]|);
      FrameCount(before, steps, n, frames[n], zones, cue);
      assert frames[n][..|frames[n]|] == frames[n];
      SightingsSnoc(before + steps, EndOfFrame, cue);
    }
  }
}
