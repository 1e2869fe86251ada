/** `merge_fragmented_person_tracks` of cloud-ai/app/track_merge.py: the remap applied in
    place, and when a second application would change nothing. */
module TrackMergeApply {
  import opened Detections
  import opened TrackMerge

  // ----- the remap on values -----

  function Relabel(remap: map<nat, nat>, t: nat): nat {
    if t in remap then remap[t] else t
  }

  function MergedDetection(d: Detection, remap: map<nat, nat>): Detection {
    if d.cue == Person && d.trackId >= 0 then d.(trackId := Relabel(remap, d.trackId)) else d
  }

  function MergedFrame(dets: Frame, remap: map<nat, nat>): Frame {
    seq(|dets|, i requires 0 <= i < |dets| => MergedDetection(dets[i], remap))
  }

  function Merged(frames: seq<Frame>, remap: map<nat, nat>): seq<Frame> {
    seq(|frames|, i requires 0 <= i < |frames| => MergedFrame(frames[i], remap))
  }

  // ----- in place -----

  function SnapshotFrame(dets: seq<DetectionObject>): Frame
    reads set d | d in dets
  {
    if dets == [] then [] else SnapshotFrame(dets[..|dets| - 1]) + [dets[|dets| - 1].Value()]
  }

  function Snapshot(frames: seq<seq<DetectionObject>>): seq<Frame>
    reads set f, d | f in frames && d in f :: d
  {
    if frames == [] then []
    else Snapshot(frames[..|frames| - 1]) + [SnapshotFrame(frames[|frames| - 1])]
  }

  /** `vals` lists, frame by frame, the values the detection objects hold now. */
  ghost predicate Holds(frames: seq<seq<DetectionObject>>, vals: seq<Frame>)
    reads set i, j | 0 <= i < |frames| && 0 <= j < |frames[i]| :: frames[i][j]
  {
    && |vals| == |frames|
    && (forall i :: 0 <= i < |frames| ==> |vals[i]| == |frames[i]|)
    && forall i, j :: 0 <= i < |frames| && 0 <= j < |frames[i]| ==> frames[i][j].Value() == vals[i][j]
  }

  lemma {:induction false} SnapshotFrameAt(dets: seq<DetectionObject>)
    ensures |SnapshotFrame(dets)| == |dets|
    ensures forall j :: 0 <= j < |dets| ==> SnapshotFrame(dets)[j] == dets[j].Value()
  {
    if dets != [] {
      SnapshotFrameAt(dets[..|dets| - 1]);
    }
  }

  lemma {:induction false} SnapshotAt(frames: seq<seq<DetectionObject>>)
    ensures |Snapshot(frames)| == |frames|
    ensures forall i :: 0 <= i < |frames| ==> Snapshot(frames)[i] == SnapshotFrame(frames[i])
  {
    if frames != [] {
      SnapshotAt(frames[..|frames| - 1]);
    }
  }

  lemma HoldsIsSnapshot(frames: seq<seq<DetectionObject>>, vals: seq<Frame>)
    ensures Holds(frames, vals) <==> vals == Snapshot(frames)
  {
    SnapshotAt(frames);
    forall i | 0 <= i < |frames|
      ensures |Snapshot(frames)[i]| == |frames[i]|
      ensures forall j :: 0 <= j < |frames[i]| ==> Snapshot(frames)[i][j] == frames[i][j].Value()
    {
      SnapshotFrameAt(frames[i]);
    }
    if Holds(frames, vals) {
      forall i | 0 <= i < |frames| ensures vals[i] == Snapshot(frames)[i] {
      }
    }
  }

  /** The in-place loops. The same detection object may occur more than once: a canonical id is
      itself never remapped, so a second visit changes nothing. */
  method ApplyRemap(frames: seq<seq<DetectionObject>>, remap: map<nat, nat>, ghost before: seq<Frame>)
    requires forall t :: t in remap ==> remap[t] !in remap
    requires Holds(frames, before)
    modifies set f, d | f in frames && d in f :: d
    ensures Holds(frames, Merged(before, remap))
  {
    ghost var done: set<DetectionObject> := {};
    for i := 0 to |frames|
      invariant forall d: DetectionObject :: old(allocated(d)) ==>
        d.Value() == if d in done then MergedDetection(old(d.Value()), remap) else old(d.Value())
      invariant forall k, l :: 0 <= k < i && 0 <= l < |frames[k]| ==> frames[k][l] in done
    {
      for j := 0 to |frames[i]|
        invariant forall d: DetectionObject :: old(allocated(d)) ==>
          d.Value() == if d in done then MergedDetection(old(d.Value()), remap) else old(d.Value())
        invariant forall k, l :: 0 <= k < i && 0 <= l < |frames[k]| ==> frames[k][l] in done
        invariant forall l :: 0 <= l < j ==> frames[i][l] in done
      {
        var d := frames[i][j];
        assert frames[i] in frames && d in frames[i];
        if d.cue == Person && d.trackId in remap {
          d.trackId := remap[d.trackId];
        }
        done := done + {d};
      }
    }
  }

  lemma RemapIsFlat(c: Clip)
    ensures forall t :: t in RemapOf(c) ==> RemapOf(c)[t] !in RemapOf(c)
  {
    forall t | t in RemapOf(c) ensures RemapOf(c)[t] !in RemapOf(c) {
      RootMeaning(c, t);
    }
  }

  /** `merge_fragmented_person_tracks`: every person detection ends up under the canonical id
      of its track, and nothing else changes. */
  method MergeFragmentedPersonTracks(frames: seq<seq<DetectionObject>>, params: Params)
    modifies set f, d | f in frames && d in f :: d
    ensures Snapshot(frames)
      == Merged(old(Snapshot(frames)), RemapOf(FramesClip(old(Snapshot(frames)), params)))
  {
    var values := Snapshot(frames);
    HoldsIsSnapshot(frames, values);
    var remap := BuildPersonIdRemap(values, params);
    RemapIsFlat(FramesClip(values, params));
    if remap == map[] {
      MergedWithNothing(values);
    } else {
      ApplyRemap(frames, remap, values);
    }
    HoldsIsSnapshot(frames, Merged(values, remap));
  }

  lemma MergedWithNothing(frames: seq<Frame>)
    ensures Merged(frames, map[]) == frames
  {
    forall i | 0 <= i < |frames| ensures MergedFrame(frames[i], map[]) == frames[i] {
    }
  }
}
