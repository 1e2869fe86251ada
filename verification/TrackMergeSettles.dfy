/** Stitching over and over (cloud-ai/app/track_merge.py): with or without embeddings, for any
    number of persons, it comes to rest. */
module TrackMergeSettles {
  import opened SetFacts
  import opened Detections
  import opened PersonStats
  import opened TrackMerge
  import opened TrackMergeApply
  import opened TrackMergeTheorems

  /** `merge_fragmented_person_tracks`, on values. */
  ghost function Stitched(frames: seq<Frame>, params: Params): seq<Frame> {
    Merged(frames, RemapOf(FramesClip(frames, params)))
  }

  ghost function StitchedTimes(frames: seq<Frame>, params: Params, n: nat): seq<Frame>
    decreases n
  {
    if n == 0 then frames else Stitched(StitchedTimes(frames, params, n - 1), params)
  }

  ghost function Tracks(frames: seq<Frame>): set<nat> {
    StatsOf(Sightings(frames)).Keys
  }

  ghost predicate Settled(frames: seq<Frame>, params: Params) {
    RemapOf(FramesClip(frames, params)) == map[]
  }

  lemma SettledMeaning(frames: seq<Frame>, params: Params)
    requires Settled(frames, params)
    ensures Stitched(frames, params) == frames
  {
    MergedWithNothing(frames);
  }

  lemma StitchedTrack(frames: seq<Frame>, params: Params, r: nat)
    ensures r in Tracks(Stitched(frames, params)) <==> r in Tracks(frames) && r !in RemapOf(FramesClip(frames, params))
  {
    var c := FramesClip(frames, params);
    SightingsRelabelled(frames, RemapOf(c));
    MergedKeysAreRoots(c, Sightings(frames), Sightings(Stitched(frames, params)), r);
  }

  lemma SizeOfDifference(a: set<nat>, b: set<nat>)
    requires b <= a
    ensures |a - b| == |a| - |b|
  {
    assert a * b == b;
  }

  /** Stitching removes exactly the ids it remaps: what is left are canonical ids of before. */
  lemma StitchingRemoves(frames: seq<Frame>, params: Params)
    ensures var remap := RemapOf(FramesClip(frames, params));
      && remap.Keys <= Tracks(frames)
      && Tracks(Stitched(frames, params)) == Tracks(frames) - remap.Keys
      && |Tracks(Stitched(frames, params))| == |Tracks(frames)| - |remap.Keys|
  {
    var removed := RemapOf(FramesClip(frames, params)).Keys;
    forall r: nat ensures r in Tracks(Stitched(frames, params)) <==> r in Tracks(frames) - removed {
      StitchedTrack(frames, params, r);
    }
    SizeOfDifference(Tracks(frames), removed);
  }

  /** A single track has nothing to be merged with. */
  lemma FewTracksAreSettled(frames: seq<Frame>, params: Params)
    requires |Tracks(frames)| <= 1
    ensures Settled(frames, params)
  {
    var c := FramesClip(frames, params);
    forall t | t in c.stats ensures Root(c, t) == t {
      RootMeaning(c, t);
      if Root(c, t) != t {
        var two: set<nat> := {t, Root(c, t)};
        SubsetSize(two, Tracks(frames));
      }
    }
    assert RemapOf(c) == map[];
  }

  ghost predicate SettledOrFew(frames: seq<Frame>, params: Params, few: int) {
    Settled(frames, params) || |Tracks(frames)| <= few
  }

  /** A run that changes anything leaves a track less. */
  lemma StitchingProgresses(frames: seq<Frame>, params: Params, few: int)
    requires SettledOrFew(frames, params, few)
    ensures SettledOrFew(Stitched(frames, params), params, few - 1)
  {
    if Settled(frames, params) {
      SettledMeaning(frames, params);
    } else {
      StitchingRemoves(frames, params);
      SomethingRemapped(RemapOf(FramesClip(frames, params)));
    }
  }

  lemma SomethingRemapped(remap: map<nat, nat>)
    requires remap != map[]
    ensures |remap.Keys| > 0
  {
    var t :| t in remap;
    assert t in remap.Keys;
  }

  /** What each run carries on, n runs carry on. */
  lemma {:induction false} AfterEachRun(
    frames: seq<Frame>, params: Params, n: nat, few: int, p: (seq<Frame>, int) -> bool)
    requires p(frames, few)
    requires forall clip, k :: p(clip, k) ==> p(Stitched(clip, params), k - 1)
    ensures p(StitchedTimes(frames, params, n), few - n)
  {
    if n > 0 {
      AfterEachRun(frames, params, n - 1, few, p);
    }
  }

  lemma ProgressAfter(frames: seq<Frame>, params: Params, n: nat)
    ensures SettledOrFew(StitchedTimes(frames, params, n), params, |Tracks(frames)| - n)
  {
    var p := (clip, few) => SettledOrFew(clip, params, few);
    forall clip, k | p(clip, k) ensures p(Stitched(clip, params), k - 1) {
      StitchingProgresses(clip, params, k);
    }
    AfterEachRun(frames, params, n, |Tracks(frames)|, p);
  }

  /** A clip of at most n + 1 tracks is stable after n runs. */
  lemma StitchingSettles(frames: seq<Frame>, params: Params, n: nat)
    requires |Tracks(frames)| <= n + 1
    ensures Settled(StitchedTimes(frames, params, n), params)
    ensures StitchedTimes(frames, params, n + 1) == StitchedTimes(frames, params, n)
  {
    ProgressAfter(frames, params, n);
    if !Settled(StitchedTimes(frames, params, n), params) {
      FewTracksAreSettled(StitchedTimes(frames, params, n), params);
    }
    SettledMeaning(StitchedTimes(frames, params, n), params);
  }
}
