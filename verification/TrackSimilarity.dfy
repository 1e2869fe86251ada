/** What decides whether two person tracks are stitched (cloud-ai/app/track_merge.py), read off
    their first and last sightings and their mean embeddings. */
module TrackSimilarity {
  import opened Wrappers
  import opened Detections
  import opened PersonStats
  import opened TrackMerge
  import opened TrackMergeApply

  // ----- the pairwise test -----

  /** The later track starts after the earlier one did, soon after it ended and not far away. */
  predicate InReach(p: Params, earlier: TrackStats, later: TrackStats) {
    && earlier.firstIdx < later.firstIdx
    && 0 <= later.firstIdx - earlier.lastIdx <= p.maxGapFrames
    && p.dist(later.firstAt, earlier.lastAt) <= p.maxSpatial
  }

  predicate BothShown(earlier: TrackStats, later: TrackStats) {
    Mean(earlier.embeddings).Some? && Mean(later.embeddings).Some?
  }

  function Cosine(p: Params, earlier: TrackStats, later: TrackStats): real
    requires BothShown(earlier, later)
  {
    p.cosine(Mean(earlier.embeddings).value, Mean(later.embeddings).value)
  }

  /** Two tracks with embeddings: besides being in reach they must look alike. */
  lemma AdmissibleWithEmbeddings(c: Clip, e: nat, l: nat)
    requires e in c.stats && l in c.stats && BothShown(c.stats[e], c.stats[l])
    ensures Admissible(c, e, l) <==>
      && InReach(c.params, c.stats[e], c.stats[l])
      && Cosine(c.params, c.stats[e], c.stats[l]) >= c.params.similarityThreshold
      && Cosine(c.params, c.stats[e], c.stats[l]) > -1.0
  {
  }

  /** Where one has none: with one person at a time reach is enough, with several only a gap of
      at most twenty frames is bridged. */
  lemma AdmissibleWithoutBoth(c: Clip, e: nat, l: nat)
    requires e in c.stats && l in c.stats && !BothShown(c.stats[e], c.stats[l])
    ensures Admissible(c, e, l) <==>
      && InReach(c.params, c.stats[e], c.stats[l])
      && (c.singlePerson || c.stats[l].firstIdx - c.stats[e].lastIdx <= 20)
      && c.params.dist(c.stats[l].firstAt, c.stats[e].lastAt) < 2.0
  {
  }

  /** `e` may be the same person as `l` in a clip with one person at a time, or with several. */
  predicate MayContinue(p: Params, singlePerson: bool, e: TrackStats, l: TrackStats) {
    && InReach(p, e, l)
    && if BothShown(e, l) then Cosine(p, e, l) >= p.similarityThreshold && Cosine(p, e, l) > -1.0
       else (singlePerson || l.firstIdx - e.lastIdx <= 20) && p.dist(l.firstAt, e.lastAt) < 2.0
  }

  lemma AdmissibleExactly(c: Clip, e: nat, l: nat)
    requires e in c.stats && l in c.stats
    ensures Admissible(c, e, l) <==> MayContinue(c.params, c.singlePerson, c.stats[e], c.stats[l])
  {
    if BothShown(c.stats[e], c.stats[l]) {
      AdmissibleWithEmbeddings(c, e, l);
    } else {
      AdmissibleWithoutBoth(c, e, l);
    }
  }

  // ----- which predecessor -----

  /** How alike two tracks are: the cosine where both have embeddings, else nearness. */
  function Likeness(p: Params, e: TrackStats, l: TrackStats): real {
    if BothShown(e, l) then Cosine(p, e, l) else 1.0 - p.dist(l.firstAt, e.lastAt)
  }

  /** `b` is the most alike of all that `l` may continue; on a tie the one seen first, then the one
      of lower id. */
  ghost predicate MostAlike(c: Clip, b: nat, l: nat)
    requires l in c.stats
  {
    && b in c.stats && MayContinue(c.params, c.singlePerson, c.stats[b], c.stats[l])
    && forall e :: e in c.stats && e != b && MayContinue(c.params, c.singlePerson, c.stats[e], c.stats[l]) ==>
         var one, other := Likeness(c.params, c.stats[b], c.stats[l]), Likeness(c.params, c.stats[e], c.stats[l]);
         one > other || (one == other
           && (c.stats[b].firstIdx < c.stats[e].firstIdx || (c.stats[b].firstIdx == c.stats[e].firstIdx && b < e)))
  }

  lemma ScoreIsLikeness(c: Clip, e: nat, l: nat)
    requires e in c.stats && l in c.stats && Admissible(c, e, l)
    ensures Score(c, e, l).value == Likeness(c.params, c.stats[e], c.stats[l])
  {
  }

  lemma BestIsMostAlike(c: Clip, l: nat)
    requires l in c.stats && HasPredecessor(c, l)
    ensures MostAlike(c, Best(c, l), l)
  {
    BestMeaning(c, l);
    var b := Best(c, l);
    AdmissibleExactly(c, b, l);
    ScoreIsLikeness(c, b, l);
    forall e | e in c.stats && e != b && MayContinue(c.params, c.singlePerson, c.stats[e], c.stats[l])
      ensures Score(c, e, l).Some? && Score(c, e, l).value == Likeness(c.params, c.stats[e], c.stats[l])
      ensures Admissible(c, e, l)
    {
      AdmissibleExactly(c, e, l);
      ScoreIsLikeness(c, e, l);
    }
  }

  // ----- the remap -----

  /** An id is remapped if and only if there is a track it may continue; otherwise it is kept. */
  lemma RemappedExactly(frames: seq<Frame>, params: Params, t: nat)
    ensures var c := FramesClip(frames, params);
      t in RemapOf(c) <==>
        t in c.stats && exists e :: e in c.stats && MayContinue(params, SinglePerson(frames), c.stats[e], c.stats[t])
  {
    var c := FramesClip(frames, params);
    if t in c.stats {
      KeptExactlyWithoutPredecessor(c, t);
      forall e | e in c.stats
        ensures Admissible(c, e, t) <==> MayContinue(params, SinglePerson(frames), c.stats[e], c.stats[t])
      {
        AdmissibleExactly(c, e, t);
      }
    }
  }

  /** And then it ends up under the same id as the track it is most alike. */
  lemma StitchedToTheMostAlike(frames: seq<Frame>, params: Params, t: nat) returns (b: nat)
    requires t in RemapOf(FramesClip(frames, params))
    ensures var c := FramesClip(frames, params);
      MostAlike(c, b, t) && RemapOf(c)[t] == Relabel(RemapOf(c), b)
  {
    var c := FramesClip(frames, params);
    KeptExactlyWithoutPredecessor(c, t);
    b := Best(c, t);
    BestIsMostAlike(c, t);
  }

  /** People who do not look alike stay apart: where every track has an embedding and no two reach
      the threshold, nothing is remapped. */
  lemma StrangersStayApart(frames: seq<Frame>, params: Params)
    requires var stats := FramesClip(frames, params).stats;
      forall e, l :: e in stats && l in stats && e != l ==>
        BothShown(stats[e], stats[l]) && Cosine(params, stats[e], stats[l]) < params.similarityThreshold
    ensures RemapOf(FramesClip(frames, params)) == map[]
  {
    var c := FramesClip(frames, params);
    forall t: nat ensures t !in RemapOf(c) {
      RemappedExactly(frames, params, t);
    }
    assert RemapOf(c).Keys == {};
  }

  // ----- the mean embedding -----

  ghost predicate AllAre(vectors: seq<seq<real>>, v: seq<real>) {
    forall k :: 0 <= k < |vectors| ==> vectors[k] == v
  }

  lemma {:induction false} SumOfEqual(vectors: seq<seq<real>>, v: seq<real>, i: nat)
    requires i < |v| && AllAre(vectors, v)
    requires forall w :: w in vectors ==> i < |w|
    ensures SumAt(vectors, i) == |vectors| as real * v[i]
  {
    if vectors != [] {
      SumOfEqual(vectors[..|vectors| - 1], v, i);
      assert vectors[|vectors| - 1] == v;
    }
  }

  lemma DividedOut(sum: real, n: real, x: real)
    requires n > 0.0 && sum == n * x
    ensures sum / n == x
  {
  }

  lemma MeanAt(vectors: seq<seq<real>>, i: nat)
    requires SameDimension(vectors) && i < |vectors[0]|
    ensures Mean(vectors).Some? && |Mean(vectors).value| == |vectors[0]|
    ensures Mean(vectors).value[i] == SumAt(vectors, i) / |vectors| as real
  {
  }

  lemma SameWidth(vectors: seq<seq<real>>, v: seq<real>)
    requires vectors != [] && v != [] && AllAre(vectors, v)
    ensures SameDimension(vectors) && |vectors[0]| == |v|
  {
    forall w | w in vectors ensures |w| == |v| {
      var k :| 0 <= k < |vectors| && vectors[k] == w;
    }
  }

  /** Of equal vectors the mean is that vector. */
  lemma MeanOfEqual(vectors: seq<seq<real>>, v: seq<real>)
    requires vectors != [] && v != [] && AllAre(vectors, v)
    ensures Mean(vectors) == Some(v)
  {
    SameWidth(vectors, v);
    var mean := Mean(vectors).value;
    forall i | 0 <= i < |v| ensures mean[i] == v[i] {
      MeanAt(vectors, i);
      SumOfEqual(vectors, v, i);
      DividedOut(SumAt(vectors, i), |vectors| as real, v[i]);
    }
    assert mean == v;
  }

  // ----- two sightings -----

  function Seen(id: nat, embedding: seq<real>): Detection {
    Detection(Person, id, Point(0.5, 0.5), 0.9, embedding)
  }

  /** Two ids, one after the other at the same spot. */
  function TwoIds(v: seq<real>, w: seq<real>): seq<Frame> {
    [[Seen(1, v)], [Seen(2, w)]]
  }

  lemma TwoSightings(v: seq<real>, w: seq<real>)
    ensures Sightings(TwoIds(v, w)) == [Sighting(0, 1, Point(0.5, 0.5), v), Sighting(1, 2, Point(0.5, 0.5), w)]
  {
    var f0, f1 := [Seen(1, v)], [Seen(2, w)];
    assert f0[..0] == [] && f1[..0] == [];
    assert TwoIds(v, w)[..1] == [f0] && TwoIds(v, w)[..1][..0] == [];
    assert FrameSightings(0, f0) == [Sighting(0, 1, Point(0.5, 0.5), v)];
    assert FrameSightings(1, f1) == [Sighting(1, 2, Point(0.5, 0.5), w)];
    assert Sightings([f0]) == [] + FrameSightings(0, f0);
  }

  lemma TwoStats(v: seq<real>, w: seq<real>)
    requires v != [] && w != []
    ensures var stats := StatsOf(Sightings(TwoIds(v, w)));
      && stats.Keys == {1, 2}
      && stats[1] == TrackStats([v], 0, 0, Point(0.5, 0.5), Point(0.5, 0.5))
      && stats[2] == TrackStats([w], 1, 1, Point(0.5, 0.5), Point(0.5, 0.5))
  {
    var g, h := Sighting(0, 1, Point(0.5, 0.5), v), Sighting(1, 2, Point(0.5, 0.5), w);
    TwoSightings(v, w);
    assert [g, h][..1] == [g] && [g][..0] == [];
    assert StatsOf([g]) == map[1 := Updated(FRESH_STATS, g)];
    assert StatsOf([g, h]) == StatsOf([g])[2 := Updated(FRESH_STATS, h)];
  }

  /** The two are one person if and only if they look alike, however close they are. */
  lemma TwoIdsAreOneExactly(params: Params, v: seq<real>, w: seq<real>)
    requires v != [] && w != []
    requires params.maxGapFrames >= 1 && params.dist(Point(0.5, 0.5), Point(0.5, 0.5)) <= params.maxSpatial
    requires params.similarityThreshold > -1.0
    ensures RemapOf(FramesClip(TwoIds(v, w), params))
      == if params.cosine(v, w) >= params.similarityThreshold then map[2 := 1] else map[]
  {
    var c := FramesClip(TwoIds(v, w), params);
    TwoStats(v, w);
    TwoAdmissible(c, v, w);
    RemapOfTwo(c);
  }

  lemma TwoAdmissible(c: Clip, v: seq<real>, w: seq<real>)
    requires v != [] && w != [] && c.params.similarityThreshold > -1.0
    requires c.params.maxGapFrames >= 1 && c.params.dist(Point(0.5, 0.5), Point(0.5, 0.5)) <= c.params.maxSpatial
    requires 1 in c.stats && c.stats[1] == TrackStats([v], 0, 0, Point(0.5, 0.5), Point(0.5, 0.5))
    requires 2 in c.stats && c.stats[2] == TrackStats([w], 1, 1, Point(0.5, 0.5), Point(0.5, 0.5))
    ensures Admissible(c, 1, 2) <==> c.params.cosine(v, w) >= c.params.similarityThreshold
  {
    MeanOfEqual([v], v);
    MeanOfEqual([w], w);
    AdmissibleWithEmbeddings(c, 1, 2);
  }

  lemma RemapOfTwo(c: Clip)
    requires c.stats.Keys == {1, 2} && 1 in c.stats && 2 in c.stats && c.stats[1].firstIdx < c.stats[2].firstIdx
    ensures RemapOf(c) == if Admissible(c, 1, 2) then map[2 := 1] else map[]
  {
    RootsOfTwo(c);
    assert forall t :: t in c.stats ==> t == 1 || t == 2;
  }

  lemma RootsOfTwo(c: Clip)
    requires c.stats.Keys == {1, 2} && 1 in c.stats && 2 in c.stats && c.stats[1].firstIdx < c.stats[2].firstIdx
    ensures Root(c, 1) == 1 && Root(c, 2) == if Admissible(c, 1, 2) then 1 else 2
  {
    KeptExactlyWithoutPredecessor(c, 1);
    KeptExactlyWithoutPredecessor(c, 2);
    RootMeaning(c, 2);
  }

  // ----- what stitching changes -----

  /** A person with an id gets the id its track stands under; no other detection changes, and of
      these nothing but the id does. */
  lemma StitchedDetectionExactly(frames: seq<Frame>, params: Params, i: nat, k: nat)
    requires i < |frames| && k < |frames[i]|
    ensures var remap := RemapOf(FramesClip(frames, params));
      var stitched, d := Merged(frames, remap), frames[i][k];
      && |stitched| == |frames| && |stitched[i]| == |frames[i]|
      && stitched[i][k] ==
           if d.cue == Person && d.trackId >= 0 && d.trackId in remap then d.(trackId := remap[d.trackId]) else d
  {
  }
}
