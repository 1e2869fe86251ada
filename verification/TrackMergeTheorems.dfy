/** What stitching a clip a second time does (cloud-ai/app/track_merge.py). */
module TrackMergeTheorems {
  import opened Detections
  import opened PersonStats
  import opened TrackMerge
  import opened TrackMergeApply

  // ----- the sightings of a merged clip -----

  /** `t` lists the sightings of `s` under their new ids. */
  ghost predicate Relabelled(s: seq<Sighting>, t: seq<Sighting>, remap: map<nat, nat>) {
    |t| == |s| && forall i :: 0 <= i < |s| ==> t[i] == s[i].(tid := Relabel(remap, s[i].tid))
  }

  lemma {:induction false} FrameRelabelled(idx: nat, dets: Frame, remap: map<nat, nat>)
    ensures Relabelled(FrameSightings(idx, dets), FrameSightings(idx, MergedFrame(dets, remap)), remap)
    ensures TrackedCount(MergedFrame(dets, remap)) == TrackedCount(dets)
  {
    if dets != [] {
      var n := |dets| - 1;
      FrameRelabelled(idx, dets[..n], remap);
      assert MergedFrame(dets, remap)[..n] == MergedFrame(dets[..n], remap);
    }
  }

  lemma {:induction false} SightingsRelabelled(frames: seq<Frame>, remap: map<nat, nat>)
    ensures Relabelled(Sightings(frames), Sightings(Merged(frames, remap)), remap)
  {
    if frames != [] {
      var n := |frames| - 1;
      SightingsRelabelled(frames[..n], remap);
      assert Merged(frames, remap)[..n] == Merged(frames[..n], remap);
      FrameRelabelled(n, frames[n], remap);
    }
  }

  /** Merging keeps the number of tracked persons of every frame. */
  lemma MergingKeepsSinglePerson(frames: seq<Frame>, remap: map<nat, nat>)
    ensures SinglePerson(Merged(frames, remap)) <==> SinglePerson(frames)
  {
    forall i | 0 <= i < |frames|
      ensures TrackedCount(Merged(frames, remap)[i]) == TrackedCount(frames[i])
    {
      FrameRelabelled(i, frames[i], remap);
    }
  }

  // ----- classes -----

  ghost predicate InClass(c: Clip, root: nat, t: nat) {
    t in c.stats && Root(c, t) == root
  }

  /** The last sighting of a class. */
  ghost predicate EndsAt(c: Clip, s: seq<Sighting>, root: nat, l: nat) {
    && l < |s| && InClass(c, root, s[l].tid)
    && forall j :: l < j < |s| ==> !InClass(c, root, s[j].tid)
  }

  /** The sightings a theorem below speaks of: in order, with indices under the sentinel. */
  ghost predicate Proper(s: seq<Sighting>) {
    InOrder(s) && forall i :: 0 <= i < |s| ==> s[i].idx < FIRST_IDX_SENTINEL
  }

  lemma RelabelIsRoot(c: Clip, t: nat)
    requires t in c.stats
    ensures Relabel(RemapOf(c), t) == Root(c, t)
  {
  }

  lemma SightingsHaveStats(s: seq<Sighting>, i: nat)
    requires i < |s|
    ensures s[i].tid in StatsOf(s)
  {
    StatsKeys(s, s[i].tid);
  }

  /** Sightings of the merged clip under a canonical id are those of its class. */
  lemma MergedTid(c: Clip, s: seq<Sighting>, t: seq<Sighting>, i: nat, root: nat)
    requires c.stats == StatsOf(s) && Relabelled(s, t, RemapOf(c)) && i < |s|
    ensures t[i].tid == root <==> InClass(c, root, s[i].tid)
  {
    SightingsHaveStats(s, i);
    RelabelIsRoot(c, s[i].tid);
  }

  lemma MergedKeysAreRoots(c: Clip, s: seq<Sighting>, t: seq<Sighting>, r: nat)
    requires c.stats == StatsOf(s) && Relabelled(s, t, RemapOf(c))
    ensures r in StatsOf(t) <==> r in c.stats && Root(c, r) == r
  {
    StatsKeys(t, r);
    StatsKeys(s, r);
    if r in StatsOf(t) {
      var i :| 0 <= i < |t| && t[i].tid == r;
      MergedTid(c, s, t, i, r);
      RootMeaning(c, s[i].tid);
    }
    if r in c.stats && Root(c, r) == r {
      var i :| 0 <= i < |s| && s[i].tid == r;
      MergedTid(c, s, t, i, r);
      assert t[i].tid == r;
    }
  }

  /** A merged track starts where its canonical fragment started... */
  lemma MergedStart(c: Clip, s: seq<Sighting>, t: seq<Sighting>, r: nat)
    requires Proper(s) && c.stats == StatsOf(s) && Relabelled(s, t, RemapOf(c))
    requires r in c.stats && Root(c, r) == r && r in StatsOf(t)
    ensures StatsOf(t)[r].firstIdx == c.stats[r].firstIdx
    ensures StatsOf(t)[r].firstAt == c.stats[r].firstAt
  {
    assert InOrder(t);
    var first, _ := StatsMeaning(t, r);
    FirstOfClassIsCanonical(c, s, t, r, first);
    var own, _ := StatsMeaning(s, r);
    assert own == first;
  }

  lemma FirstOfClassIsCanonical(c: Clip, s: seq<Sighting>, t: seq<Sighting>, r: nat, first: nat)
    requires Proper(s) && c.stats == StatsOf(s) && Relabelled(s, t, RemapOf(c))
    requires r in c.stats && Root(c, r) == r && IsFirstOf(t, r, first)
    ensures IsFirstOf(s, r, first)
  {
    var n := s[first].tid;
    MergedTid(c, s, t, first, r);
    var own, _ := StatsMeaning(s, r);
    MergedTid(c, s, t, own, r);
    assert first <= own;
    assert s[first].idx <= s[own].idx;
    var nFirst, _ := StatsMeaning(s, n);
    MergedTid(c, s, t, nFirst, r);
    assert nFirst == first;
    CanonicalIsUniqueEarliest(c, r, n);
  }

  /** ... and ends where its class was last seen. */
  lemma MergedEnd(c: Clip, s: seq<Sighting>, t: seq<Sighting>, r: nat) returns (l: nat)
    requires Proper(s) && c.stats == StatsOf(s) && Relabelled(s, t, RemapOf(c))
    requires r in StatsOf(t)
    ensures EndsAt(c, s, r, l)
    ensures StatsOf(t)[r].lastIdx == s[l].idx && StatsOf(t)[r].lastAt == s[l].at
  {
    assert InOrder(t);
    var _, last := StatsMeaning(t, r);
    l := last;
    MergedTid(c, s, t, l, r);
    forall j | l < j < |s| ensures !InClass(c, r, s[j].tid) {
      MergedTid(c, s, t, j, r);
    }
  }

  /** The member that closes a class is last seen there. */
  lemma ClosingMember(c: Clip, s: seq<Sighting>, r: nat, l: nat)
    requires Proper(s) && c.stats == StatsOf(s) && EndsAt(c, s, r, l)
    ensures var m := s[l].tid;
      && m in c.stats && c.stats[m].lastIdx == s[l].idx && c.stats[m].lastAt == s[l].at
      && c.stats[m].firstIdx <= c.stats[m].lastIdx
  {
    var m := s[l].tid;
    var first, last := StatsMeaning(s, m);
    assert !(l < last);
    assert !(last < l);
  }

  // ----- without embeddings -----

  ghost predicate NoEmbeddings(s: seq<Sighting>) {
    forall i :: 0 <= i < |s| ==> s[i].embedding == []
  }

  lemma {:induction false} NoMeans(s: seq<Sighting>, tid: nat)
    requires NoEmbeddings(s)
    ensures EmbeddingsOf(s, tid) == []
  {
    if s != [] {
      NoMeans(s[..|s| - 1], tid);
    }
  }

  /** Without embeddings the test reads only times and places. */
  predicate Close(c: Clip, gap: int, from: Point, to: Point) {
    && 0 <= gap <= c.params.maxGapFrames
    && c.params.dist(to, from) <= c.params.maxSpatial
    && (c.singlePerson || gap <= SHORT_GAP_NO_REID)
    && 1.0 - c.params.dist(to, from) > -1.0
  }

  lemma AdmissibleWithoutEmbeddings(c: Clip, s: seq<Sighting>, e: nat, l: nat)
    requires Proper(s) && NoEmbeddings(s) && c.stats == StatsOf(s)
    requires e in c.stats && l in c.stats
    ensures Admissible(c, e, l) <==>
      && c.stats[e].firstIdx < c.stats[l].firstIdx
      && Close(c, c.stats[l].firstIdx - c.stats[e].lastIdx, c.stats[e].lastAt, c.stats[l].firstAt)
  {
    StatsEmbeddings(s, e);
    StatsEmbeddings(s, l);
    NoMeans(s, e);
    NoMeans(s, l);
  }

  // ----- a second run -----

  /** A canonical track starts on the very frame on which an earlier person's class ends, within
      reach of where it ends. */
  ghost predicate StartsOnAnEnd(c: Clip, s: seq<Sighting>, r: nat, q: nat, l: nat) {
    && r in c.stats && Root(c, r) == r && q in c.stats && Root(c, q) == q
    && EndsAt(c, s, q, l) && s[l].idx == c.stats[r].firstIdx
    && c.stats[q].firstIdx < c.stats[r].firstIdx
    && Close(c, 0, s[l].at, c.stats[r].firstAt)
  }

  ghost predicate SomeoneStartsOnAnEnd(c: Clip, s: seq<Sighting>) {
    exists r, q, l :: StartsOnAnEnd(c, s, r, q, l)
  }

  lemma StableUnlessStartOnEnd(c: Clip, s: seq<Sighting>, t: seq<Sighting>, q: nat, r: nat)
    requires Proper(s) && NoEmbeddings(s) && c.stats == StatsOf(s)
    requires Relabelled(s, t, RemapOf(c))
    requires q in StatsOf(t) && r in StatsOf(t) && Admissible(c.(stats := StatsOf(t)), q, r)
    ensures SomeoneStartsOnAnEnd(c, s)
  {
    var again := c.(stats := StatsOf(t));
    MergedKeysAreRoots(c, s, t, q);
    MergedKeysAreRoots(c, s, t, r);
    assert Proper(t) && NoEmbeddings(t);
    AdmissibleWithoutEmbeddings(again, t, q, r);
    MergedStart(c, s, t, q);
    MergedStart(c, s, t, r);
    var l := MergedEnd(c, s, t, q);
    ClosingMember(c, s, q, l);
    var m := s[l].tid;
    AdmissibleWithoutEmbeddings(c, s, m, r);
    KeptExactlyWithoutPredecessor(c, r);
    assert !Admissible(c, m, r);
    assert StartsOnAnEnd(c, s, r, q, l);
  }

  lemma UnstableIfStartOnEnd(c: Clip, s: seq<Sighting>, t: seq<Sighting>, r: nat, q: nat, l: nat)
    requires Proper(s) && NoEmbeddings(s) && c.stats == StatsOf(s)
    requires Relabelled(s, t, RemapOf(c)) && StartsOnAnEnd(c, s, r, q, l)
    ensures r in RemapOf(c.(stats := StatsOf(t)))
  {
    var again := c.(stats := StatsOf(t));
    MergedKeysAreRoots(c, s, t, q);
    MergedKeysAreRoots(c, s, t, r);
    assert Proper(t) && NoEmbeddings(t);
    MergedStart(c, s, t, q);
    MergedStart(c, s, t, r);
    var l' := MergedEnd(c, s, t, q);
    assert l' == l;
    AdmissibleWithoutEmbeddings(again, t, q, r);
    KeptExactlyWithoutPredecessor(again, r);
  }

  /** A second run finds nothing to merge exactly when no canonical track starts, within reach,
      on the frame on which an earlier person's class ends. */
  lemma SecondRunExactly(c: Clip, s: seq<Sighting>, t: seq<Sighting>)
    requires Proper(s) && NoEmbeddings(s) && c.stats == StatsOf(s)
    requires Relabelled(s, t, RemapOf(c))
    ensures RemapOf(c.(stats := StatsOf(t))) == map[] <==> !SomeoneStartsOnAnEnd(c, s)
  {
    var again := c.(stats := StatsOf(t));
    if r, q, l :| StartsOnAnEnd(c, s, r, q, l) {
      UnstableIfStartOnEnd(c, s, t, r, q, l);
    } else {
      forall r | r in again.stats ensures Root(again, r) == r {
        if q :| q in again.stats && Admissible(again, q, r) {
          StableUnlessStartOnEnd(c, s, t, q, r);
          assert false;
        }
      }
      assert RemapOf(again) == map[];
    }
  }

  lemma MergedClip(frames: seq<Frame>, params: Params, remap: map<nat, nat>)
    ensures FramesClip(Merged(frames, remap), params)
      == FramesClip(frames, params).(stats := StatsOf(Sightings(Merged(frames, remap))))
  {
    MergingKeepsSinglePerson(frames, remap);
  }

  /** For clips without embeddings, of any number of persons: when merging is idempotent. */
  lemma MergeIdempotentExactly(frames: seq<Frame>, params: Params)
    requires |frames| <= FIRST_IDX_SENTINEL && NoEmbeddings(Sightings(frames))
    ensures var c := FramesClip(frames, params);
      RemapOf(FramesClip(Merged(frames, RemapOf(c)), params)) == map[]
      <==> !SomeoneStartsOnAnEnd(c, Sightings(frames))
  {
    var c := FramesClip(frames, params);
    var s, t := Sightings(frames), Sightings(Merged(frames, RemapOf(c)));
    SightingsInOrder(frames);
    SightingsRelabelled(frames, RemapOf(c));
    MergedClip(frames, params, RemapOf(c));
    SecondRunExactly(c, s, t);
  }

  lemma OnePersonNeverStartsOnAnEnd(c: Clip, s: seq<Sighting>)
    requires Proper(s) && c.stats == StatsOf(s)
    requires forall i, j :: 0 <= i < j < |s| ==> s[i].idx < s[j].idx
    ensures !SomeoneStartsOnAnEnd(c, s)
  {
    forall r, q, l ensures !StartsOnAnEnd(c, s, r, q, l) {
      if StartsOnAnEnd(c, s, r, q, l) {
        var first, _ := StatsMeaning(s, r);
        assert false;
      }
    }
  }

  /** One tracked person per frame, no embeddings: stitching is idempotent. */
  lemma MergeIdempotentForOnePerson(frames: seq<Frame>, params: Params)
    requires |frames| <= FIRST_IDX_SENTINEL && NoEmbeddings(Sightings(frames))
    requires SinglePerson(frames)
    ensures var c := FramesClip(frames, params);
      RemapOf(FramesClip(Merged(frames, RemapOf(c)), params)) == map[]
  {
    MergeIdempotentExactly(frames, params);
    SightingsInOrder(frames);
    SinglePersonSightingsAreStrict(frames);
    OnePersonNeverStartsOnAnEnd(FramesClip(frames, params), Sightings(frames));
  }

  // ----- on the raw sightings -----

  /** Sighting i is of a track seen in a single frame, and in that frame another track, that of
      sighting j, starts. */
  ghost predicate FlickersBeside(s: seq<Sighting>, i: nat, j: nat) {
    && i < |s| && j < |s| && s[i].tid != s[j].tid && s[i].idx == s[j].idx
    && (forall k :: 0 <= k < |s| && s[k].tid == s[i].tid ==> s[k].idx == s[i].idx)
    && forall k :: 0 <= k < |s| && s[k].tid == s[j].tid ==> s[j].idx <= s[k].idx
  }

  ghost predicate SomeoneFlickers(s: seq<Sighting>) {
    exists i, j :: FlickersBeside(s, i, j)
  }

  lemma SightingsWithin(s: seq<Sighting>, tid: nat, k: nat) returns (first: nat)
    requires InOrder(s) && (forall i :: 0 <= i < |s| ==> s[i].idx < FIRST_IDX_SENTINEL)
    requires k < |s| && s[k].tid == tid
    ensures tid in StatsOf(s) && IsFirstOf(s, tid, first)
    ensures s[first].idx == StatsOf(s)[tid].firstIdx <= s[k].idx <= StatsOf(s)[tid].lastIdx
  {
    StatsKeys(s, tid);
    var last;
    first, last := StatsMeaning(s, tid);
    assert first <= k <= last;
  }

  /** Whoever starts on the end of a class starts beside a track of a single frame: had the
      closing track been seen before, it would have been a predecessor in the first run. */
  lemma StartOnEndFlickers(c: Clip, s: seq<Sighting>, r: nat, q: nat, l: nat)
    requires Proper(s) && NoEmbeddings(s) && c.stats == StatsOf(s) && StartsOnAnEnd(c, s, r, q, l)
    ensures SomeoneFlickers(s)
  {
    ClosingMember(c, s, q, l);
    var m := s[l].tid;
    AdmissibleWithoutEmbeddings(c, s, m, r);
    KeptExactlyWithoutPredecessor(c, r);
    assert !Admissible(c, m, r);
    assert c.stats[m].firstIdx == s[l].idx == c.stats[m].lastIdx;
    var j, _ := StatsMeaning(s, r);
    forall k | 0 <= k < |s| && s[k].tid == m ensures s[k].idx == s[l].idx {
      var first := SightingsWithin(s, m, k);
    }
    forall k | 0 <= k < |s| && s[k].tid == r ensures s[j].idx <= s[k].idx {
      var first := SightingsWithin(s, r, k);
    }
    assert FlickersBeside(s, l, j);
  }

  /** Any number of persons, no embeddings: unless a track of a single frame shares its frame
      with the start of another track, stitching is idempotent. */
  lemma MergeIdempotentWithoutFlicker(frames: seq<Frame>, params: Params)
    requires |frames| <= FIRST_IDX_SENTINEL && NoEmbeddings(Sightings(frames))
    requires !SomeoneFlickers(Sightings(frames))
    ensures var c := FramesClip(frames, params);
      RemapOf(FramesClip(Merged(frames, RemapOf(c)), params)) == map[]
  {
    var c, s := FramesClip(frames, params), Sightings(frames);
    MergeIdempotentExactly(frames, params);
    SightingsInOrder(frames);
    if r, q, l :| StartsOnAnEnd(c, s, r, q, l) {
      StartOnEndFlickers(c, s, r, q, l);
    }
  }

  // ----- two persons at once -----

  const DEFAULT_MAX_GAP_FRAMES := 90
  const DEFAULT_MAX_SPATIAL := 0.35

  /** The distance of the source: a square root of the sum of squares. */
  ghost predicate Euclidean(dist: (Point, Point) -> real) {
    forall p, q :: dist(p, q) >= 0.0
      && dist(p, q) * dist(p, q) == (p.x - q.x) * (p.x - q.x) + (p.y - q.y) * (p.y - q.y)
  }

  lemma PositiveProduct(a: real, b: real)
    requires a > 0.0 && b > 0.0
    ensures a * b > 0.0
  {
  }

  lemma SameSquare(d: real, e: real)
    requires d >= 0.0 && e >= 0.0 && d * d == e * e
    ensures d == e
  {
    if d > e {
      PositiveProduct(d - e, d + e);
    } else if d < e {
      PositiveProduct(e - d, d + e);
    }
  }

  lemma DistanceOnLine(dist: (Point, Point) -> real, a: real, b: real)
    requires Euclidean(dist)
    ensures dist(Point(a, 0.5), Point(b, 0.5)) == if a >= b then a - b else b - a
  {
    var d, e := dist(Point(a, 0.5), Point(b, 0.5)), if a >= b then a - b else b - a;
    assert (a - b) * (a - b) == e * e;
    SameSquare(d, e);
  }

  function PersonAt(id: nat, x: real): Detection {
    Detection(Person, id, Point(x, 0.5), 0.9, [])
  }

  const FLICKER := [[PersonAt(1, 0.0)], [PersonAt(2, 0.3), PersonAt(3, 0.6)]]
  const FLICKER_SIGHTINGS :=
    [Sighting(0, 1, Point(0.0, 0.5), []), Sighting(1, 2, Point(0.3, 0.5), []), Sighting(1, 3, Point(0.6, 0.5), [])]

  lemma FlickerSightings()
    ensures Sightings(FLICKER) == FLICKER_SIGHTINGS
  {
    var f0, f1 := [PersonAt(1, 0.0)], [PersonAt(2, 0.3), PersonAt(3, 0.6)];
    assert f0[..0] == [] && f1[..0] == [] && f1[..1] == [PersonAt(2, 0.3)] && f1[..1][..0] == [];
    assert FLICKER[..1] == [f0] && FLICKER[..1][..0] == [];
    assert FrameSightings(0, f0) == [Sighting(0, 1, Point(0.0, 0.5), [])];
    assert FrameSightings(1, f1[..1]) == [Sighting(1, 2, Point(0.3, 0.5), [])];
    assert Sightings([f0]) == [] + FrameSightings(0, f0);
  }

  lemma FlickerStats(t: nat) returns (i: nat)
    requires t in StatsOf(FLICKER_SIGHTINGS)
    ensures i < 3 && t == i + 1
    ensures var g, st := FLICKER_SIGHTINGS[i], StatsOf(FLICKER_SIGHTINGS)[t];
      st.firstIdx == g.idx && st.lastIdx == g.idx && st.firstAt == g.at && st.lastAt == g.at
  {
    var first, last := StatsMeaning(FLICKER_SIGHTINGS, t);
    i := first;
  }

  lemma FlickerAdmissible(params: Params, e: nat, l: nat)
    requires params.maxGapFrames == DEFAULT_MAX_GAP_FRAMES && params.maxSpatial == DEFAULT_MAX_SPATIAL
    requires Euclidean(params.dist)
    requires FramesClip(FLICKER, params).stats == StatsOf(FLICKER_SIGHTINGS)
    requires e in StatsOf(FLICKER_SIGHTINGS) && l in StatsOf(FLICKER_SIGHTINGS)
    ensures Admissible(FramesClip(FLICKER, params), e, l) <==> e == 1 && l == 2
  {
    DistanceOnLine(params.dist, 0.3, 0.0);
    DistanceOnLine(params.dist, 0.6, 0.0);
    DistanceOnLine(params.dist, 0.6, 0.3);
    var i := FlickerStats(e);
    var j := FlickerStats(l);
    AdmissibleWithoutEmbeddings(FramesClip(FLICKER, params), FLICKER_SIGHTINGS, e, l);
  }

  lemma FlickerRoots(c: Clip)
    requires c.stats.Keys == {1, 2, 3}
    requires forall e, l :: e in c.stats && l in c.stats ==> (Admissible(c, e, l) <==> e == 1 && l == 2)
    ensures Root(c, 1) == 1 && Root(c, 2) == 1 && Root(c, 3) == 3
  {
    assert 1 in c.stats && 2 in c.stats && 3 in c.stats;
    assert Admissible(c, 1, 2);
    KeptExactlyWithoutPredecessor(c, 1);
    KeptExactlyWithoutPredecessor(c, 3);
    BestMeaning(c, 2);
  }

  lemma FlickerKeys()
    ensures StatsOf(FLICKER_SIGHTINGS).Keys == {1, 2, 3}
  {
    var s := FLICKER_SIGHTINGS;
    forall i | 0 <= i < 3 ensures s[i].tid in StatsOf(s) {
      SightingsHaveStats(s, i);
    }
    assert s[0].tid in StatsOf(s) && s[1].tid in StatsOf(s) && s[2].tid in StatsOf(s);
    forall t | t in StatsOf(s) ensures t in {1, 2, 3} {
      var i := FlickerStats(t);
    }
  }

  /** Two persons at once: one flickers for a single frame, on which another person appears.
      Stitching the stitched clip again merges the two persons. */
  lemma TwoPersonsNeedNotBeStable(params: Params)
    requires params.maxGapFrames == DEFAULT_MAX_GAP_FRAMES && params.maxSpatial == DEFAULT_MAX_SPATIAL
    requires Euclidean(params.dist)
    ensures var c := FramesClip(FLICKER, params);
      RemapOf(FramesClip(Merged(FLICKER, RemapOf(c)), params)) != map[]
  {
    var c, s := FramesClip(FLICKER, params), FLICKER_SIGHTINGS;
    FlickerSightings();
    FlickerKeys();
    forall e, l | e in c.stats && l in c.stats ensures Admissible(c, e, l) <==> e == 1 && l == 2 {
      FlickerAdmissible(params, e, l);
    }
    FlickerRoots(c);
    FlickerStartsOnAnEnd(params);
    MergeIdempotentExactly(FLICKER, params);
  }

  lemma FlickerStartsOnAnEnd(params: Params)
    requires params.maxGapFrames == DEFAULT_MAX_GAP_FRAMES && params.maxSpatial == DEFAULT_MAX_SPATIAL
    requires Euclidean(params.dist)
    requires var c := FramesClip(FLICKER, params);
      c.stats == StatsOf(FLICKER_SIGHTINGS) && c.stats.Keys == {1, 2, 3}
      && 1 in c.stats && 2 in c.stats && 3 in c.stats && Root(c, 1) == 1 && Root(c, 2) == 1 && Root(c, 3) == 3
    ensures StartsOnAnEnd(FramesClip(FLICKER, params), FLICKER_SIGHTINGS, 3, 1, 1)
  {
    DistanceOnLine(params.dist, 0.6, 0.3);
    var i1 := FlickerStats(1);
    var i3 := FlickerStats(3);
  }
}
