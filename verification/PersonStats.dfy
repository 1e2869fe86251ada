/** `_TrackStats`, `_mean_embedding`, `_collect_person_stats` and
    `_is_single_person_at_a_time` of cloud-ai/app/track_merge.py. */
module PersonStats {
  import opened Wrappers
  import opened Detections

  /** The value `first_idx` starts from; no clip index reaches it in practice. */
  const FIRST_IDX_SENTINEL := 1_000_000_000

  datatype TrackStats = TrackStats(
    embeddings: seq<seq<real>>,
    firstIdx: nat,
    lastIdx: int,
    firstAt: Point,
    lastAt: Point)

  const FRESH_STATS := TrackStats([], FIRST_IDX_SENTINEL, -1, Point(0.0, 0.0), Point(0.0, 0.0))

  /** One tracked-person detection together with the frame it lies in. */
  datatype Sighting = Sighting(idx: nat, tid: nat, at: Point, embedding: seq<real>)

  function FrameSightings(idx: nat, dets: Frame): seq<Sighting> {
    if dets == [] then []
    else
      var d := dets[|dets| - 1];
      FrameSightings(idx, dets[..|dets| - 1])
      + if IsTrackedPerson(d) then [Sighting(idx, d.trackId, d.at, d.embedding)] else []
  }

  /** Every tracked-person detection of the clip, in the order the source visits them. */
  function Sightings(frames: seq<Frame>): seq<Sighting> {
    if frames == [] then []
    else
      var n := |frames| - 1;
      Sightings(frames[..n]) + FrameSightings(n, frames[n])
  }

  ghost predicate InOrder(s: seq<Sighting>) {
    forall i, j :: 0 <= i < j < |s| ==> s[i].idx <= s[j].idx
  }

  lemma {:induction false} FrameSightingsIdx(idx: nat, dets: Frame)
    ensures forall i :: 0 <= i < |FrameSightings(idx, dets)| ==> FrameSightings(idx, dets)[i].idx == idx
  {
    if dets != [] {
      FrameSightingsIdx(idx, dets[..|dets| - 1]);
    }
  }

  lemma {:induction false} SightingsInOrder(frames: seq<Frame>)
    ensures InOrder(Sightings(frames))
    ensures forall i :: 0 <= i < |Sightings(frames)| ==> Sightings(frames)[i].idx < |frames|
  {
    if frames != [] {
      var n := |frames| - 1;
      SightingsInOrder(frames[..n]);
      FrameSightingsIdx(n, frames[n]);
    }
  }

  // ----- mean embedding -----

  function SumAt(vectors: seq<seq<real>>, i: nat): real
    requires forall v :: v in vectors ==> i < |v|
  {
    if vectors == [] then 0.0
    else SumAt(vectors[..|vectors| - 1], i) + vectors[|vectors| - 1][i]
  }

  predicate SameDimension(vectors: seq<seq<real>>) {
    vectors != [] && |vectors[0]| != 0 && forall v :: v in vectors ==> |v| == |vectors[0]|
  }

  function Mean(vectors: seq<seq<real>>): Option<seq<real>> {
    if !SameDimension(vectors) then None
    else Some(seq(|vectors[0]|, (i: int) requires 0 <= i < |vectors[0]| && SameDimension(vectors) =>
      SumAt(vectors, i) / (|vectors| as real)))
  }

  method MeanEmbedding(vectors: seq<seq<real>>) returns (mean: Option<seq<real>>)
    ensures mean == Mean(vectors)
  {
    if vectors == [] { return None; }
    var dim := |vectors[0]|;
    if dim == 0 || exists v :: v in vectors && |v| != dim { return None; }
    var acc := seq(dim, i => 0.0);
    for k := 0 to |vectors|
      invariant |acc| == dim
      invariant forall i :: 0 <= i < dim ==> acc[i] == SumAt(vectors[..k], i)
    {
      var v := vectors[k];
      assert vectors[..k + 1][..k] == vectors[..k];
      assert |v| == dim;
      acc := seq(dim, i requires 0 <= i < |acc| && i < |v| => acc[i] + v[i]);
    }
    assert vectors[..|vectors|] == vectors;
    var mu := seq(dim, i requires 0 <= i < |acc| => acc[i] / (|vectors| as real));
    assert SameDimension(vectors);
    assert mu == Mean(vectors).value;
    mean := Some(mu);
  }

  // ----- statistics per track -----

  function Updated(st: TrackStats, g: Sighting): TrackStats {
    var st1 := if g.embedding != [] then st.(embeddings := st.embeddings + [g.embedding]) else st;
    var st2 := if g.idx < st1.firstIdx then st1.(firstIdx := g.idx, firstAt := g.at) else st1;
    if g.idx >= st2.lastIdx then st2.(lastIdx := g.idx, lastAt := g.at) else st2
  }

  function StatsOf(s: seq<Sighting>): map<nat, TrackStats> {
    if s == [] then map[]
    else
      var rest, g := StatsOf(s[..|s| - 1]), s[|s| - 1];
      rest[g.tid := Updated(if g.tid in rest then rest[g.tid] else FRESH_STATS, g)]
  }

  lemma StatsAppend(s: seq<Sighting>, g: Sighting)
    ensures StatsOf(s + [g])
         == StatsOf(s)[g.tid := Updated(if g.tid in StatsOf(s) then StatsOf(s)[g.tid] else FRESH_STATS, g)]
  {
    assert (s + [g])[..|s|] == s;
  }

  lemma FrameSightingsStep(idx: nat, dets: Frame, k: nat)
    requires k < |dets|
    ensures FrameSightings(idx, dets[..k + 1]) == FrameSightings(idx, dets[..k])
      + if IsTrackedPerson(dets[k]) then [Sighting(idx, dets[k].trackId, dets[k].at, dets[k].embedding)] else []
  {
    assert dets[..k + 1][..k] == dets[..k];
  }

  lemma SightingsStep(frames: seq<Frame>, idx: nat)
    requires idx < |frames|
    ensures Sightings(frames[..idx + 1]) == Sightings(frames[..idx]) + FrameSightings(idx, frames[idx])
  {
    assert frames[..idx + 1][..idx] == frames[..idx];
  }

  /** The body of the loop over one frame. */
  method CollectFrame(stats0: map<nat, TrackStats>, idx: nat, dets: Frame, ghost before: seq<Sighting>)
    returns (stats: map<nat, TrackStats>)
    requires stats0 == StatsOf(before)
    ensures stats == StatsOf(before + FrameSightings(idx, dets))
  {
    stats := stats0;
    assert before + FrameSightings(idx, dets[..0]) == before;
    for k := 0 to |dets|
      invariant stats == StatsOf(before + FrameSightings(idx, dets[..k]))
    {
      var d := dets[k];
      ghost var seen := before + FrameSightings(idx, dets[..k]);
      FrameSightingsStep(idx, dets, k);
      if d.cue != Person || d.trackId < 0 {
        assert FrameSightings(idx, dets[..k + 1]) == FrameSightings(idx, dets[..k]);
        continue;
      }
      ghost var g := Sighting(idx, d.trackId, d.at, d.embedding);
      assert before + FrameSightings(idx, dets[..k + 1]) == seen + [g];
      StatsAppend(seen, g);
      var st := if d.trackId in stats then stats[d.trackId] else FRESH_STATS;
      if d.embedding != [] {
        st := st.(embeddings := st.embeddings + [d.embedding]);
      }
      if idx < st.firstIdx {
        st := st.(firstIdx := idx, firstAt := d.at);
      }
      if idx >= st.lastIdx {
        st := st.(lastIdx := idx, lastAt := d.at);
      }
      stats := stats[d.trackId := st];
    }
    assert dets[..|dets|] == dets;
  }

  method CollectPersonStats(frames: seq<Frame>) returns (stats: map<nat, TrackStats>)
    ensures stats == StatsOf(Sightings(frames))
  {
    stats := map[];
    for idx := 0 to |frames|
      invariant stats == StatsOf(Sightings(frames[..idx]))
    {
      SightingsStep(frames, idx);
      stats := CollectFrame(stats, idx, frames[idx], Sightings(frames[..idx]));
    }
    assert frames[..|frames|] == frames;
  }

  // ----- what the statistics mean -----

  ghost predicate IsFirstOf(s: seq<Sighting>, tid: nat, i: nat) {
    i < |s| && s[i].tid == tid && forall j :: 0 <= j < i ==> s[j].tid != tid
  }

  ghost predicate IsLastOf(s: seq<Sighting>, tid: nat, i: nat) {
    i < |s| && s[i].tid == tid && forall j :: i < j < |s| ==> s[j].tid != tid
  }

  function EmbeddingsOf(s: seq<Sighting>, tid: nat): seq<seq<real>> {
    if s == [] then []
    else
      var g := s[|s| - 1];
      EmbeddingsOf(s[..|s| - 1], tid) + if g.tid == tid && g.embedding != [] then [g.embedding] else []
  }

  lemma {:induction false} StatsKeys(s: seq<Sighting>, tid: nat)
    ensures tid in StatsOf(s) <==> exists i :: 0 <= i < |s| && s[i].tid == tid
  {
    if s != [] {
      var n := |s| - 1;
      StatsKeys(s[..n], tid);
      if tid in StatsOf(s) && s[n].tid != tid {
        var i :| 0 <= i < n && s[..n][i].tid == tid;
        assert s[i].tid == tid;
      }
      if i :| 0 <= i < |s| && s[i].tid == tid && i < n {
        assert s[..n][i].tid == tid;
      }
    }
  }

  ghost predicate Summarizes(s: seq<Sighting>, st: TrackStats, first: nat, last: nat)
    requires first < |s| && last < |s|
  {
    && (if s[first].idx < FIRST_IDX_SENTINEL then st.firstIdx == s[first].idx && st.firstAt == s[first].at
        else st.firstIdx == FIRST_IDX_SENTINEL)
    && st.lastIdx == s[last].idx && st.lastAt == s[last].at
  }

  lemma SummaryStep(s: seq<Sighting>, st: TrackStats, first: nat, last: nat)
    requires first <= last < |s| - 1 && InOrder(s) && Summarizes(s, st, first, last)
    ensures Summarizes(s, Updated(st, s[|s| - 1]), first, |s| - 1)
  {
    assert s[last].idx <= s[|s| - 1].idx && s[first].idx <= s[|s| - 1].idx;
  }

  /** The collected statistics are exactly the first and the last sighting of the track, in
      visiting order. */
  lemma {:induction false} StatsMeaning(s: seq<Sighting>, tid: nat) returns (first: nat, last: nat)
    requires InOrder(s)
    requires tid in StatsOf(s)
    ensures IsFirstOf(s, tid, first) && IsLastOf(s, tid, last) && first <= last
    ensures Summarizes(s, StatsOf(s)[tid], first, last)
  {
    var n := |s| - 1;
    var p, g := s[..n], s[n];
    if tid in StatsOf(p) {
      first, last := StatsMeaning(p, tid);
      assert Summarizes(s, StatsOf(p)[tid], first, last);
      if g.tid == tid {
        SummaryStep(s, StatsOf(p)[tid], first, last);
        last := n;
      }
    } else {
      first, last := n, n;
      StatsKeys(p, tid);
      assert forall j :: 0 <= j < n ==> p[j] == s[j];
    }
  }

  /** ... together with the embeddings of the track. */
  lemma {:induction false} StatsEmbeddings(s: seq<Sighting>, tid: nat)
    requires tid in StatsOf(s)
    ensures StatsOf(s)[tid].embeddings == EmbeddingsOf(s, tid)
  {
    var p := s[..|s| - 1];
    if tid in StatsOf(p) {
      StatsEmbeddings(p, tid);
    } else {
      NoEmbeddingsWithoutSightings(p, tid);
    }
  }

  lemma {:induction false} NoEmbeddingsWithoutSightings(s: seq<Sighting>, tid: nat)
    requires tid !in StatsOf(s)
    ensures EmbeddingsOf(s, tid) == []
  {
    if s != [] {
      NoEmbeddingsWithoutSightings(s[..|s| - 1], tid);
    }
  }

  // ----- one person at a time -----

  function TrackedCount(dets: Frame): nat {
    if dets == [] then 0
    else TrackedCount(dets[..|dets| - 1]) + if IsTrackedPerson(dets[|dets| - 1]) then 1 else 0
  }

  ghost predicate SinglePerson(frames: seq<Frame>) {
    forall i :: 0 <= i < |frames| ==> TrackedCount(frames[i]) <= 1
  }

  method IsSinglePersonAtATime(frames: seq<Frame>) returns (single: bool)
    ensures single <==> SinglePerson(frames)
  {
    for idx := 0 to |frames|
      invariant forall i :: 0 <= i < idx ==> TrackedCount(frames[i]) <= 1
    {
      var dets := frames[idx];
      var n := 0;
      for k := 0 to |dets|
        invariant n == TrackedCount(dets[..k])
      {
        assert dets[..k + 1][..k] == dets[..k];
        if dets[k].cue == Person && dets[k].trackId >= 0 {
          n := n + 1;
        }
      }
      assert dets[..|dets|] == dets;
      if n > 1 {
        return false;
      }
    }
    return true;
  }

  lemma {:induction false} FrameSightingsCount(idx: nat, dets: Frame)
    ensures |FrameSightings(idx, dets)| == TrackedCount(dets)
  {
    if dets != [] {
      FrameSightingsCount(idx, dets[..|dets| - 1]);
    }
  }

  /** In a one-person clip no two sightings share a frame. */
  lemma {:induction false} SinglePersonSightingsAreStrict(frames: seq<Frame>)
    requires SinglePerson(frames)
    ensures forall i, j :: 0 <= i < j < |Sightings(frames)| ==>
      Sightings(frames)[i].idx < Sightings(frames)[j].idx
  {
    if frames != [] {
      var n := |frames| - 1;
      var p, q := Sightings(frames[..n]), FrameSightings(n, frames[n]);
      SinglePersonSightingsAreStrict(frames[..n]);
      SightingsInOrder(frames[..n]);
      FrameSightingsIdx(n, frames[n]);
      FrameSightingsCount(n, frames[n]);
      assert TrackedCount(frames[n]) <= 1;
      assert Sightings(frames) == p + q;
    }
  }
}
