/** `build_person_id_remap` and `merge_fragmented_person_tracks` of
    cloud-ai/app/track_merge.py: a greedy best-predecessor search that feeds a union-find. */
module TrackMerge {
  import opened Wrappers
  import opened SetFacts
  import opened Detections
  import opened PersonStats
  import opened UnionFind

  const SHORT_GAP_NO_REID := 20

  /** The keyword arguments of the search. The distance and the cosine are square-root
      arithmetic; nothing here depends on which functions they are. */
  datatype Params = Params(
    similarityThreshold: real,
    maxGapFrames: int,
    maxSpatial: real,
    dist: (Point, Point) -> real,
    cosine: (seq<real>, seq<real>) -> real)

  /** Everything the pairwise test reads. */
  datatype Clip = Clip(stats: map<nat, TrackStats>, singlePerson: bool, params: Params)

  // ----- the pairwise test -----

  /** The score of stitching `later` onto `earlier`, or None where the source moves on to the
      next candidate. */
  function Score(c: Clip, earlier: nat, later: nat): Option<real>
    requires earlier in c.stats && later in c.stats
  {
    var e, l, p := c.stats[earlier], c.stats[later], c.params;
    if earlier == later || e.firstIdx >= l.firstIdx then None
    else
      var gap := l.firstIdx - e.lastIdx;
      if gap < 0 || gap > p.maxGapFrames then None
      else
        var dist := p.dist(l.firstAt, e.lastAt);
        if dist > p.maxSpatial then None
        else
          var earlierMean, laterMean := Mean(e.embeddings), Mean(l.embeddings);
          if earlierMean.Some? && laterMean.Some? then
            var sim := p.cosine(earlierMean.value, laterMean.value);
            if sim < p.similarityThreshold then None else Some(sim)
          else if c.singlePerson then Some(1.0 - dist)
          else if gap > SHORT_GAP_NO_REID then None
          else Some(1.0 - dist)
  }

  /** An admissible predecessor: it passes every test and beats the initial best score. */
  predicate Admissible(c: Clip, earlier: nat, later: nat)
    requires earlier in c.stats && later in c.stats
  {
    Score(c, earlier, later).Some? && Score(c, earlier, later).value > -1.0
  }

  /** The candidate order: first frame, then id. */
  predicate Before(stats: map<nat, TrackStats>, a: nat, b: nat)
    requires a in stats && b in stats
  {
    stats[a].firstIdx < stats[b].firstIdx || (stats[a].firstIdx == stats[b].firstIdx && a < b)
  }

  /** `b` is the choice among the candidates in `among`: highest score, earliest on a tie. */
  ghost predicate IsBestAmong(c: Clip, among: set<nat>, later: nat, b: nat)
    requires among <= c.stats.Keys && later in c.stats
  {
    && b in among && Admissible(c, b, later)
    && forall e {:trigger Admissible(c, e, later)} :: e in among && e != b && Admissible(c, e, later) ==>
         var sb, se := Score(c, b, later).value, Score(c, e, later).value;
         se < sb || (se == sb && Before(c.stats, b, e))
  }

  lemma {:induction false} BestExists(c: Clip, among: set<nat>, later: nat)
    requires among <= c.stats.Keys && later in c.stats
    requires exists e :: e in among && Admissible(c, e, later)
    ensures exists b :: IsBestAmong(c, among, later, b)
    decreases among
  {
    var e :| e in among && Admissible(c, e, later);
    var rest := among - {e};
    if r :| r in rest && Admissible(c, r, later) {
      BestExists(c, rest, later);
      var b0 :| IsBestAmong(c, rest, later, b0);
      var sb, se := Score(c, b0, later).value, Score(c, e, later).value;
      assert IsBestAmong(c, among, later, if se < sb || (se == sb && Before(c.stats, b0, e)) then b0 else e);
    } else {
      assert IsBestAmong(c, among, later, e);
    }
  }

  ghost predicate HasPredecessor(c: Clip, tid: nat)
    requires tid in c.stats
  {
    exists e {:trigger Admissible(c, e, tid)} :: e in c.stats && Admissible(c, e, tid)
  }

  ghost function Best(c: Clip, later: nat): nat
    requires later in c.stats && HasPredecessor(c, later)
  {
    BestExists(c, c.stats.Keys, later);
    var b :| IsBestAmong(c, c.stats.Keys, later, b);
    b
  }

  lemma BestMeaning(c: Clip, later: nat)
    requires later in c.stats && HasPredecessor(c, later)
    ensures IsBestAmong(c, c.stats.Keys, later, Best(c, later))
    ensures Best(c, later) in c.stats && c.stats[Best(c, later)].firstIdx < c.stats[later].firstIdx
  {
    BestExists(c, c.stats.Keys, later);
  }

  /** The plain recursion the union-find stands for: a track with no admissible predecessor is
      its own person, any other track is the person of its best predecessor. */
  ghost function Root(c: Clip, tid: nat): (r: nat)
    requires tid in c.stats
    ensures r in c.stats
    decreases c.stats[tid].firstIdx
  {
    if HasPredecessor(c, tid) then
      BestMeaning(c, tid);
      Root(c, Best(c, tid))
    else tid
  }

  ghost function RemapOf(c: Clip): map<nat, nat> {
    map tid | tid in c.stats && Root(c, tid) != tid :: Root(c, tid)
  }

  // ----- what the recursion means -----

  /** A canonical id is a fixed point, has no admissible predecessor, and was seen strictly
      before every other track it stands for. */
  lemma {:induction false} RootMeaning(c: Clip, tid: nat)
    requires tid in c.stats
    ensures Root(c, Root(c, tid)) == Root(c, tid)
    ensures !HasPredecessor(c, Root(c, tid))
    ensures Root(c, tid) != tid ==> c.stats[Root(c, tid)].firstIdx < c.stats[tid].firstIdx
    decreases c.stats[tid].firstIdx
  {
    if HasPredecessor(c, tid) {
      BestMeaning(c, tid);
      RootMeaning(c, Best(c, tid));
    }
  }

  /** Each class has exactly one earliest-seen member, and it is the canonical id. */
  lemma CanonicalIsUniqueEarliest(c: Clip, tid: nat, m: nat)
    requires tid in c.stats && m in c.stats && Root(c, m) == Root(c, tid)
    ensures c.stats[m].firstIdx <= c.stats[Root(c, tid)].firstIdx <==> m == Root(c, tid)
  {
    RootMeaning(c, m);
  }

  /** A track survives under its own id exactly when nothing admissible precedes it. */
  lemma KeptExactlyWithoutPredecessor(c: Clip, tid: nat)
    requires tid in c.stats
    ensures Root(c, tid) == tid <==> !HasPredecessor(c, tid)
  {
    if HasPredecessor(c, tid) {
      BestMeaning(c, tid);
      RootMeaning(c, Best(c, tid));
    }
  }

  // ----- the search -----

  ghost predicate Listed(candidates: seq<nat>, t: nat) {
    exists i :: 0 <= i < |candidates| && candidates[i] == t
  }

  /** The candidates are the keys of the statistics, in candidate order. */
  ghost predicate Sorted(stats: map<nat, TrackStats>, candidates: seq<nat>) {
    && (forall i :: 0 <= i < |candidates| ==> candidates[i] in stats)
    && (forall t {:trigger Listed(candidates, t)} :: t in stats ==> Listed(candidates, t))
    && forall i, j :: 0 <= i < j < |candidates| ==> Before(stats, candidates[i], candidates[j])
  }

  /** Python's `sorted` over the keys of a dict. */
  method SortCandidates(stats: map<nat, TrackStats>) returns (candidates: seq<nat>)
    ensures Sorted(stats, candidates)
  {
    candidates := [];
    var left := stats.Keys;
    while left != {}
      invariant left <= stats.Keys
      invariant forall t :: t in candidates <==> t in stats && t !in left
      invariant forall i, j :: 0 <= i < j < |candidates| ==> Before(stats, candidates[i], candidates[j])
      decreases left
    {
      assert exists t :: t in left;
      var t :| t in left;
      var at := 0;
      while at < |candidates| && Before(stats, candidates[at], t)
        invariant 0 <= at <= |candidates|
        invariant forall i :: 0 <= i < at ==> Before(stats, candidates[i], t)
      {
        at := at + 1;
      }
      assert forall i :: at <= i < |candidates| ==> Before(stats, t, candidates[i]);
      candidates := candidates[..at] + [t] + candidates[at..];
      left := left - {t};
    }
    forall t | t in stats ensures Listed(candidates, t) {
      assert t in candidates;
    }
  }

  predicate Beaten(c: Clip, best: nat, bestScore: real, later: nat, e: nat)
    requires best in c.stats && later in c.stats && e in c.stats
  {
    e != best && Admissible(c, e, later) ==>
      var se := Score(c, e, later).value;
      se < bestScore || (se == bestScore && Before(c.stats, best, e))
  }

  /** The inner loop over the candidates. */
  method FindBest(c: Clip, candidates: seq<nat>, later: nat) returns (best: Option<nat>)
    requires Sorted(c.stats, candidates) && later in c.stats
    ensures best.Some? <==> HasPredecessor(c, later)
    ensures best.Some? ==> best.value == Best(c, later)
  {
    best := None;
    var bestScore := -1.0;
    ghost var at := 0;
    for j := 0 to |candidates|
      invariant best.None? ==> bestScore == -1.0
      invariant best.None? ==> forall m :: 0 <= m < j ==> !Admissible(c, candidates[m], later)
      invariant best.Some? ==> at < j && candidates[at] == best.value && Admissible(c, best.value, later)
      invariant best.Some? ==> bestScore == Score(c, best.value, later).value
      invariant best.Some? ==> forall m :: 0 <= m < j ==> Beaten(c, best.value, bestScore, later, candidates[m])
    {
      var earlier := candidates[j];
      if earlier == later { continue; }
      var e, l := c.stats[earlier], c.stats[later];
      if e.firstIdx >= l.firstIdx { continue; }
      var gap := l.firstIdx - e.lastIdx;
      if gap < 0 || gap > c.params.maxGapFrames { continue; }
      var dist := c.params.dist(l.firstAt, e.lastAt);
      if dist > c.params.maxSpatial { continue; }
      var earlierMean := MeanEmbedding(e.embeddings);
      var laterMean := MeanEmbedding(l.embeddings);
      var score;
      if earlierMean.Some? && laterMean.Some? {
        var sim := c.params.cosine(earlierMean.value, laterMean.value);
        if sim < c.params.similarityThreshold { continue; }
        score := sim;
      } else if c.singlePerson {
        score := 1.0 - dist;
      } else {
        if gap > SHORT_GAP_NO_REID { continue; }
        score := 1.0 - dist;
      }
      assert Score(c, earlier, later) == Some(score);
      if score > bestScore {
        bestScore := score;
        best := Some(earlier);
        at := j;
      }
    }
    forall e | e in c.stats && Admissible(c, e, later)
      ensures best.Some? && Beaten(c, best.value, bestScore, later, e)
    {
      assert Listed(candidates, e);
    }
    if best.Some? {
      assert IsBestAmong(c, c.stats.Keys, later, best.value);
      BestMeaning(c, later);
      BestIsUnique(c, later, best.value, Best(c, later));
    }
  }

  lemma BestIsUnique(c: Clip, later: nat, a: nat, b: nat)
    requires later in c.stats
    requires IsBestAmong(c, c.stats.Keys, later, a) && IsBestAmong(c, c.stats.Keys, later, b)
    ensures a == b
  {
  }

  function ClipOf(frames: seq<Frame>, params: Params, singlePerson: bool): Clip {
    Clip(StatsOf(Sightings(frames)), singlePerson, params)
  }

  ghost function FramesClip(frames: seq<Frame>, params: Params): Clip {
    ClipOf(frames, params, SinglePerson(frames))
  }

  ghost function RankOf(stats: map<nat, TrackStats>): Table {
    map t | t in stats :: stats[t].firstIdx
  }

  /** After the first `k` candidates: those point at their canonical ids, the rest at
      themselves. */
  ghost predicate Resolved(c: Clip, candidates: seq<nat>, k: nat, parent: Table)
    requires Sorted(c.stats, candidates)
  {
    && parent.Keys == c.stats.Keys
    && forall i :: 0 <= i < |candidates| ==>
         Up(parent, candidates[i]) == if i < k then Root(c, candidates[i]) else candidates[i]
  }

  lemma ResolvedTop(c: Clip, candidates: seq<nat>, k: nat, parent: Table, i: nat)
    requires Sorted(c.stats, candidates) && k <= |candidates| && i < |candidates|
    requires Resolved(c, candidates, k, parent)
    ensures var top := if i < k then Root(c, candidates[i]) else candidates[i];
      Up(parent, candidates[i]) == top && IsTop(parent, top)
      && (top == candidates[i] || c.stats[top].firstIdx < c.stats[candidates[i]].firstIdx)
  {
    if i < k {
      RootMeaning(c, candidates[i]);
      assert Listed(candidates, Root(c, candidates[i]));
      var j :| 0 <= j < |candidates| && candidates[j] == Root(c, candidates[i]);
      assert j <= i;
    }
  }

  /** The table is ranked and of depth at most one at every loop head. */
  lemma ResolvedIsFlat(c: Clip, candidates: seq<nat>, k: nat, parent: Table)
    requires Sorted(c.stats, candidates) && k <= |candidates|
    requires Resolved(c, candidates, k, parent)
    ensures Flat(parent) && Ranked(parent, RankOf(c.stats))
  {
    var rank := RankOf(c.stats);
    assert rank.Keys == parent.Keys;
    forall t | t in parent
      ensures IsTop(parent, Up(parent, t))
      ensures Up(parent, t) == t || rank[Up(parent, t)] < rank[t]
    {
      assert Listed(candidates, t);
      var i :| 0 <= i < |candidates| && candidates[i] == t;
      ResolvedTop(c, candidates, k, parent, i);
    }
  }

  lemma SortedKeys(stats: map<nat, TrackStats>, candidates: seq<nat>)
    requires Sorted(stats, candidates)
    ensures forall t :: t in candidates <==> t in RankOf(stats)
  {
    forall t ensures t in candidates <==> t in RankOf(stats) {
      assert t in stats ==> Listed(candidates, t);
    }
  }

  lemma StartIsResolved(c: Clip, candidates: seq<nat>, parent: Table)
    requires Sorted(c.stats, candidates) && parent == map t | t in candidates :: t
    ensures Resolved(c, candidates, 0, parent)
  {
    SortedKeys(c.stats, candidates);
    assert parent.Keys == c.stats.Keys;
  }

  lemma ResolvedStep(c: Clip, candidates: seq<nat>, k: nat, was: Table, parent: Table)
    requires Sorted(c.stats, candidates) && k < |candidates| && Resolved(c, candidates, k, was)
    requires parent == was[candidates[k] := Root(c, candidates[k])]
    ensures Resolved(c, candidates, k + 1, parent)
  {
    assert parent.Keys == was.Keys;
    forall i | 0 <= i < |candidates|
      ensures Up(parent, candidates[i]) == if i < k + 1 then Root(c, candidates[i]) else candidates[i]
    {
      assert Up(was, candidates[i]) == if i < k then Root(c, candidates[i]) else candidates[i];
    }
  }

  /** One turn of the main loop: `parent[find(later)] = find(best_earlier)`. */
  method LinkToBest(c: Clip, candidates: seq<nat>, k: nat, table: ParentTable)
    requires Sorted(c.stats, candidates) && k < |candidates|
    requires table.rank == RankOf(c.stats) && Resolved(c, candidates, k, table.parent)
    modifies table
    ensures Resolved(c, candidates, k + 1, table.parent)
  {
    ResolvedIsFlat(c, candidates, k, table.parent);
    var later := candidates[k];
    ResolvedTop(c, candidates, k, table.parent, k);
    var best := FindBest(c, candidates, later);
    if best.Some? {
      BestMeaning(c, later);
      var j := PredecessorStandsEarlier(c, candidates, k, best.value);
      ResolvedTop(c, candidates, k, table.parent, j);
      var to := table.Find(best.value);
      var from := table.Find(later);
      assert from == later && to == Root(c, later);
      table.Link(from, to);
    }
    ResolvedStep(c, candidates, k, old(table.parent), table.parent);
  }

  lemma PredecessorStandsEarlier(c: Clip, candidates: seq<nat>, k: nat, b: nat) returns (j: nat)
    requires Sorted(c.stats, candidates) && k < |candidates|
    requires b in c.stats && Admissible(c, b, candidates[k])
    ensures j < k && candidates[j] == b
  {
    assert Listed(candidates, b);
    j :| 0 <= j < |candidates| && candidates[j] == b;
  }

  /** The main loop. */
  method LinkAll(c: Clip, candidates: seq<nat>, table: ParentTable)
    requires Sorted(c.stats, candidates)
    requires table.rank == RankOf(c.stats) && Resolved(c, candidates, 0, table.parent)
    modifies table
    ensures Resolved(c, candidates, |candidates|, table.parent)
  {
    for k := 0 to |candidates|
      invariant Resolved(c, candidates, k, table.parent)
    {
      LinkToBest(c, candidates, k, table);
    }
  }

  ghost function RemapUpTo(c: Clip, candidates: seq<nat>, k: nat): map<nat, nat>
    requires Sorted(c.stats, candidates) && k <= |candidates|
  {
    if k == 0 then map[]
    else
      var remap, tid := RemapUpTo(c, candidates, k - 1), candidates[k - 1];
      var root := Root(c, tid);
      if root != tid then remap[tid := root] else remap
  }

  lemma {:induction false} RemapUpToMeaning(c: Clip, candidates: seq<nat>, k: nat, t: nat)
    requires Sorted(c.stats, candidates) && k <= |candidates|
    ensures t in RemapUpTo(c, candidates, k) <==> t in candidates[..k] && Root(c, t) != t
    ensures t in RemapUpTo(c, candidates, k) ==> RemapUpTo(c, candidates, k)[t] == Root(c, t)
  {
    if k > 0 {
      RemapUpToMeaning(c, candidates, k - 1, t);
      assert candidates[..k] == candidates[..k - 1] + [candidates[k - 1]];
    }
  }

  /** `find(tid)` once the main loop is over. */
  method FindCanonical(c: Clip, candidates: seq<nat>, k: nat, table: ParentTable) returns (root: nat)
    requires Sorted(c.stats, candidates) && k < |candidates|
    requires table.rank == RankOf(c.stats) && Resolved(c, candidates, |candidates|, table.parent)
    modifies table
    ensures table.parent == old(table.parent)
    ensures root == Root(c, candidates[k])
  {
    ResolvedIsFlat(c, candidates, |candidates|, table.parent);
    ResolvedTop(c, candidates, |candidates|, table.parent, k);
    root := table.Find(candidates[k]);
  }

  /** The final loop over the candidates. */
  method ReadRemap(c: Clip, candidates: seq<nat>, table: ParentTable) returns (remap: map<nat, nat>)
    requires Sorted(c.stats, candidates)
    requires table.rank == RankOf(c.stats) && Resolved(c, candidates, |candidates|, table.parent)
    modifies table
    ensures remap == RemapUpTo(c, candidates, |candidates|)
  {
    remap := map[];
    for k := 0 to |candidates|
      invariant table.parent == old(table.parent)
      invariant remap == RemapUpTo(c, candidates, k)
    {
      remap := ReadOne(c, candidates, k, table, remap);
    }
  }

  method ReadOne(c: Clip, candidates: seq<nat>, k: nat, table: ParentTable, before: map<nat, nat>)
    returns (remap: map<nat, nat>)
    requires Sorted(c.stats, candidates) && k < |candidates|
    requires table.rank == RankOf(c.stats) && Resolved(c, candidates, |candidates|, table.parent)
    requires before == RemapUpTo(c, candidates, k)
    modifies table
    ensures table.parent == old(table.parent)
    ensures remap == RemapUpTo(c, candidates, k + 1)
  {
    var tid := candidates[k];
    var root := FindCanonical(c, candidates, k, table);
    return if root != tid then before[tid := root] else before;
  }

  lemma RemapUpToIsRemapOf(c: Clip, candidates: seq<nat>)
    requires Sorted(c.stats, candidates)
    ensures RemapUpTo(c, candidates, |candidates|) == RemapOf(c)
  {
    var full := RemapUpTo(c, candidates, |candidates|);
    forall t
      ensures t in full <==> t in RemapOf(c)
      ensures t in full ==> full[t] == RemapOf(c)[t]
    {
      RemapUpToMeaning(c, candidates, |candidates|, t);
      assert candidates[..|candidates|] == candidates;
      assert t in c.stats ==> Listed(candidates, t);
    }
  }

  /** `build_person_id_remap` from the statistics on. */
  method RemapClip(c: Clip) returns (remap: map<nat, nat>)
    ensures remap == RemapOf(c)
  {
    var candidates := SortCandidates(c.stats);
    SortedKeys(c.stats, candidates);
    var table := new ParentTable(candidates, RankOf(c.stats));
    StartIsResolved(c, candidates, table.parent);
    LinkAll(c, candidates, table);
    remap := ReadRemap(c, candidates, table);
    RemapUpToIsRemapOf(c, candidates);
  }

  /** `build_person_id_remap`: the union-find computes the plain recursion. */
  method BuildPersonIdRemap(frames: seq<Frame>, params: Params) returns (remap: map<nat, nat>)
    ensures remap == RemapOf(FramesClip(frames, params))
  {
    var stats := CollectPersonStats(frames);
    if |stats| < 2 {
      FewTracksNeedNoRemap(FramesClip(frames, params));
      return map[];
    }
    var single := IsSinglePersonAtATime(frames);
    remap := RemapClip(Clip(stats, single, params));
  }

  lemma FewTracksNeedNoRemap(c: Clip)
    requires |c.stats| < 2
    ensures RemapOf(c) == map[]
  {
    forall t | t in c.stats ensures Root(c, t) == t {
      if Root(c, t) != t {
        assert {t, Root(c, t)} <= c.stats.Keys;
        SubsetSize({t, Root(c, t)}, c.stats.Keys);
      }
    }
  }
}
