/** The one pass over all detections in `extract_events` (cloud-ai/app/events.py). */
module EventCues {
  import opened Wrappers
  import opened Detections
  import opened Zones

  predicate ShelfLike(zoneType: ZoneType) {
    zoneType == Shelf || zoneType == HighValue
  }

  // ----- Python's `or` -----

  predicate Truthy(id: Option<string>) {
    id.Some? && id.value != ""
  }

  function Or(a: Option<string>, b: Option<string>): Option<string> {
    if Truthy(a) then a else b
  }

  function OrId(a: int, b: int): int {
    if a != 0 then a else b
  }

  // ----- nearest person -----

  function SquaredDistance(p: Point, q: Point): real {
    (p.x - q.x) * (p.x - q.x) + (p.y - q.y) * (p.y - q.y)
  }

  function DistanceFrom(at: Point): Point -> real {
    p => SquaredDistance(p, at)
  }

  /** The first of the tracked persons at the least distance. */
  ghost predicate IsNearest(dist: Point -> real, dets: Frame, i: nat) {
    && i < |dets| && IsTrackedPerson(dets[i])
    && (forall j :: 0 <= j < |dets| && IsTrackedPerson(dets[j]) ==> dist(dets[i].at) <= dist(dets[j].at))
    && forall j :: 0 <= j < i && IsTrackedPerson(dets[j]) ==> dist(dets[i].at) < dist(dets[j].at)
  }

  ghost predicate NobodyIn(dets: Frame) {
    forall j :: 0 <= j < |dets| ==> !IsTrackedPerson(dets[j])
  }

  ghost function NearestBy(dist: Point -> real, dets: Frame): int {
    if exists i: nat :: IsNearest(dist, dets, i) then
      var i: nat :| IsNearest(dist, dets, i);
      dets[i].trackId
    else 0
  }

  ghost function Nearest(at: Point, dets: Frame): int {
    NearestBy(DistanceFrom(at), dets)
  }

  /** Its meaning: the closest tracked person, the first of them on a tie, or nobody. */
  lemma NearestMeaning(dist: Point -> real, dets: Frame, i: nat)
    ensures IsNearest(dist, dets, i) ==> NearestBy(dist, dets) == dets[i].trackId
    ensures NobodyIn(dets) ==> NearestBy(dist, dets) == 0
  {
    if IsNearest(dist, dets, i) {
      var j: nat :| IsNearest(dist, dets, j) && NearestBy(dist, dets) == dets[j].trackId;
      NearestIsUnique(dist, dets, i, j);
      NearestIsUnique(dist, dets, j, i);
    }
  }

  lemma NearestIsUnique(dist: Point -> real, dets: Frame, i: nat, j: nat)
    requires IsNearest(dist, dets, i) && IsNearest(dist, dets, j)
    ensures i >= j
  {
    assert IsTrackedPerson(dets[i]) && IsTrackedPerson(dets[j]);
    assert dist(dets[i].at) <= dist(dets[j].at);
  }

  method FindNearest(dist: Point -> real, dets: Frame) returns (id: int)
    ensures id == NearestBy(dist, dets)
    ensures NobodyIn(dets) || exists i: nat :: IsNearest(dist, dets, i)
  {
    id := 0;
    var bestDist: Option<real> := None;
    ghost var best := 0;
    for k := 0 to |dets|
      invariant bestDist.None? ==> id == 0 && NobodyIn(dets[..k])
      invariant bestDist.Some? ==>
        IsNearest(dist, dets[..k], best) && bestDist.value == dist(dets[best].at) && id == dets[best].trackId
    {
      var p := dets[k];
      if p.cue != Person || p.trackId < 0 {
        continue;
      }
      var d := dist(p.at);
      if bestDist.None? || d < bestDist.value {
        bestDist := Some(d);
        id := p.trackId;
        best := k;
      }
    }
    assert dets[..|dets|] == dets;
    NearestMeaning(dist, dets, best);
  }

  /** `_nearest_person_track`: the id of the closest tracked person, 0 when there is none. */
  method NearestPersonTrack(at: Point, dets: Frame) returns (id: int)
    ensures id == Nearest(at, dets)
  {
    id := FindNearest(DistanceFrom(at), dets);
  }

  // ----- zones around a detection -----

  function ShelfZones(zones: seq<Zone>): seq<Zone> {
    if zones == [] then []
    else
      var z := zones[|zones| - 1];
      ShelfZones(zones[..|zones| - 1]) + if ShelfLike(z.zoneType) then [z] else []
  }

  /** The first high-value zone. */
  function HighValueZone(zones: seq<Zone>): Option<Zone> {
    if zones == [] then None
    else if zones[0].zoneType == HighValue then Some(zones[0])
    else HighValueZone(zones[1..])
  }

  function TypesOf(zones: seq<Zone>): set<ZoneType> {
    set i | 0 <= i < |zones| :: zones[i].zoneType
  }

  /** `by_type.get(zoneType)`: the id of the last zone of that type. */
  function ByType(zones: seq<Zone>, zoneType: ZoneType): Option<string> {
    if zones == [] then None
    else if zones[|zones| - 1].zoneType == zoneType then zones[|zones| - 1].id
    else ByType(zones[..|zones| - 1], zoneType)
  }

  // ----- what is accumulated -----

  /** A sighting of a person track: the frame and the zones around it. */
  datatype Visit = Visit(idx: nat, zones: seq<Zone>)

  datatype Timeline = Timeline(track: int, visits: seq<Visit>)

  datatype TrackEmbedding = TrackEmbedding(track: int, embedding: seq<real>)

  datatype BagSignal = BagSignal(dets: nat, zone: Option<string>, conf: real, lastIdx: int, track: int)

  datatype Handling = Handling(
    episodes: nat, zone: Option<string>, track: int, prev: bool, firstIdx: int, inShelf: bool)

  datatype Conceal = Conceal(dets: nat, zone: Option<string>, inHighValue: bool, track: int)

  datatype HighValueCues = HighValueCues(
    person: bool, product: bool, bag: bool, zone: Option<string>, track: int)

  datatype Group = Group(max: nat, zone: Option<string>, track: int)

  datatype Cues = Cues(
    tracks: seq<Timeline>, embeddings: seq<TrackEmbedding>,
    openBag: BagSignal, bag: BagSignal, handling: Handling,
    conceal: Conceal, highValue: HighValueCues, group: Group)

  /** The four variables reset at every frame. */
  datatype FrameCues = FrameCues(
    handlingNow: bool, personsInShelf: nat, shelfZone: Option<string>, shelfTrack: int)

  datatype Scan = Scan(cues: Cues, frame: FrameCues)

  const NO_BAG := BagSignal(0, None, 0.0, -1, 0)
  const NO_FRAME := FrameCues(false, 0, None, 0)
  const NO_CUES := Cues([], [], NO_BAG, NO_BAG,
    Handling(0, None, 0, false, -1, false), Conceal(0, None, false, 0),
    HighValueCues(false, false, false, None, 0), Group(0, None, 0))

  /** What one detection contributes: its own fields, the zones that contain it and the nearest
      person of its frame. */
  datatype View = View(
    idx: nat, cue: Cue, track: int, conf: real, embedding: seq<real>, zones: seq<Zone>, near: int)

  datatype Step = See(view: View) | EndOfFrame

  // ----- one step -----

  function Append(tracks: seq<Timeline>, track: int, v: Visit): seq<Timeline> {
    if tracks == [] then [Timeline(track, [v])]
    else if tracks[0].track == track then [tracks[0].(visits := tracks[0].visits + [v])] + tracks[1..]
    else [tracks[0]] + Append(tracks[1..], track, v)
  }

  function EmbeddingOf(embeddings: seq<TrackEmbedding>, track: int): seq<real> {
    if embeddings == [] then []
    else if embeddings[0].track == track then embeddings[0].embedding
    else EmbeddingOf(embeddings[1..], track)
  }

  function SeePerson(s: Scan, v: View): Scan {
    var shelf, hv := ShelfZones(v.zones), HighValueZone(v.zones);
    var c, f := s.cues, s.frame;
    var embeddings :=
      if v.embedding != [] && EmbeddingOf(c.embeddings, v.track) == []
      then c.embeddings + [TrackEmbedding(v.track, v.embedding)] else c.embeddings;
    var frame :=
      if shelf == [] then f
      else f.(personsInShelf := f.personsInShelf + 1,
              shelfZone := Or(f.shelfZone, shelf[0].id), shelfTrack := OrId(f.shelfTrack, v.track));
    var highValue :=
      if hv.None? then c.highValue
      else c.highValue.(person := true, zone := Or(c.highValue.zone, hv.value.id),
                        track := OrId(c.highValue.track, v.track));
    Scan(c.(tracks := Append(c.tracks, v.track, Visit(v.idx, v.zones)),
            embeddings := embeddings, highValue := highValue), frame)
  }

  /** A bag sighting near a shelf takes over when it is at least as confident as the best so
      far; within one sighting the last shelf zone wins. */
  function SeeBag(b: BagSignal, v: View): BagSignal {
    var shelf := ShelfZones(v.zones);
    var counted := b.(dets := b.dets + 1);
    if shelf == [] || v.conf < b.conf then counted
    else counted.(zone := shelf[|shelf| - 1].id, conf := v.conf, lastIdx := v.idx,
                  track := if v.near != 0 then v.near else b.track)
  }

  function SeeProduct(h: Handling, v: View): Handling {
    var shelf := ShelfZones(v.zones);
    if shelf == [] then h
    else h.(inShelf := true, zone := Or(h.zone, shelf[0].id),
            track := if h.track == 0 && v.near != 0 then v.near else h.track,
            firstIdx := if h.firstIdx < 0 then v.idx else h.firstIdx)
  }

  function SeeConceal(k: Conceal, v: View): Conceal {
    var shelf := ShelfZones(v.zones);
    k.(dets := k.dets + 1,
       track := if k.track == 0 && v.near != 0 then v.near else k.track,
       zone := if shelf != [] then Or(k.zone, shelf[0].id) else k.zone,
       inHighValue := k.inHighValue || HighValueZone(v.zones).Some?)
  }

  function Observe(s: Scan, v: View): Scan {
    var c, f, inHighValue := s.cues, s.frame, HighValueZone(v.zones).Some?;
    if v.cue == Person then SeePerson(s, v)
    else if v.cue == OpenBag then
      s.(cues := c.(openBag := SeeBag(c.openBag, v),
                    highValue := c.highValue.(bag := c.highValue.bag || inHighValue)))
    else if v.cue == PlainBag then
      s.(cues := c.(bag := SeeBag(c.bag, v),
                    highValue := c.highValue.(bag := c.highValue.bag || inHighValue)))
    else if v.cue == ProductInHand then
      Scan(c.(handling := SeeProduct(c.handling, v),
              highValue := c.highValue.(product := c.highValue.product || inHighValue)),
           f.(handlingNow := f.handlingNow || ShelfZones(v.zones) != []))
    else if v.cue == Hiding then s.(cues := c.(conceal := SeeConceal(c.conceal, v)))
    else s
  }

  /** What the source does after the detections of a frame. */
  function CloseFrame(s: Scan): Scan {
    var c, f := s.cues, s.frame;
    var handling := c.handling.(
      episodes := c.handling.episodes + if f.handlingNow && !c.handling.prev then 1 else 0,
      prev := f.handlingNow);
    var group := if f.personsInShelf > c.group.max then Group(f.personsInShelf, f.shelfZone, f.shelfTrack)
                 else c.group;
    Scan(c.(handling := handling, group := group), NO_FRAME)
  }

  function Advance(s: Scan, step: Step): Scan {
    match step
    case See(v) => Observe(s, v)
    case EndOfFrame => CloseFrame(s)
  }

  function Fold(steps: seq<Step>): Scan {
    if steps == [] then Scan(NO_CUES, NO_FRAME)
    else Advance(Fold(steps[..|steps| - 1]), steps[|steps| - 1])
  }

  // ----- the steps of a clip -----

  ghost function ViewOf(idx: nat, dets: Frame, k: nat, zones: seq<Zone>): View
    requires k < |dets|
  {
    var d := dets[k];
    View(idx, d.cue, d.trackId, d.conf, d.embedding, Containing(d.at, zones), Nearest(d.at, dets))
  }

  ghost function FrameSteps(idx: nat, dets: Frame, zones: seq<Zone>, k: nat): seq<Step>
    requires k <= |dets|
  {
    if k == 0 then [] else FrameSteps(idx, dets, zones, k - 1) + [See(ViewOf(idx, dets, k - 1, zones))]
  }

  ghost function StepsOf(frames: seq<Frame>, zones: seq<Zone>): seq<Step> {
    if frames == [] then []
    else
      var n := |frames| - 1;
      StepsOf(frames[..n], zones) + FrameSteps(n, frames[n], zones, |frames[n]|) + [EndOfFrame]
  }

  ghost function CuesOf(frames: seq<Frame>, zones: seq<Zone>): Cues {
    Fold(StepsOf(frames, zones)).cues
  }

  // ----- the loops -----

  lemma FoldSnoc(steps: seq<Step>, step: Step)
    ensures Fold(steps + [step]) == Advance(Fold(steps), step)
  {
    assert (steps + [step])[..|steps|] == steps;
  }

  /** These steps look at the first detections of the frame, in order. */
  ghost predicate AreViews(steps: seq<Step>, idx: nat, dets: Frame, zones: seq<Zone>) {
    |steps| <= |dets| && forall k :: 0 <= k < |steps| ==> steps[k] == See(ViewOf(idx, dets, k, zones))
  }

  lemma {:induction false} FrameStepsAt(idx: nat, dets: Frame, zones: seq<Zone>, n: nat, k: nat)
    requires n <= |dets|
    ensures |FrameSteps(idx, dets, zones, n)| == n
    ensures k < n ==> FrameSteps(idx, dets, zones, n)[k] == See(ViewOf(idx, dets, k, zones))
  {
    if n > 0 {
      FrameStepsAt(idx, dets, zones, n - 1, k);
    }
  }

  lemma FrameStepsAreViews(idx: nat, dets: Frame, zones: seq<Zone>, n: nat)
    requires n <= |dets|
    ensures |FrameSteps(idx, dets, zones, n)| == n
    ensures AreViews(FrameSteps(idx, dets, zones, n), idx, dets, zones)
  {
    FrameStepsAt(idx, dets, zones, n, 0);
    forall k: nat | k < n ensures FrameSteps(idx, dets, zones, n)[k] == See(ViewOf(idx, dets, k, zones)) {
      FrameStepsAt(idx, dets, zones, n, k);
    }
  }

  /** Some steps that follow others, but for the last. */
  lemma JoinNext(before: seq<Step>, steps: seq<Step>)
    requires steps != []
    ensures var n := |steps| - 1; before + steps == before + steps[..n] + [steps[n]]
  {
  }

  /** The loop over the shelf zones of a bag sighting. */
  method ObserveBag(b0: BagSignal, v: View, shelf: seq<Zone>) returns (b: BagSignal)
    requires shelf == ShelfZones(v.zones)
    ensures b == SeeBag(b0, v)
  {
    b := b0.(dets := b0.dets + 1);
    for k := 0 to |shelf|
      invariant b == if k == 0 || v.conf < b0.conf then b0.(dets := b0.dets + 1)
        else b0.(dets := b0.dets + 1, zone := shelf[k - 1].id, conf := v.conf, lastIdx := v.idx,
                 track := if v.near != 0 then v.near else b0.track)
    {
      if v.conf >= b.conf {
        b := b.(zone := shelf[k].id, conf := v.conf, lastIdx := v.idx);
        if v.near != 0 {
          b := b.(track := v.near);
        }
      }
    }
  }

  method FilterShelf(zones: seq<Zone>) returns (shelf: seq<Zone>)
    ensures shelf == ShelfZones(zones)
  {
    shelf := [];
    for k := 0 to |zones|
      invariant shelf == ShelfZones(zones[..k])
    {
      assert zones[..k + 1][..k] == zones[..k];
      if ShelfLike(zones[k].zoneType) {
        shelf := shelf + [zones[k]];
      }
    }
    assert zones[..|zones|] == zones;
  }

  /** One detection, branch by branch. */
  method ObserveDetection(s0: Scan, v: View) returns (s: Scan)
    ensures s == Observe(s0, v)
  {
    var shelf := FilterShelf(v.zones);
    var hv := HighValueZone(v.zones);
    var c, f := s0.cues, s0.frame;
    if v.cue == Person {
      c := c.(tracks := Append(c.tracks, v.track, Visit(v.idx, v.zones)));
      if v.embedding != [] && EmbeddingOf(c.embeddings, v.track) == [] {
        c := c.(embeddings := c.embeddings + [TrackEmbedding(v.track, v.embedding)]);
      }
      if shelf != [] {
        f := f.(personsInShelf := f.personsInShelf + 1);
        f := f.(shelfZone := Or(f.shelfZone, shelf[0].id), shelfTrack := OrId(f.shelfTrack, v.track));
      }
      if hv.Some? {
        c := c.(highValue := HighValueCues(true, c.highValue.product, c.highValue.bag,
                                       Or(c.highValue.zone, hv.value.id), OrId(c.highValue.track, v.track)));
      }
    } else if v.cue == OpenBag {
      var bag := ObserveBag(c.openBag, v, shelf);
      c := c.(openBag := bag);
      if hv.Some? {
        c := c.(highValue := c.highValue.(bag := true));
      }
    } else if v.cue == PlainBag {
      var bag := ObserveBag(c.bag, v, shelf);
      c := c.(bag := bag);
      if hv.Some? {
        c := c.(highValue := c.highValue.(bag := true));
      }
    } else if v.cue == ProductInHand {
      if shelf != [] {
        f := f.(handlingNow := true);
        var h := c.handling.(inShelf := true, zone := Or(c.handling.zone, shelf[0].id));
        if h.track == 0 && v.near != 0 {
          h := h.(track := v.near);
        }
        if h.firstIdx < 0 {
          h := h.(firstIdx := v.idx);
        }
        c := c.(handling := h);
      }
      if hv.Some? {
        c := c.(highValue := c.highValue.(product := true));
      }
    } else if v.cue == Hiding {
      var k := c.conceal.(dets := c.conceal.dets + 1);
      if k.track == 0 && v.near != 0 {
        k := k.(track := v.near);
      }
      if shelf != [] {
        k := k.(zone := Or(k.zone, shelf[0].id));
      }
      if hv.Some? {
        k := k.(inHighValue := true);
      }
      c := c.(conceal := k);
    }
    s := Scan(c, f);
  }

  /** The two nested loops over frames and detections. */
  method ScanClip(frames: seq<Frame>, zones: seq<Zone>) returns (c: Cues)
    ensures c == CuesOf(frames, zones)
  {
    var s := Scan(NO_CUES, NO_FRAME);
    for idx := 0 to |frames|
      invariant s == Fold(StepsOf(frames[..idx], zones))
    {
      s := ScanFrame(s, idx, frames[idx], zones, StepsOf(frames[..idx], zones));
      assert frames[..idx + 1][..idx] == frames[..idx];
    }
    assert frames[..|frames|] == frames;
    c := s.cues;
  }

  method ScanFrame(s0: Scan, idx: nat, dets: Frame, zones: seq<Zone>, ghost before: seq<Step>)
    returns (s: Scan)
    requires s0 == Fold(before)
    ensures s == Fold(before + FrameSteps(idx, dets, zones, |dets|) + [EndOfFrame])
  {
    ghost var steps;
    s, steps := ScanDetections(s0, idx, dets, zones, before);
    FoldSnoc(steps, EndOfFrame);
    s := CloseFrame(s);
  }

  method ScanDetections(s0: Scan, idx: nat, dets: Frame, zones: seq<Zone>, ghost before: seq<Step>)
    returns (s: Scan, ghost steps: seq<Step>)
    requires s0 == Fold(before)
    ensures steps == before + FrameSteps(idx, dets, zones, |dets|) && s == Fold(steps)
  {
    s, steps := s0, before;
    for k := 0 to |dets|
      invariant steps == before + FrameSteps(idx, dets, zones, k)
      invariant s == Fold(steps)
    {
      s, steps := ScanDetection(s, idx, dets, k, zones, steps);
    }
  }

  method ScanDetection(s0: Scan, idx: nat, dets: Frame, k: nat, zones: seq<Zone>, ghost before: seq<Step>)
    returns (s: Scan, ghost steps: seq<Step>)
    requires k < |dets| && s0 == Fold(before)
    ensures steps == before + [See(ViewOf(idx, dets, k, zones))] && s == Fold(steps)
  {
    var v := LookAt(idx, dets, k, zones);
    s := ObserveDetection(s0, v);
    steps := before + [See(v)];
    FoldSnoc(before, See(v));
  }

  method LookAt(idx: nat, dets: Frame, k: nat, zones: seq<Zone>) returns (v: View)
    requires k < |dets|
    ensures v == ViewOf(idx, dets, k, zones)
  {
    var d := dets[k];
    var containing := ZonesContaining(d.at.x, d.at.y, zones);
    var near := NearestPersonTrack(d.at, dets);
    v := View(idx, d.cue, d.trackId, d.conf, d.embedding, containing, near);
  }
}
