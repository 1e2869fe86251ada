/** Whom and what the events name (cloud-ai/app/events.py): zones, tracks, embeddings and the fixed
    values and confidences. */
module EventNames {
  import opened Wrappers
  import opened Detections
  import opened Zones
  import opened EventTypes
  import opened EventCues
  import opened EventTimelines
  import opened EventExtraction
  import opened EventMeaning
  import opened EventSources
  import opened EventTheorems

  // ----- embeddings -----

  ghost predicate Shown(steps: seq<Step>, p: nat, track: int) {
    SeesCue(steps, p, Person) && steps[p].view.track == track && steps[p].view.embedding != []
  }

  ghost predicate FirstShown(steps: seq<Step>, p: nat, track: int) {
    Shown(steps, p, track) && forall q: nat :: q < p ==> !Shown(steps, q, track)
  }

  predicate NoneEmpty(embeddings: seq<TrackEmbedding>) {
    forall i :: 0 <= i < |embeddings| ==> embeddings[i].embedding != []
  }

  lemma {:induction false} EmbeddingSnoc(embeddings: seq<TrackEmbedding>, e: TrackEmbedding, track: int)
    requires NoneEmpty(embeddings)
    ensures EmbeddingOf(embeddings + [e], track)
      == if EmbeddingOf(embeddings, track) != [] then EmbeddingOf(embeddings, track)
         else if e.track == track then e.embedding else []
  {
    if embeddings == [] {
      assert [] + [e] == [e];
    } else {
      assert (embeddings + [e])[1..] == embeddings[1..] + [e];
      if embeddings[0].track != track {
        EmbeddingSnoc(embeddings[1..], e, track);
      }
    }
  }

  lemma StepEmbeddings(s: Scan, step: Step)
    ensures var kept := s.cues.embeddings;
      Advance(s, step).cues.embeddings ==
        if step.See? && step.view.cue == Person && step.view.embedding != [] && EmbeddingOf(kept, step.view.track) == []
        then kept + [TrackEmbedding(step.view.track, step.view.embedding)] else kept
  {
  }

  lemma ShownSnoc(rest: seq<Step>, step: Step, p: nat, track: int)
    ensures Shown(rest + [step], p, track) <==>
      if p == |rest| then step.See? && step.view.cue == Person && step.view.track == track && step.view.embedding != []
      else Shown(rest, p, track)
  {
    assert p < |rest| ==> (rest + [step])[p] == rest[p];
  }

  /** What is kept of a track: the embedding of its first sighting that has one, or nothing. */
  ghost predicate KeepsFirst(steps: seq<Step>, track: int, kept: seq<real>) {
    && (kept == [] <==> forall p: nat :: !Shown(steps, p, track))
    && forall p: nat :: FirstShown(steps, p, track) ==> kept == steps[p].view.embedding
  }

  lemma KeepsFirstSnoc(rest: seq<Step>, step: Step, track: int, kept: seq<real>)
    requires KeepsFirst(rest, track, kept)
    ensures var shows := step.See? && step.view.cue == Person && step.view.track == track && step.view.embedding != [];
      KeepsFirst(rest + [step], track, if kept == [] && shows then step.view.embedding else kept)
  {
    var all := rest + [step];
    forall p: nat
      ensures p < |rest| ==> (Shown(all, p, track) <==> Shown(rest, p, track))
      ensures p > |rest| ==> !Shown(all, p, track)
    {
      ShownSnoc(rest, step, p, track);
    }
    ShownSnoc(rest, step, |rest|, track);
    if kept != [] {
      var q: nat :| Shown(rest, q, track);
      assert Shown(all, q, track);
      forall p: nat | FirstShown(all, p, track) ensures FirstShown(rest, p, track) {
        assert p <= q;
      }
    }
  }

  lemma {:induction false} EmbeddingMeaning(steps: seq<Step>, track: int)
    ensures NoneEmpty(Fold(steps).cues.embeddings)
    ensures KeepsFirst(steps, track, EmbeddingOf(Fold(steps).cues.embeddings, track))
  {
    if steps != [] {
      var rest, step := steps[..|steps| - 1], steps[|steps| - 1];
      assert steps == rest + [step];
      EmbeddingMeaning(rest, track);
      StepEmbeddings(Fold(rest), step);
      KeepsFirstSnoc(rest, step, track, EmbeddingOf(Fold(rest).cues.embeddings, track));
      if step.See? {
        EmbeddingSnoc(Fold(rest).cues.embeddings, TrackEmbedding(step.view.track, step.view.embedding), track);
      }
    }
  }

  predicate CarriesEmbedding(t: AiEventType) {
    t == ShelfPickupNoCheckout || t == ExitWithoutCheckout || t == LowStaffRemoval
  }

  lemma EvidenceEmbedding(c: Cues, a: Across, t: AiEventType)
    requires Evidence(c, a, t).Some?
    ensures var e := Evidence(c, a, t).value;
      e.embedding == if CarriesEmbedding(t) then EmbeddingOf(c.embeddings, e.trackId) else []
  {
  }

  /** An exit or a removal carries the first embedding of the track it names; no other event
      carries any. */
  lemma EmbeddingExactly(fps: real, frames: seq<Frame>, zones: seq<Zone>, t: AiEventType)
    requires Evidence(CuesOf(frames, zones), SignalsOf(fps, frames, zones), t).Some?
    ensures var e := Evidence(CuesOf(frames, zones), SignalsOf(fps, frames, zones), t).value;
      if CarriesEmbedding(t) then KeepsFirst(StepsOf(frames, zones), e.trackId, e.embedding) else e.embedding == []
  {
    var e := Evidence(CuesOf(frames, zones), SignalsOf(fps, frames, zones), t).value;
    EvidenceEmbedding(CuesOf(frames, zones), SignalsOf(fps, frames, zones), t);
    EmbeddingMeaning(StepsOf(frames, zones), e.trackId);
  }

  // ----- values and confidences -----

  const PLAIN_SIGNALS: set<AiEventType> :=
    {HighValueZoneEntry, Concealment, ShelfPickupNoCheckout, ExitWithoutCheckout, BlindSpotMovement, LowStaffRemoval,
     BagOpen}

  /** The numbers that do not depend on the clip. */
  lemma FixedNumbers(c: Cues, a: Across, t: AiEventType)
    requires Evidence(c, a, t).Some?
    ensures var e := Evidence(c, a, t).value;
      && e.eventType == t
      && (t in PLAIN_SIGNALS ==> e.value == 1.0)
      && (t in {HighValueZoneEntry, Dwell} ==> e.confidence == 0.9)
      && (t in {BlindSpotMovement, HighValueActivity} ==> e.confidence == 0.8)
      && (t in {Concealment, ShelfPickupNoCheckout, ExitWithoutCheckout, GroupDistraction} ==> e.confidence == 0.7)
      && (t == LowStaffRemoval ==> e.confidence == 0.6)
      && (t == RepeatedHandling ==> e.confidence == if c.handling.episodes > 0 then 0.85 else 0.7)
  {
  }

  // ----- the group -----

  /** The track of each sighting of a person at a shelf. */
  function ShelfTracks(steps: seq<Step>): seq<int> {
    if steps == [] then []
    else ShelfTracks(steps[..|steps| - 1]) + ShelfTrackOf(steps[|steps| - 1])
  }

  function ShelfTrackOf(step: Step): seq<int> {
    if step.See? && step.view.cue == Person && AtShelf(step.view) then [step.view.track] else []
  }

  lemma StepShelf(s: Scan, v: View)
    ensures var f, g := s.frame, Observe(s, v).frame;
      var ids, tracks := ShelfIdOf(See(v), Person), ShelfTrackOf(See(v));
      && g.shelfZone == (if ids == [] then f.shelfZone else Or(f.shelfZone, ids[0]))
      && g.shelfTrack == (if tracks == [] then f.shelfTrack else OrId(f.shelfTrack, tracks[0]))
  {
  }

  lemma {:induction false} FrameNames(before: seq<Step>, steps: seq<Step>, idx: nat)
    requires AllIn(steps, idx) && Fold(before).frame == NO_FRAME
    ensures var f := Fold(before + steps).frame;
      f.shelfZone == OrAll(ShelfIds(steps, Person)) && f.shelfTrack == OrIdAll(ShelfTracks(steps))
  {
    if steps == [] {
      assert before + steps == before;
    } else {
      var n := |steps| - 1;
      FrameNames(before, steps[..n], idx);
      JoinNext(before, steps);
      FoldSnoc(before + steps[..n], steps[n]);
      StepShelf(Fold(before + steps[..n]), steps[n].view);
      OrAllJoin(ShelfIds(steps[..n], Person), ShelfIdOf(steps[n], Person));
      OrIdAllJoin(ShelfTracks(steps[..n]), ShelfTrackOf(steps[n]));
    }
  }

  predicate IsFirstMaximum(sizes: seq<nat>, i: nat) {
    && i < |sizes| && (forall j :: 0 <= j < |sizes| ==> sizes[j] <= sizes[i])
    && forall j :: 0 <= j < i ==> sizes[j] < sizes[i]
  }

  predicate AllZero(sizes: seq<nat>) {
    forall j :: 0 <= j < |sizes| ==> sizes[j] == 0
  }

  lemma FirstMaximumNext(sizes: seq<nat>, i: nat, x: nat)
    ensures IsFirstMaximum(sizes, i) ==> IsFirstMaximum(sizes + [x], if x > sizes[i] then |sizes| else i)
    ensures AllZero(sizes) ==> if x > 0 then IsFirstMaximum(sizes + [x], |sizes|) else AllZero(sizes + [x])
  {
  }

  /** The crowds at the shelves, frame by frame. */
  ghost function Crowds(frames: seq<Frame>, zones: seq<Zone>): seq<nat> {
    if frames == [] then []
    else Crowds(frames[..|frames| - 1], zones) + [PersonsAtShelf(frames[|frames| - 1], zones)]
  }

  lemma {:induction false} CrowdAt(frames: seq<Frame>, zones: seq<Zone>, i: nat)
    ensures |Crowds(frames, zones)| == |frames|
    ensures i < |frames| ==> Crowds(frames, zones)[i] == PersonsAtShelf(frames[i], zones)
  {
    if frames != [] {
      CrowdAt(frames[..|frames| - 1], zones, i);
    }
  }

  /** The group is that of this frame: its shelf and its person are the first its persons at
      shelves have to offer. */
  ghost predicate GroupOf(dets: Frame, idx: nat, zones: seq<Zone>, g: Group) {
    && g.max == PersonsAtShelf(dets, zones)
    && g.zone == OrAll(ShelfIds(FrameSteps(idx, dets, zones, |dets|), Person))
    && g.track == OrIdAll(ShelfTracks(FrameSteps(idx, dets, zones, |dets|)))
  }

  lemma ClosedGroup(frames: seq<Frame>, zones: seq<Zone>)
    requires frames != [] && Fold(StepsOf(frames[..|frames| - 1], zones)).frame == NO_FRAME
    ensures var n := |frames| - 1;
      var before, after := CuesOf(frames[..n], zones).group, CuesOf(frames, zones).group;
      if PersonsAtShelf(frames[n], zones) > before.max then GroupOf(frames[n], n, zones, after) else after == before
  {
    var n := |frames| - 1;
    var before, steps := StepsOf(frames[..n], zones), FrameSteps(n, frames[n], zones, |frames[n]|);
    FrameStepsAreViews(n, frames[n], zones, |frames[n]|);
    FrameNames(before, steps, n);
    FrameFold(before, steps, n, frames[n], zones);
    FoldSnoc(before + steps, EndOfFrame);
  }

  /** `i` is the first frame with the largest crowd, and the group is that of this frame. */
  ghost predicate NamedAfter(frames: seq<Frame>, zones: seq<Zone>, i: nat, g: Group) {
    if g.max == 0 then AllZero(Crowds(frames, zones))
    else i < |frames| && IsFirstMaximum(Crowds(frames, zones), i) && GroupOf(frames[i], i, zones, g)
  }

  lemma NamedAfterNext(frames: seq<Frame>, zones: seq<Zone>, i: nat, before: Group, after: Group) returns (now: nat)
    requires frames != [] && NamedAfter(frames[..|frames| - 1], zones, i, before)
    requires var n := |frames| - 1;
      if PersonsAtShelf(frames[n], zones) > before.max then GroupOf(frames[n], n, zones, after) else after == before
    ensures NamedAfter(frames, zones, now, after)
  {
    var n := |frames| - 1;
    var crowd := PersonsAtShelf(frames[n], zones);
    now := if crowd > before.max then n else i;
    FirstMaximumNext(Crowds(frames[..n], zones), i, crowd);
    CrowdAt(frames[..n], zones, i);
    if before.max > 0 {
      assert frames[..n][i] == frames[i];
    }
  }

  /** The group is named after the persons at shelves in the first of the fullest frames. */
  lemma {:induction false} GroupNames(frames: seq<Frame>, zones: seq<Zone>) returns (i: nat)
    ensures NamedAfter(frames, zones, i, CuesOf(frames, zones).group)
  {
    i := 0;
    if frames != [] {
      var n := |frames| - 1;
      i := GroupNames(frames[..n], zones);
      FrameSignals(frames[..n], zones);
      ClosedGroup(frames, zones);
      i := NamedAfterNext(frames, zones, i, CuesOf(frames[..n], zones).group, CuesOf(frames, zones).group);
    }
  }

  // ----- the high-value entry -----

  /** The high-value zones a track was in, visit by visit. */
  function EntryIds(visits: seq<Visit>): seq<Option<string>> {
    if visits == [] then [] else EntryIds(visits[..|visits| - 1]) + EntryId(visits[|visits| - 1])
  }

  function EntryId(v: Visit): seq<Option<string>> {
    if InHighValue(v).Some? then [InHighValue(v)] else []
  }

  function TracksEntryIds(tracks: seq<Timeline>): seq<Option<string>> {
    if tracks == [] then [] else TracksEntryIds(tracks[..|tracks| - 1]) + EntryIds(tracks[|tracks| - 1].visits)
  }

  /** The tracks that were in one, in the order in which they were first seen. */
  function EntryTracks(tracks: seq<Timeline>): seq<int> {
    if tracks == [] then []
    else EntryTracks(tracks[..|tracks| - 1])
         + if EntryIds(tracks[|tracks| - 1].visits) != [] then [tracks[|tracks| - 1].track] else []
  }

  lemma Associates(a: seq<Option<string>>, b: seq<Option<string>>, c: seq<Option<string>>)
    ensures (a + b) + c == a + (b + c)
  {
  }

  lemma {:induction false} CarriedEntry(c: Carried, track: int, visits: seq<Visit>, ids: seq<Option<string>>)
    requires c.highValueZone == OrAll(ids)
    ensures var d := CarryAll(c, track, visits);
      && d.highValueZone == OrAll(ids + EntryIds(visits))
      && d.highValueTrack == if EntryIds(visits) == [] then c.highValueTrack else OrId(c.highValueTrack, track)
  {
    if visits == [] {
      assert ids + [] == ids;
    } else {
      var rest, v := visits[..|visits| - 1], visits[|visits| - 1];
      CarriedEntry(c, track, rest, ids);
      OrAllJoin(ids + EntryIds(rest), EntryId(v));
      Associates(ids, EntryIds(rest), EntryId(v));
    }
  }

  /** A high-value entry names the first zone with a proper id in which anybody was seen, and the
      first such person, tracks in the order of their first sightings. */
  lemma {:induction false} EntryNames(fps: real, tracks: seq<Timeline>)
    ensures var c := AcrossOf(fps, tracks).carried;
      c.highValueZone == OrAll(TracksEntryIds(tracks)) && c.highValueTrack == OrIdAll(EntryTracks(tracks))
  {
    if tracks != [] {
      var rest, tl := tracks[..|tracks| - 1], tracks[|tracks| - 1];
      EntryNames(fps, rest);
      AddTrackEntry(AcrossOf(fps, rest), fps, tl, TracksEntryIds(rest));
      OrIdAllJoin(EntryTracks(rest), if EntryIds(tl.visits) != [] then [tl.track] else []);
    }
  }

  lemma AddTrackEntry(a: Across, fps: real, tl: Timeline, ids: seq<Option<string>>)
    requires a.carried.highValueZone == OrAll(ids)
    ensures var c, d := a.carried, AddTrack(a, fps, tl).carried;
      && d.highValueZone == OrAll(ids + EntryIds(tl.visits))
      && d.highValueTrack == if EntryIds(tl.visits) == [] then c.highValueTrack else OrId(c.highValueTrack, tl.track)
  {
    CarriedEntry(a.carried, tl.track, tl.visits, ids);
  }

  // ----- the bag -----

  /** A sighting at a shelf at least as confident as all before it. */
  ghost predicate TakesLead(steps: seq<Step>, p: nat, cue: Cue) {
    BagAt(steps, p, cue) && forall q: nat :: q < p && BagAt(steps, q, cue) ==> steps[q].view.conf <= steps[p].view.conf
  }

  /** The person nearest to the last sighting that took the lead with anybody near. */
  ghost predicate NamesLastNear(steps: seq<Step>, cue: Cue, track: int) {
    if track == 0 then forall p: nat :: TakesLead(steps, p, cue) ==> steps[p].view.near == 0
    else exists p: nat :: NearLead(steps, p, cue, track)
  }

  ghost predicate NearLead(steps: seq<Step>, p: nat, cue: Cue, track: int) {
    && TakesLead(steps, p, cue) && steps[p].view.near == track
    && forall q: nat :: q > p && TakesLead(steps, q, cue) ==> steps[q].view.near == 0
  }

  lemma TakesLeadSnoc(rest: seq<Step>, step: Step, p: nat, cue: Cue)
    ensures p < |rest| ==> (TakesLead(rest + [step], p, cue) <==> TakesLead(rest, p, cue))
    ensures TakesLead(rest + [step], p, cue) ==> p <= |rest|
  {
    var all := rest + [step];
    forall q: nat | q <= p ensures q < |rest| ==> (BagAt(all, q, cue) <==> BagAt(rest, q, cue)) {
      BagAtSnoc(rest, step, q, cue);
    }
    BagAtSnoc(rest, step, p, cue);
    assert forall q: nat :: q < |rest| ==> all[q] == rest[q];
  }

  /** What the accumulator compares with is the most confident sighting so far. */
  lemma LeadIsTaken(rest: seq<Step>, step: Step, cue: Cue)
    requires cue == OpenBag || cue == PlainBag
    ensures TakesLead(rest + [step], |rest|, cue) <==>
      step.See? && step.view.cue == cue && AtShelf(step.view) && step.view.conf >= BagOf(Fold(rest).cues, cue).conf
  {
    var all, b := rest + [step], BagOf(Fold(rest).cues, cue);
    BagMeaning(rest, cue);
    BagAtSnoc(rest, step, |rest|, cue);
    forall q: nat | q < |rest| ensures BagAt(all, q, cue) <==> BagAt(rest, q, cue) {
      BagAtSnoc(rest, step, q, cue);
    }
    assert forall q: nat :: q < |rest| ==> all[q] == rest[q];
    if b.lastIdx >= 0 {
      var p: nat :| Leads(rest, p, cue) && EventMeaning.Shows(rest, p, b);
      assert BagAt(all, p, cue);
    }
  }

  lemma NamesLastNearSnoc(rest: seq<Step>, step: Step, cue: Cue, track: int)
    requires NamesLastNear(rest, cue, track)
    ensures var takes := TakesLead(rest + [step], |rest|, cue) && step.See? && step.view.near != 0;
      NamesLastNear(rest + [step], cue, if takes then step.view.near else track)
  {
    var all := rest + [step];
    assert all[|rest|] == step;
    forall p: nat
      ensures p < |rest| ==> (TakesLead(all, p, cue) <==> TakesLead(rest, p, cue))
      ensures TakesLead(all, p, cue) ==> p <= |rest|
    {
      TakesLeadSnoc(rest, step, p, cue);
    }
    if TakesLead(all, |rest|, cue) && step.See? && step.view.near != 0 {
      assert NearLead(all, |rest|, cue, step.view.near);
    } else if track != 0 {
      var p: nat :| NearLead(rest, p, cue, track);
      assert NearLead(all, p, cue, track);
    }
  }

  /** A bag is put down to the person nearest to the last sighting that took the lead with anybody
      near it. */
  lemma {:induction false} BagTrack(steps: seq<Step>, cue: Cue)
    requires cue == OpenBag || cue == PlainBag
    ensures NamesLastNear(steps, cue, BagOf(Fold(steps).cues, cue).track)
  {
    if steps != [] {
      var rest, step := steps[..|steps| - 1], steps[|steps| - 1];
      assert steps == rest + [step];
      BagTrack(rest, cue);
      StepBag(Fold(rest), step, cue);
      LeadIsTaken(rest, step, cue);
      NamesLastNearSnoc(rest, step, cue, BagOf(Fold(rest).cues, cue).track);
    }
  }

  // ----- concealment and removal -----

  /** Where a concealment is put, and to whom: the first of four sources that has something. */
  lemma ConcealmentNames(fps: real, frames: seq<Frame>, zones: seq<Zone>)
    requires Evidence(CuesOf(frames, zones), SignalsOf(fps, frames, zones), Concealment).Some?
    ensures var steps, c := StepsOf(frames, zones), CuesOf(frames, zones);
      var e := Evidence(c, SignalsOf(fps, frames, zones), Concealment).value;
      && e.zoneId == OrAll([
           if |Sightings(steps, Hiding)| >= 10 then OrAll(ShelfIds(steps, Hiding)) else None,
           if |Sightings(steps, OpenBag)| >= 10 then c.openBag.zone else None,
           if |Sightings(steps, PlainBag)| >= 10 then c.bag.zone else None,
           OrAll(ShelfIds(steps, ProductInHand))])
      && e.trackId == OrIdAll([
           OrIdAll(NearIds(steps, Hiding, false)), OrIdAll(NearIds(steps, ProductInHand, true)),
           c.openBag.track, c.bag.track])
  {
    var steps, c := StepsOf(frames, zones), CuesOf(frames, zones);
    CountMeaning(steps);
    HandlingSource(steps);
    ConcealSource(steps);
    ConcealmentSources(c, SignalsOf(fps, frames, zones));
  }

  lemma ConcealmentSources(c: Cues, a: Across)
    requires Evidence(c, a, Concealment).Some?
    ensures var e := Evidence(c, a, Concealment).value;
      && e.zoneId == OrAll([
           if c.conceal.dets >= 10 then c.conceal.zone else None, if c.openBag.dets >= 10 then c.openBag.zone else None,
           if c.bag.dets >= 10 then c.bag.zone else None, c.handling.zone])
      && e.trackId == OrIdAll([c.conceal.track, c.handling.track, c.openBag.track, c.bag.track])
  {
    FourIds(if c.conceal.dets >= 10 then c.conceal.zone else None,
            if c.openBag.dets >= 10 then c.openBag.zone else None,
            if c.bag.dets >= 10 then c.bag.zone else None, c.handling.zone);
    FourTracks(c.conceal.track, c.handling.track, c.openBag.track, c.bag.track);
  }

  lemma FourIds(a: Option<string>, b: Option<string>, c: Option<string>, d: Option<string>)
    ensures OrAll([a, b, c, d]) == Or(Or(Or(a, b), c), d)
  {
    OrAllJoin([], [a]);
    OrAllJoin([a], [b]);
    OrAllJoin([a, b], [c]);
    OrAllJoin([a, b, c], [d]);
    assert [] + [a] == [a] && [a] + [b] == [a, b] && [a, b] + [c] == [a, b, c] && [a, b, c] + [d] == [a, b, c, d];
  }

  lemma FourTracks(a: int, b: int, c: int, d: int)
    ensures OrIdAll([a, b, c, d]) == OrId(OrId(OrId(a, b), c), d)
  {
    OrIdAllJoin([], [a]);
    OrIdAllJoin([a], [b]);
    OrIdAllJoin([a, b], [c]);
    OrIdAllJoin([a, b, c], [d]);
    assert [] + [a] == [a] && [a] + [b] == [a, b] && [a, b] + [c] == [a, b, c] && [a, b, c] + [d] == [a, b, c, d];
  }

  predicate StoodAtShelf(visits: seq<Visit>) {
    exists k :: 0 <= k < |visits| && AtAShelf(visits[k])
  }

  predicate AtAShelf(v: Visit) {
    Shelf in TypesOf(v.zones) || HighValue in TypesOf(v.zones)
  }

  lemma {:induction false} VisitedShelf(visits: seq<Visit>)
    ensures Visited(visits) * SHELF_LIKE != {} <==> StoodAtShelf(visits)
  {
    if visits != [] {
      var rest, v := visits[..|visits| - 1], visits[|visits| - 1];
      VisitedShelf(rest);
      assert StoodAtShelf(visits) <==> StoodAtShelf(rest) || AtAShelf(v);
      ShelfLikeTypes(Visited(visits));
      ShelfLikeTypes(Visited(rest));
    }
  }

  lemma ShelfLikeTypes(types: set<ZoneType>)
    ensures types * SHELF_LIKE != {} <==> Shelf in types || HighValue in types
  {
    assert Shelf in types ==> Shelf in types * SHELF_LIKE;
    assert HighValue in types ==> HighValue in types * SHELF_LIKE;
    if t :| t in types * SHELF_LIKE {
      assert t == Shelf || t == HighValue;
    }
  }

  predicate IsFirstAtShelf(tracks: seq<Timeline>, k: nat) {
    && k < |tracks| && StoodAtShelf(tracks[k].visits)
    && forall j :: 0 <= j < k ==> !StoodAtShelf(tracks[j].visits)
  }

  /** Without a person near the product, the removal is put down to the first track that ever stood
      at a shelf. */
  lemma {:induction false} FirstAtShelf(tracks: seq<Timeline>, k: nat)
    ensures IsFirstAtShelf(tracks, k) ==> FirstShelfTrack(tracks) == tracks[k].track
    ensures (forall j :: 0 <= j < |tracks| ==> !StoodAtShelf(tracks[j].visits)) ==> FirstShelfTrack(tracks) == 0
  {
    if tracks != [] {
      VisitedShelf(tracks[0].visits);
      FirstAtShelf(tracks[1..], if k > 0 then k - 1 else 0);
    }
  }

  lemma RemovalNames(fps: real, frames: seq<Frame>, zones: seq<Zone>)
    requires Evidence(CuesOf(frames, zones), SignalsOf(fps, frames, zones), LowStaffRemoval).Some?
    ensures var steps, tracks := StepsOf(frames, zones), CuesOf(frames, zones).tracks;
      var e := Evidence(CuesOf(frames, zones), SignalsOf(fps, frames, zones), LowStaffRemoval).value;
      && e.zoneId == OrAll(ShelfIds(steps, ProductInHand))
      && e.trackId == OrId(OrIdAll(NearIds(steps, ProductInHand, true)), FirstShelfTrack(tracks))
  {
    HandlingSource(StepsOf(frames, zones));
    RemovalEvidence(CuesOf(frames, zones), SignalsOf(fps, frames, zones));
  }

  lemma RemovalEvidence(c: Cues, a: Across)
    requires Evidence(c, a, LowStaffRemoval).Some?
    ensures var e := Evidence(c, a, LowStaffRemoval).value;
      e.zoneId == c.handling.zone && e.trackId == OrId(c.handling.track, FirstShelfTrack(c.tracks))
  {
  }

  // ----- exits and blind spots -----

  /** The ids of the zones of a type a track was in, visit by visit. */
  function TypeIds(visits: seq<Visit>, t: ZoneType): seq<Option<string>> {
    if visits == [] then [] else TypeIds(visits[..|visits| - 1], t) + TypeId(visits[|visits| - 1], t)
  }

  function TypeId(v: Visit, t: ZoneType): seq<Option<string>> {
    if t in TypesOf(v.zones) then [ByType(v.zones, t)] else []
  }

  /** An exit or a blind spot is named by the first visit that has a proper id to give. */
  lemma {:induction false} ZoneOfExactly(visits: seq<Visit>, t: ZoneType)
    ensures ZoneOf(visits, t) == OrAll(TypeIds(visits, t))
  {
    if visits != [] {
      ZoneOfExactly(visits[..|visits| - 1], t);
      OrAllJoin(TypeIds(visits[..|visits| - 1], t), TypeId(visits[|visits| - 1], t));
    }
  }
}
