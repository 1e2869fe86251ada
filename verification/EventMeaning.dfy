/** What the accumulators of the first pass mean, for every clip (cloud-ai/app/events.py). */
module EventMeaning {
  import opened Wrappers
  import opened Detections
  import opened Zones
  import opened EventCues
  import opened Streaks

  predicate AtShelf(v: View) {
    ShelfZones(v.zones) != []
  }

  predicate InHighValueZone(v: View) {
    HighValueZone(v.zones).Some?
  }

  /** All of the steps look at the frame. */
  ghost predicate AllIn(steps: seq<Step>, idx: nat) {
    forall k :: 0 <= k < |steps| ==> steps[k].See? && steps[k].view.idx == idx
  }

  // ----- signals counted per frame -----

  ghost predicate SeesAtShelf(dets: Frame, zones: seq<Zone>, cue: Cue, k: nat) {
    k < |dets| && dets[k].cue == cue && ShelfZones(Containing(dets[k].at, zones)) != []
  }

  /** The detections with a cue at a shelf among the first n. */
  ghost function AtShelfUpTo(dets: Frame, zones: seq<Zone>, cue: Cue, n: nat): set<nat> {
    set k: nat | k < n && SeesAtShelf(dets, zones, cue, k)
  }

  ghost predicate HandledIn(dets: Frame, zones: seq<Zone>) {
    AtShelfUpTo(dets, zones, ProductInHand, |dets|) != {}
  }

  ghost function PersonsAtShelf(dets: Frame, zones: seq<Zone>): nat {
    |AtShelfUpTo(dets, zones, Person, |dets|)|
  }

  ghost function HandlingFlags(frames: seq<Frame>, zones: seq<Zone>): seq<bool> {
    if frames == [] then []
    else HandlingFlags(frames[..|frames| - 1], zones) + [HandledIn(frames[|frames| - 1], zones)]
  }

  lemma {:induction false} HandlingFlagsAt(frames: seq<Frame>, zones: seq<Zone>, i: nat)
    ensures |HandlingFlags(frames, zones)| == |frames|
    ensures i < |frames| ==> HandlingFlags(frames, zones)[i] == HandledIn(frames[i], zones)
  {
    if frames != [] {
      HandlingFlagsAt(frames[..|frames| - 1], zones, i);
      assert i < |frames| - 1 ==> frames[..|frames| - 1][i] == frames[i];
    }
  }

  lemma AtShelfNext(dets: Frame, zones: seq<Zone>, cue: Cue, n: nat)
    ensures AtShelfUpTo(dets, zones, cue, 0) == {}
    ensures AtShelfUpTo(dets, zones, cue, n + 1)
      == AtShelfUpTo(dets, zones, cue, n) + if SeesAtShelf(dets, zones, cue, n) then {n} else {}
    ensures n !in AtShelfUpTo(dets, zones, cue, n)
  {
  }

  /** `t` is what the per-frame signals became within a frame that started at `s`. */
  predicate WithinFrame(s: Cues, t: Scan, idx: nat, handles: bool, persons: nat) {
    && t.frame.handlingNow == handles
    && t.frame.personsInShelf == persons
    && t.cues.group == s.group
    && t.cues.handling.episodes == s.handling.episodes
    && t.cues.handling.prev == s.handling.prev
    && t.cues.handling.inShelf == (s.handling.inShelf || handles)
    && t.cues.handling.firstIdx == if handles && s.handling.firstIdx < 0 then idx else s.handling.firstIdx
  }

  lemma ObserveFrame(s: Cues, t: Scan, v: View, handles: bool, persons: nat)
    requires WithinFrame(s, t, v.idx, handles, persons)
    ensures WithinFrame(s, Observe(t, v), v.idx, handles || (v.cue == ProductInHand && AtShelf(v)),
                        persons + if v.cue == Person && AtShelf(v) then 1 else 0)
  {
  }

  lemma {:induction false} FrameFold(before: seq<Step>, steps: seq<Step>, idx: nat, dets: Frame, zones: seq<Zone>)
    requires AreViews(steps, idx, dets, zones) && Fold(before).frame == NO_FRAME
    ensures WithinFrame(Fold(before).cues, Fold(before + steps), idx,
                        AtShelfUpTo(dets, zones, ProductInHand, |steps|) != {},
                        |AtShelfUpTo(dets, zones, Person, |steps|)|)
  {
    if steps == [] {
      assert before + steps == before;
      AtShelfNext(dets, zones, ProductInHand, 0);
      AtShelfNext(dets, zones, Person, 0);
    } else {
      var n := |steps| - 1;
      FrameFold(before, steps[..n], idx, dets, zones);
      JoinNext(before, steps);
      FoldSnoc(before + steps[..n], steps[n]);
      FrameStep(Fold(before).cues, Fold(before + steps[..n]), idx, dets, zones, n);
    }
  }

  lemma FrameStep(s: Cues, t: Scan, idx: nat, dets: Frame, zones: seq<Zone>, k: nat)
    requires k < |dets|
    requires WithinFrame(s, t, idx, AtShelfUpTo(dets, zones, ProductInHand, k) != {},
                         |AtShelfUpTo(dets, zones, Person, k)|)
    ensures WithinFrame(s, Advance(t, See(ViewOf(idx, dets, k, zones))), idx,
                        AtShelfUpTo(dets, zones, ProductInHand, k + 1) != {},
                        |AtShelfUpTo(dets, zones, Person, k + 1)|)
  {
    var handles, persons := AtShelfUpTo(dets, zones, ProductInHand, k), AtShelfUpTo(dets, zones, Person, k);
    ObserveFrame(s, t, ViewOf(idx, dets, k, zones), handles != {}, |persons|);
    AtShelfNext(dets, zones, ProductInHand, k);
    AtShelfNext(dets, zones, Person, k);
  }

  /** `g` is the greatest shelf crowd of any frame. */
  ghost predicate IsLargestGroup(frames: seq<Frame>, zones: seq<Zone>, g: nat) {
    && (forall i :: 0 <= i < |frames| ==> PersonsAtShelf(frames[i], zones) <= g)
    && (g == 0 || exists i :: 0 <= i < |frames| && PersonsAtShelf(frames[i], zones) == g)
  }

  /** The first frame with a product at a shelf, -1 when there is none. */
  ghost predicate IsFirstHandled(frames: seq<Frame>, zones: seq<Zone>, first: int) {
    && -1 <= first < |frames|
    && (first >= 0 ==> HandledIn(frames[first], zones))
    && forall i :: 0 <= i < (if first < 0 then |frames| else first) ==> !HandledIn(frames[i], zones)
  }

  /** Handling episodes are the rising edges of "a product at a shelf in this frame"; the group
      size is the largest simultaneous crowd. */
  lemma {:induction false} FrameSignals(frames: seq<Frame>, zones: seq<Zone>)
    ensures var c := CuesOf(frames, zones);
      && Fold(StepsOf(frames, zones)).frame == NO_FRAME
      && c.handling.episodes == |Rising(HandlingFlags(frames, zones))|
      && c.handling.prev == (frames != [] && HandledIn(frames[|frames| - 1], zones))
      && IsLargestGroup(frames, zones, c.group.max)
      && IsFirstHandled(frames, zones, c.handling.firstIdx)
      && c.handling.inShelf == (c.handling.firstIdx >= 0)
  {
    if frames != [] {
      var n := |frames| - 1;
      FrameSignals(frames[..n], zones);
      FrameClosed(frames, zones);
      HandlingFlagsAt(frames[..n], zones, if n > 0 then n - 1 else 0);
      RisingSnoc(HandlingFlags(frames[..n], zones), HandledIn(frames[n], zones));
      LargestGroupSnoc(frames, zones, CuesOf(frames[..n], zones).group.max);
      FirstHandledSnoc(frames, zones, CuesOf(frames[..n], zones).handling.firstIdx);
    } else {
      assert Rising(HandlingFlags(frames, zones)) == {};
    }
  }

  lemma FrameClosed(frames: seq<Frame>, zones: seq<Zone>)
    requires frames != [] && Fold(StepsOf(frames[..|frames| - 1], zones)).frame == NO_FRAME
    ensures var n := |frames| - 1;
      var c, d := CuesOf(frames[..n], zones), CuesOf(frames, zones);
      var handled, persons := HandledIn(frames[n], zones), PersonsAtShelf(frames[n], zones);
      && Fold(StepsOf(frames, zones)).frame == NO_FRAME
      && d.handling.episodes == c.handling.episodes + (if handled && !c.handling.prev then 1 else 0)
      && d.handling.prev == handled
      && d.group.max == (if persons > c.group.max then persons else c.group.max)
      && d.handling.inShelf == (c.handling.inShelf || handled)
      && d.handling.firstIdx == if handled && c.handling.firstIdx < 0 then n else c.handling.firstIdx
  {
    var n := |frames| - 1;
    var before := StepsOf(frames[..n], zones);
    var steps := FrameSteps(n, frames[n], zones, |frames[n]|);
    FrameStepsAreViews(n, frames[n], zones, |frames[n]|);
    FrameFold(before, steps, n, frames[n], zones);
    FoldSnoc(before + steps, EndOfFrame);
  }

  lemma LargestGroupSnoc(frames: seq<Frame>, zones: seq<Zone>, g: nat)
    requires frames != [] && IsLargestGroup(frames[..|frames| - 1], zones, g)
    ensures var now := PersonsAtShelf(frames[|frames| - 1], zones);
      IsLargestGroup(frames, zones, if now > g then now else g)
  {
    var n := |frames| - 1;
    assert forall i :: 0 <= i < n ==> frames[..n][i] == frames[i];
    assert PersonsAtShelf(frames[n], zones) == PersonsAtShelf(frames[|frames| - 1], zones);
    if g > 0 {
      var i :| 0 <= i < n && PersonsAtShelf(frames[..n][i], zones) == g;
      assert PersonsAtShelf(frames[i], zones) == g;
    }
  }

  lemma FirstHandledSnoc(frames: seq<Frame>, zones: seq<Zone>, first: int)
    requires frames != [] && IsFirstHandled(frames[..|frames| - 1], zones, first)
    ensures var n := |frames| - 1;
      IsFirstHandled(frames, zones, if HandledIn(frames[n], zones) && first < 0 then n else first)
  {
    var n := |frames| - 1;
    assert forall i :: 0 <= i < n ==> frames[..n][i] == frames[i];
  }

  /** A product handled at a shelf, the episode count and the low-staff proxy all stand or fall
      together. */
  lemma HandlingIsOneSignal(frames: seq<Frame>, zones: seq<Zone>)
    ensures var c := CuesOf(frames, zones);
      && (c.handling.inShelf <==> c.handling.episodes > 0)
      && (c.handling.inShelf <==> exists i :: 0 <= i < |frames| && HandledIn(frames[i], zones))
  {
    FrameSignals(frames, zones);
    var flags := HandlingFlags(frames, zones);
    RisingPositive(flags);
    HandlingFlagsAt(frames, zones, 0);
    forall i: nat | i < |frames| ensures flags[i] == HandledIn(frames[i], zones) {
      HandlingFlagsAt(frames, zones, i);
    }
  }

  // ----- signals over all detections -----

  ghost predicate SeesCue(steps: seq<Step>, p: nat, cue: Cue) {
    p < |steps| && steps[p].See? && steps[p].view.cue == cue
  }

  ghost function Sightings(steps: seq<Step>, cue: Cue): set<nat> {
    set p: nat | p < |steps| && SeesCue(steps, p, cue)
  }

  lemma SeesCueSnoc(rest: seq<Step>, step: Step, p: nat, cue: Cue)
    ensures SeesCue(rest + [step], p, cue)
      <==> if p == |rest| then step.See? && step.view.cue == cue else SeesCue(rest, p, cue)
  {
  }

  lemma SightingsSnoc(rest: seq<Step>, step: Step, cue: Cue)
    ensures |Sightings(rest + [step], cue)|
      == |Sightings(rest, cue)| + if step.See? && step.view.cue == cue then 1 else 0
  {
    var now, before := Sightings(rest + [step], cue), Sightings(rest, cue);
    forall p: nat ensures p in now <==> p in before || (p == |rest| && step.See? && step.view.cue == cue) {
      SeesCueSnoc(rest, step, p, cue);
    }
    if step.See? && step.view.cue == cue {
      assert now == before + {|rest| as nat};
    } else {
      assert now == before;
    }
  }

  function BagOf(c: Cues, cue: Cue): BagSignal {
    if cue == OpenBag then c.openBag else c.bag
  }

  lemma StepCounts(s: Scan, step: Step)
    ensures var t := Advance(s, step);
      && t.cues.openBag.dets == s.cues.openBag.dets + (if step.See? && step.view.cue == OpenBag then 1 else 0)
      && t.cues.bag.dets == s.cues.bag.dets + (if step.See? && step.view.cue == PlainBag then 1 else 0)
      && t.cues.conceal.dets == s.cues.conceal.dets + (if step.See? && step.view.cue == Hiding then 1 else 0)
  {
  }

  /** The counters that gate a cue count every one of its detections, in a zone or not. */
  lemma {:induction false} CountMeaning(steps: seq<Step>)
    ensures var c := Fold(steps).cues;
      && c.openBag.dets == |Sightings(steps, OpenBag)|
      && c.bag.dets == |Sightings(steps, PlainBag)|
      && c.conceal.dets == |Sightings(steps, Hiding)|
  {
    if steps != [] {
      var rest, step := steps[..|steps| - 1], steps[|steps| - 1];
      assert steps == rest + [step];
      CountMeaning(rest);
      StepCounts(Fold(rest), step);
      SightingsSnoc(rest, step, OpenBag);
      SightingsSnoc(rest, step, PlainBag);
      SightingsSnoc(rest, step, Hiding);
    } else {
      assert Sightings(steps, OpenBag) == Sightings(steps, PlainBag) == Sightings(steps, Hiding) == {};
    }
  }

  ghost predicate SeesInHighValue(steps: seq<Step>, cue: Cue) {
    exists p: nat :: SeesCue(steps, p, cue) && InHighValueZone(steps[p].view)
  }

  lemma SeesInHighValueSnoc(rest: seq<Step>, step: Step, cue: Cue)
    ensures SeesInHighValue(rest + [step], cue)
      <==> SeesInHighValue(rest, cue) || (step.See? && step.view.cue == cue && InHighValueZone(step.view))
  {
    var all := rest + [step];
    assert forall p: nat | p < |rest| :: SeesCue(all, p, cue) == SeesCue(rest, p, cue);
    if step.See? && step.view.cue == cue && InHighValueZone(step.view) {
      assert SeesCue(all, |rest|, cue);
    }
    if p: nat :| SeesCue(rest, p, cue) && InHighValueZone(rest[p].view) {
      assert SeesCue(all, p, cue);
    }
  }

  lemma StepCategories(s: Scan, step: Step)
    ensures var h, g := s.cues.highValue, Advance(s, step).cues.highValue;
      var hv := step.See? && InHighValueZone(step.view);
      && g.person == (h.person || (hv && step.view.cue == Person))
      && g.product == (h.product || (hv && step.view.cue == ProductInHand))
      && g.bag == (h.bag || (hv && (step.view.cue == OpenBag || step.view.cue == PlainBag)))
      && Advance(s, step).cues.conceal.inHighValue
         == (s.cues.conceal.inHighValue || (hv && step.view.cue == Hiding))
  {
  }

  /** The high-value categories: a sighting of that cue inside a high-value zone. */
  lemma {:induction false} CategoryMeaning(steps: seq<Step>)
    ensures var c := Fold(steps).cues;
      && (c.highValue.person <==> SeesInHighValue(steps, Person))
      && (c.highValue.product <==> SeesInHighValue(steps, ProductInHand))
      && (c.highValue.bag <==> SeesInHighValue(steps, OpenBag) || SeesInHighValue(steps, PlainBag))
      && (c.conceal.inHighValue <==> SeesInHighValue(steps, Hiding))
  {
    if steps != [] {
      var rest, step := steps[..|steps| - 1], steps[|steps| - 1];
      assert steps == rest + [step];
      CategoryMeaning(rest);
      StepCategories(Fold(rest), step);
      SeesInHighValueSnoc(rest, step, Person);
      SeesInHighValueSnoc(rest, step, ProductInHand);
      SeesInHighValueSnoc(rest, step, OpenBag);
      SeesInHighValueSnoc(rest, step, PlainBag);
      SeesInHighValueSnoc(rest, step, Hiding);
    }
  }

  // ----- the bag that leads -----

  ghost predicate BagAt(steps: seq<Step>, p: nat, cue: Cue) {
    SeesCue(steps, p, cue) && AtShelf(steps[p].view) && steps[p].view.conf >= 0.0
  }

  /** The last of the most confident sightings at a shelf. */
  ghost predicate Leads(steps: seq<Step>, p: nat, cue: Cue) {
    && BagAt(steps, p, cue)
    && forall q: nat :: BagAt(steps, q, cue) ==>
         steps[q].view.conf <= steps[p].view.conf && (q > p ==> steps[q].view.conf < steps[p].view.conf)
  }

  ghost predicate BagSummary(steps: seq<Step>, b: BagSignal, cue: Cue) {
    if b.lastIdx < 0 then b.lastIdx == -1 && b.conf == 0.0 && b.zone == None && forall p: nat :: !BagAt(steps, p, cue)
    else exists p: nat :: Leads(steps, p, cue) && Shows(steps, p, b)
  }

  ghost predicate Shows(steps: seq<Step>, p: nat, b: BagSignal) {
    && p < |steps| && steps[p].See? && AtShelf(steps[p].view)
    && b.lastIdx == steps[p].view.idx && b.conf == steps[p].view.conf
    && var shelf := ShelfZones(steps[p].view.zones); b.zone == shelf[|shelf| - 1].id
  }

  lemma StepBag(s: Scan, step: Step, cue: Cue)
    requires cue == OpenBag || cue == PlainBag
    ensures var b, d := BagOf(s.cues, cue), BagOf(Advance(s, step).cues, cue);
      if step.See? && step.view.cue == cue then d == SeeBag(b, step.view) else d == b
  {
  }

  lemma BagAtSnoc(rest: seq<Step>, step: Step, p: nat, cue: Cue)
    ensures BagAt(rest + [step], p, cue)
      <==> if p == |rest| then step.See? && step.view.cue == cue && AtShelf(step.view) && step.view.conf >= 0.0
           else BagAt(rest, p, cue)
  {
    assert p < |rest| ==> (rest + [step])[p] == rest[p];
  }

  lemma LeadsSnoc(rest: seq<Step>, step: Step, p: nat, cue: Cue)
    requires Leads(rest, p, cue)
    requires step.See? && step.view.cue == cue && AtShelf(step.view) ==> step.view.conf < rest[p].view.conf
    ensures Leads(rest + [step], p, cue)
  {
    forall q: nat
      ensures BagAt(rest + [step], q, cue) ==> q == |rest| || BagAt(rest, q, cue)
    {
      BagAtSnoc(rest, step, q, cue);
    }
    BagAtSnoc(rest, step, p, cue);
    BagAtSnoc(rest, step, |rest|, cue);
  }

  lemma NewLead(rest: seq<Step>, step: Step, cue: Cue, lead: real)
    requires step.See? && step.view.cue == cue && AtShelf(step.view) && step.view.conf >= 0.0
    requires forall q: nat :: BagAt(rest, q, cue) ==> rest[q].view.conf <= lead
    requires lead <= step.view.conf
    ensures Leads(rest + [step], |rest|, cue)
  {
    forall q: nat
      ensures BagAt(rest + [step], q, cue) ==> q == |rest| || (BagAt(rest, q, cue) && q < |rest|)
    {
      BagAtSnoc(rest, step, q, cue);
    }
    BagAtSnoc(rest, step, |rest|, cue);
  }

  /** The kept bag is the last sighting at a shelf with the greatest confidence, which need not
      be the last sighting. */
  lemma {:induction false} BagMeaning(steps: seq<Step>, cue: Cue)
    requires cue == OpenBag || cue == PlainBag
    ensures BagSummary(steps, BagOf(Fold(steps).cues, cue), cue)
  {
    if steps != [] {
      var rest, step := steps[..|steps| - 1], steps[|steps| - 1];
      assert steps == rest + [step];
      BagMeaning(rest, cue);
      StepBag(Fold(rest), step, cue);
      BagStep(rest, step, BagOf(Fold(rest).cues, cue), cue);
    }
  }

  lemma BagStep(rest: seq<Step>, step: Step, b: BagSignal, cue: Cue)
    requires BagSummary(rest, b, cue)
    ensures BagSummary(rest + [step], if step.See? && step.view.cue == cue then SeeBag(b, step.view) else b, cue)
  {
    var takes := step.See? && step.view.cue == cue && AtShelf(step.view) && step.view.conf >= b.conf;
    if b.lastIdx >= 0 {
      var p: nat :| Leads(rest, p, cue) && Shows(rest, p, b);
      if takes {
        NewLead(rest, step, cue, b.conf);
        assert Shows(rest + [step], |rest|, SeeBag(b, step.view));
      } else {
        LeadsSnoc(rest, step, p, cue);
        assert Shows(rest + [step], p, b);
      }
    } else if takes {
      NewLead(rest, step, cue, b.conf);
      assert Shows(rest + [step], |rest|, SeeBag(b, step.view));
    } else {
      forall p: nat ensures !BagAt(rest + [step], p, cue) {
        BagAtSnoc(rest, step, p, cue);
      }
    }
  }

  // ----- person timelines -----

  ghost function VisitsOf(steps: seq<Step>, track: int): seq<Visit> {
    if steps == [] then []
    else
      var before, step := VisitsOf(steps[..|steps| - 1], track), steps[|steps| - 1];
      if step.See? && step.view.cue == Person && step.view.track == track
      then before + [Visit(step.view.idx, step.view.zones)] else before
  }

  /** Where a track is kept. */
  function Slot(tracks: seq<Timeline>, track: int): nat {
    if tracks == [] || tracks[0].track == track then 0 else Slot(tracks[1..], track) + 1
  }

  lemma {:induction false} AppendMeaning(tracks: seq<Timeline>, track: int, v: Visit)
    ensures var i := Slot(tracks, track);
      && i <= |tracks|
      && (i < |tracks| ==> tracks[i].track == track)
      && (forall j :: 0 <= j < i ==> tracks[j].track != track)
      && Append(tracks, track, v)
         == if i < |tracks| then tracks[i := Timeline(track, tracks[i].visits + [v])]
            else tracks + [Timeline(track, [v])]
  {
    if tracks != [] && tracks[0].track != track {
      AppendMeaning(tracks[1..], track, v);
    }
  }

  /** The tracks of a list of timelines are told apart. */
  ghost predicate Distinguished(tracks: seq<Timeline>) {
    forall i, j :: 0 <= i < j < |tracks| ==> tracks[i].track != tracks[j].track
  }

  ghost predicate FaithfulAt(steps: seq<Step>, tl: Timeline) {
    tl.visits != [] && tl.visits == VisitsOf(steps, tl.track)
  }

  ghost predicate Faithful(steps: seq<Step>, tracks: seq<Timeline>) {
    forall i :: 0 <= i < |tracks| ==> FaithfulAt(steps, tracks[i])
  }

  ghost predicate AllTracked(steps: seq<Step>, tracks: seq<Timeline>) {
    forall t: int :: VisitsOf(steps, t) != [] ==> HasTrack(tracks, t)
  }

  /** One timeline per track, holding all its visits in order. */
  ghost predicate Timelines(steps: seq<Step>, tracks: seq<Timeline>) {
    Faithful(steps, tracks) && Distinguished(tracks) && AllTracked(steps, tracks)
  }

  ghost predicate HasTrack(tracks: seq<Timeline>, t: int) {
    exists i :: 0 <= i < |tracks| && tracks[i].track == t
  }

  lemma StepTracks(s: Scan, step: Step)
    ensures Advance(s, step).cues.tracks ==
      if step.See? && step.view.cue == Person
      then Append(s.cues.tracks, step.view.track, Visit(step.view.idx, step.view.zones)) else s.cues.tracks
  {
  }

  lemma VisitsSnoc(rest: seq<Step>, step: Step, t: int)
    ensures VisitsOf(rest + [step], t) == VisitsOf(rest, t)
      + if step.See? && step.view.cue == Person && step.view.track == t
        then [Visit(step.view.idx, step.view.zones)] else []
  {
    assert (rest + [step])[..|rest|] == rest;
  }

  lemma AppendDistinguished(tracks: seq<Timeline>, track: int, v: Visit)
    requires Distinguished(tracks)
    ensures Distinguished(Append(tracks, track, v))
  {
    AppendMeaning(tracks, track, v);
  }

  lemma AppendTracked(rest: seq<Step>, tracks: seq<Timeline>, step: Step)
    requires AllTracked(rest, tracks) && step.See? && step.view.cue == Person
    ensures AllTracked(rest + [step], Append(tracks, step.view.track, Visit(step.view.idx, step.view.zones)))
  {
    var track, v := step.view.track, Visit(step.view.idx, step.view.zones);
    AppendMeaning(tracks, track, v);
    var i, next := Slot(tracks, track), Append(tracks, track, v);
    assert next[i].track == track;
    forall t: int | VisitsOf(rest + [step], t) != [] ensures HasTrack(next, t) {
      VisitsSnoc(rest, step, t);
      if t != track {
        var j :| 0 <= j < |tracks| && tracks[j].track == t;
        assert next[j].track == t;
      }
    }
  }

  lemma AppendFaithful(rest: seq<Step>, tracks: seq<Timeline>, step: Step)
    requires Faithful(rest, tracks) && AllTracked(rest, tracks) && Distinguished(tracks)
    requires step.See? && step.view.cue == Person
    ensures Faithful(rest + [step], Append(tracks, step.view.track, Visit(step.view.idx, step.view.zones)))
  {
    var track, v := step.view.track, Visit(step.view.idx, step.view.zones);
    AppendMeaning(tracks, track, v);
    var i, next := Slot(tracks, track), Append(tracks, track, v);
    forall j | 0 <= j < |next| ensures FaithfulAt(rest + [step], next[j]) {
      VisitsSnoc(rest, step, next[j].track);
      if j < |tracks| {
        assert FaithfulAt(rest, tracks[j]);
      } else {
        assert !HasTrack(tracks, track);
      }
    }
  }

  lemma TimelinesSnoc(rest: seq<Step>, tracks: seq<Timeline>, step: Step)
    requires Timelines(rest, tracks)
    requires step.See? && step.view.cue == Person
    ensures Timelines(rest + [step], Append(tracks, step.view.track, Visit(step.view.idx, step.view.zones)))
  {
    AppendDistinguished(tracks, step.view.track, Visit(step.view.idx, step.view.zones));
    AppendTracked(rest, tracks, step);
    AppendFaithful(rest, tracks, step);
  }

  lemma {:induction false} TimelineMeaning(steps: seq<Step>)
    ensures Timelines(steps, Fold(steps).cues.tracks)
  {
    if steps != [] {
      var rest, step := steps[..|steps| - 1], steps[|steps| - 1];
      assert steps == rest + [step];
      TimelineMeaning(rest);
      StepTracks(Fold(rest), step);
      if step.See? && step.view.cue == Person {
        TimelinesSnoc(rest, Fold(rest).cues.tracks, step);
      } else {
        forall t: int ensures VisitsOf(steps, t) == VisitsOf(rest, t) {
          VisitsSnoc(rest, step, t);
        }
      }
    }
  }

  lemma TimelineIs(steps: seq<Step>, tracks: seq<Timeline>, i: nat)
    requires Timelines(steps, tracks) && i < |tracks|
    ensures VisitsOf(steps, tracks[i].track) == tracks[i].visits
  {
    assert FaithfulAt(steps, tracks[i]);
  }
}
