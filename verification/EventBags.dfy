/** Which bag sighting the extraction keeps, and what that does to concealment
    (cloud-ai/app/events.py). */
module EventBags {
  import opened Detections
  import opened Zones
  import opened EventTypes
  import opened EventCues
  import opened EventExtraction
  import opened EventMeaning
  import opened EventTheorems

  // ----- steps in time order -----

  ghost predicate StepsInTime(steps: seq<Step>, bound: nat) {
    && (forall p, q :: 0 <= p < q < |steps| && steps[p].See? && steps[q].See? ==>
          steps[p].view.idx <= steps[q].view.idx)
    && forall p :: 0 <= p < |steps| && steps[p].See? ==> steps[p].view.idx < bound
  }

  lemma InTimeSnoc(steps: seq<Step>, bound: nat, step: Step)
    requires StepsInTime(steps, bound) && (step.See? ==> step.view.idx + 1 == bound)
    ensures StepsInTime(steps + [step], bound)
  {
  }

  lemma FrameInTime(before: seq<Step>, steps: seq<Step>, idx: nat)
    requires StepsInTime(before, idx) && AllIn(steps, idx)
    ensures StepsInTime(before + steps, idx + 1)
  {
    var all := before + steps;
    forall p | 0 <= p < |all| && all[p].See? ensures all[p].view.idx <= idx {
      assert p >= |before| ==> all[p] == steps[p - |before|];
    }
  }

  lemma {:induction false} ClipInTime(frames: seq<Frame>, zones: seq<Zone>)
    ensures StepsInTime(StepsOf(frames, zones), |frames|)
  {
    if frames != [] {
      var n := |frames| - 1;
      var before := StepsOf(frames[..n], zones);
      ClipInTime(frames[..n], zones);
      FrameStepsAreViews(n, frames[n], zones, |frames[n]|);
      var steps := FrameSteps(n, frames[n], zones, |frames[n]|);
      FrameInTime(before, steps, n);
      InTimeSnoc(before + steps, n + 1, EndOfFrame);
    }
  }

  // ----- the kept index -----

  /** No sighting of the cue at a shelf is more confident than the one at `p`. */
  ghost predicate MostConfident(steps: seq<Step>, p: nat, cue: Cue) {
    BagAt(steps, p, cue) && forall q: nat :: BagAt(steps, q, cue) ==> steps[q].view.conf <= steps[p].view.conf
  }

  ghost predicate LastAt(steps: seq<Step>, last: nat, cue: Cue) {
    BagAt(steps, last, cue) && forall q: nat :: BagAt(steps, q, cue) ==> q <= last
  }

  ghost predicate InFrameOf(steps: seq<Step>, p: nat, last: nat) {
    && p < |steps| && steps[p].See? && last < |steps| && steps[last].See?
    && steps[p].view.idx == steps[last].view.idx
  }

  lemma KeptIndex(steps: seq<Step>, cue: Cue, p: nat)
    requires cue == OpenBag || cue == PlainBag
    requires Leads(steps, p, cue)
    ensures BagOf(Fold(steps).cues, cue).lastIdx == steps[p].view.idx
  {
    BagMeaning(steps, cue);
    var b := BagOf(Fold(steps).cues, cue);
    assert b.lastIdx >= 0;
    var q: nat :| Leads(steps, q, cue) && EventMeaning.Shows(steps, q, b);
    LeadIsUnique(steps, cue, p, q);
  }

  lemma LeadExists(steps: seq<Step>, cue: Cue, q: nat) returns (p: nat)
    requires cue == OpenBag || cue == PlainBag
    requires BagAt(steps, q, cue)
    ensures Leads(steps, p, cue)
  {
    BagMeaning(steps, cue);
    assert BagOf(Fold(steps).cues, cue).lastIdx >= 0;
    p :| Leads(steps, p, cue) && EventMeaning.Shows(steps, p, BagOf(Fold(steps).cues, cue));
  }

  /** The kept index is the frame of the last sighting at a shelf exactly when no earlier frame
      had a more confident one than that frame's best. */
  lemma LastSightingKeptExactly(frames: seq<Frame>, zones: seq<Zone>, cue: Cue, last: nat)
    requires cue == OpenBag || cue == PlainBag
    requires LastAt(StepsOf(frames, zones), last, cue)
    ensures var steps := StepsOf(frames, zones);
      BagOf(CuesOf(frames, zones), cue).lastIdx == steps[last].view.idx
      <==> exists p: nat :: MostConfident(steps, p, cue) && InFrameOf(steps, p, last)
  {
    var steps := StepsOf(frames, zones);
    ClipInTime(frames, zones);
    var lead := LeadExists(steps, cue, last);
    KeptIndex(steps, cue, lead);
    assert MostConfident(steps, lead, cue);
    if p: nat :| MostConfident(steps, p, cue) && InFrameOf(steps, p, last) {
      assert p <= lead <= last;
      assert lead < last ==> steps[lead].view.idx <= steps[last].view.idx;
      assert p < lead ==> steps[p].view.idx <= steps[lead].view.idx;
    }
  }

  // ----- where it is not -----

  const BRIGHT := BAG.(conf := 0.9)
  const FADING: seq<Frame> := [[BRIGHT], [ITEM], [BAG]]

  const FADING_STEPS: seq<Step> := [
    See(View(0, OpenBag, -1, 0.9, [], [SHELF], 0)), EndOfFrame,
    See(View(1, ProductInHand, -1, 0.5, [], [SHELF], 0)), EndOfFrame,
    See(View(2, OpenBag, -1, 0.5, [], [SHELF], 0)), EndOfFrame]

  lemma FadingSteps()
    ensures StepsOf(FADING, [SHELF]) == FADING_STEPS
  {
    AddSingle([], BRIGHT);
    AddSingle([[BRIGHT]], ITEM);
    AddSingle([[BRIGHT], [ITEM]], BAG);
    assert [] + [[BRIGHT]] == [[BRIGHT]] && [[BRIGHT]] + [[ITEM]] == [[BRIGHT], [ITEM]];
    assert [[BRIGHT], [ITEM]] + [[BAG]] == FADING;
  }

  lemma FadingBag(p: nat, cue: Cue)
    requires cue == OpenBag || cue == PlainBag
    ensures BagAt(FADING_STEPS, p, cue) ==> cue == OpenBag && (p == 0 || p == 4)
    ensures BagAt(FADING_STEPS, 0, OpenBag) && BagAt(FADING_STEPS, 4, OpenBag)
  {
    assert ShelfZones([SHELF]) == [SHELF];
  }

  lemma FadingBags()
    ensures forall p: nat :: BagAt(FADING_STEPS, p, OpenBag) <==> p == 0 || p == 4
    ensures forall p: nat :: !BagAt(FADING_STEPS, p, PlainBag)
    ensures Leads(FADING_STEPS, 0, OpenBag)
  {
    FadingBag(0, OpenBag);
    forall p: nat
      ensures BagAt(FADING_STEPS, p, OpenBag) ==> p == 0 || p == 4
      ensures !BagAt(FADING_STEPS, p, PlainBag)
    {
      FadingBag(p, OpenBag);
      FadingBag(p, PlainBag);
    }
  }

  /** A bag seen clearly, then an item, then the bag again less clearly: the last sighting is in
      frame 2, the kept index is 0. */
  lemma ClearerBagHidesLaterOne()
    ensures LastAt(StepsOf(FADING, [SHELF]), 4, OpenBag) && StepsOf(FADING, [SHELF])[4].view.idx == 2
    ensures CuesOf(FADING, [SHELF]).openBag.lastIdx == 0
  {
    FadingSteps();
    FadingBags();
    KeptIndex(FADING_STEPS, OpenBag, 0);
  }

  lemma SingleHandled(d: Detection)
    requires d.at == Point(0.5, 0.5)
    ensures HandledIn([d], [SHELF]) <==> d.cue == ProductInHand
  {
    RectangleExactly(Point(0.5, 0.5), 0.0, 0.0, 1.0, 1.0);
    assert Containing(Point(0.5, 0.5), [SHELF]) == [SHELF];
    assert ShelfZones([SHELF]) == [SHELF];
    assert SeesAtShelf([d], [SHELF], ProductInHand, 0) <==> d.cue == ProductInHand;
    AtShelfNext([d], [SHELF], ProductInHand, 0);
  }

  lemma FadingHandling()
    ensures IsFirstHandled(FADING, [SHELF], 1)
  {
    SingleHandled(BRIGHT);
    SingleHandled(ITEM);
  }

  /** So a bag that does appear after the item was handled goes unreported. */
  lemma ClearerBagHidesConcealment(fps: real)
    ensures HandledIn(FADING[1], [SHELF])
    ensures Evidence(CuesOf(FADING, [SHELF]), SignalsOf(fps, FADING, [SHELF]), Concealment).None?
  {
    FadingSteps();
    FadingBags();
    FadingHandling();
    ConcealmentExactly(fps, FADING, [SHELF], 1);
    assert Sightings(FADING_STEPS, Hiding) == {};
    if p: nat :| Leads(FADING_STEPS, p, OpenBag) && FADING_STEPS[p].view.idx > 1 {
      LeadIsUnique(FADING_STEPS, OpenBag, p, 0);
    }
  }
}
