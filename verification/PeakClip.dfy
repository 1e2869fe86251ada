/** A clip that shows everything the extraction can report. */
module PeakClip {
  import opened Wrappers
  import opened Detections
  import opened Polygons
  import opened Zones
  import opened Streaks
  import opened EventTypes
  import opened EventCues
  import opened EventTimelines
  import opened EventExtraction
  import opened EventMeaning
  import opened EventViews
  import opened EventTheorems
  import opened EventBags
  import opened EventExits
  import opened EventReports

  const SQUARE: Polygon := Rectangle(0.0, 0.0, 1.0, 1.0)
  const MIDDLE := Point(0.5, 0.5)
  const AREAS: seq<Zone> := [
    Zone(Some("value"), HighValue, SQUARE), Zone(Some("exit"), Exit, SQUARE), Zone(Some("blind"), BlindSpot, SQUARE)]

  const SOMEONE := Detection(Person, 1, MIDDLE, 0.9, [])
  const GOODS := Detection(ProductInHand, -1, MIDDLE, 0.5, [])
  const OPENED := Detection(OpenBag, -1, MIDDLE, 0.5, [])
  const BUSY: Frame := [SOMEONE, SOMEONE, SOMEONE, GOODS, OPENED, OPENED, OPENED, OPENED]

  /** Three persons, an item and four open bags, seen three times with empty frames between, at
      one frame in a hundred seconds. */
  const PEAK: seq<Frame> := [BUSY, [], BUSY, [], BUSY]
  const SLOW := 0.01

  // ----- what is seen -----

  lemma MiddleIsEverywhere()
    ensures Containing(MIDDLE, AREAS) == AREAS
  {
    RectangleExactly(MIDDLE, 0.0, 0.0, 1.0, 1.0);
    assert AREAS[..2][..1] == [AREAS[0]] && AREAS[..2][1] == AREAS[1] && AREAS[..1] == [AREAS[0]];
    assert Containing(MIDDLE, [AREAS[0]]) == [AREAS[0]];
    assert Containing(MIDDLE, AREAS[..2]) == [AREAS[0], AREAS[1]];
  }

  lemma AreaShelves()
    ensures ShelfZones(AREAS) == [AREAS[0]] && HighValueZone(AREAS) == Some(AREAS[0])
  {
    assert AREAS[..2][..1] == AREAS[..1];
    assert ShelfZones(AREAS[..1]) == [AREAS[0]] && ShelfZones(AREAS[..2]) == [AREAS[0]];
  }

  lemma AreaIds()
    ensures ByType(AREAS, HighValue) == Some("value")
  {
    assert AREAS[..2][..1] == AREAS[..1];
    assert ByType(AREAS[..1], HighValue) == ByType(AREAS[..2], HighValue) == Some("value");
  }

  lemma AreaTypes()
    ensures TypesOf(AREAS) == {HighValue, Exit, BlindSpot}
  {
    assert AREAS[0].zoneType in TypesOf(AREAS) && AREAS[1].zoneType in TypesOf(AREAS)
      && AREAS[2].zoneType in TypesOf(AREAS);
  }

  lemma AreasAre()
    ensures ShelfZones(AREAS) == [AREAS[0]] && HighValueZone(AREAS) == Some(AREAS[0])
    ensures ByType(AREAS, HighValue) == Some("value")
    ensures TypesOf(AREAS) == {HighValue, Exit, BlindSpot}
    ensures Named(AREAS)
  {
    AreaShelves();
    AreaIds();
    AreaTypes();
  }

  lemma InTheMiddle(i: nat, k: nat)
    requires i < |PEAK| && k < |PEAK[i]|
    ensures PEAK[i] == BUSY && PEAK[i][k].at == MIDDLE
    ensures ViewOf(i, PEAK[i], k, AREAS).zones == AREAS
    ensures PEAK[i][k].cue == OpenBag ==> PEAK[i][k].conf == 0.5
  {
    MiddleIsEverywhere();
  }

  lemma StepsInTheMiddle(p: nat)
    requires p < |StepsOf(PEAK, AREAS)| && StepsOf(PEAK, AREAS)[p].See?
    ensures var v := StepsOf(PEAK, AREAS)[p].view; v.zones == AREAS && (v.cue == OpenBag ==> v.conf == 0.5)
  {
    var i, k := StepHasDetection(PEAK, AREAS, p);
    InTheMiddle(i, k);
  }

  lemma Seen(k: nat) returns (p: nat)
    requires k < |BUSY|
    ensures var steps := StepsOf(PEAK, AREAS);
      && p < |steps| && steps[p].See? && steps[p].view.idx == 4 && steps[p].view.zones == AREAS
      && steps[p].view.cue == BUSY[k].cue && steps[p].view.track == BUSY[k].trackId
      && steps[p].view.conf == BUSY[k].conf
  {
    assert PEAK[4] == BUSY;
    p := DetectionHasStep(PEAK, AREAS, 4, k);
    InTheMiddle(4, k);
  }

  // ----- the visits of the person -----

  lemma {:induction false} VisitsKeepZones(steps: seq<Step>, track: int, zones: seq<Zone>)
    requires forall p :: 0 <= p < |steps| && steps[p].See? ==> steps[p].view.zones == zones
    ensures forall k :: 0 <= k < |VisitsOf(steps, track)| ==> VisitsOf(steps, track)[k].zones == zones
  {
    if steps != [] {
      VisitsKeepZones(steps[..|steps| - 1], track, zones);
    }
  }

  lemma {:induction false} SightingMakesVisit(steps: seq<Step>, track: int, p: nat)
    requires SeesCue(steps, p, Person) && steps[p].view.track == track
    ensures VisitsOf(steps, track) != []
  {
    if p < |steps| - 1 {
      SightingMakesVisit(steps[..|steps| - 1], track, p);
    }
  }

  lemma PeakVisits()
    ensures var visits := VisitsIn(PEAK, AREAS, 1);
      visits != [] && InTime(visits, 5) && forall k :: 0 <= k < |visits| ==> visits[k].zones == AREAS
  {
    forall p | 0 <= p < |StepsOf(PEAK, AREAS)| && StepsOf(PEAK, AREAS)[p].See?
      ensures StepsOf(PEAK, AREAS)[p].view.zones == AREAS
    {
      StepsInTheMiddle(p);
    }
    VisitsKeepZones(StepsOf(PEAK, AREAS), 1, AREAS);
    var p := Seen(0);
    SightingMakesVisit(StepsOf(PEAK, AREAS), 1, p);
    VisitsInTime(PEAK, AREAS, 1);
  }

  /** Someone who is everywhere at once stays, leaves, and was in a blind spot. */
  lemma EverywhereAtOnce(visits: seq<Visit>)
    requires visits != [] && InTime(visits, 5) && forall k :: 0 <= k < |visits| ==> visits[k].zones == AREAS
    ensures LongestStay(visits) >= 1 && Leaves(visits) && Reaches(visits, BlindSpot)
  {
    AreasAre();
    assert At(visits, 0, BlindSpot) && At(visits, 0, Exit);
    assert ShelfBeforeExits(visits, 0);
    var flags := HighValueFlags(visits);
    assert Unbroken(flags, 0, 1);
    LongestRunMeaning(flags, 0, 1);
  }

  // ----- the signals -----

  lemma BusyHandled()
    ensures HandledIn(BUSY, AREAS) && !HandledIn([], AREAS)
  {
    MiddleIsEverywhere();
    AreasAre();
    assert SeesAtShelf(BUSY, AREAS, ProductInHand, 3);
    assert 3 in AtShelfUpTo(BUSY, AREAS, ProductInHand, |BUSY|);
    assert AtShelfUpTo([], AREAS, ProductInHand, 0) == {};
  }

  lemma BusyAtShelf(cue: Cue, k: nat)
    ensures SeesAtShelf(BUSY, AREAS, cue, k) <==> k < |BUSY| && BUSY[k].cue == cue
  {
    MiddleIsEverywhere();
    AreasAre();
  }

  lemma BusyPersons()
    ensures PersonsAtShelf(BUSY, AREAS) == 3
  {
    var three: set<nat> := {0, 1, 2};
    forall k: nat ensures k in AtShelfUpTo(BUSY, AREAS, Person, |BUSY|) <==> k in three {
      BusyAtShelf(Person, k);
    }
    assert AtShelfUpTo(BUSY, AREAS, Person, |BUSY|) == three;
  }

  lemma PeakHandling()
    ensures SomethingHandled(PEAK, AREAS) && IsFirstHandled(PEAK, AREAS, 0)
    ensures |Rising(HandlingFlags(PEAK, AREAS))| == 3
  {
    BusyHandled();
    assert HandledIn(PEAK[0], AREAS);
    var flags := HandlingFlags(PEAK, AREAS);
    HandlingFlagsAt(PEAK, AREAS, 0);
    forall i | 0 <= i < 5 ensures flags[i] == (i % 2 == 0) {
      HandlingFlagsAt(PEAK, AREAS, i);
      assert PEAK[i] == if i % 2 == 0 then BUSY else [];
    }
    Alternating(flags);
  }

  lemma Alternating(flags: seq<bool>)
    requires |flags| == 5 && forall i :: 0 <= i < 5 ==> flags[i] == (i % 2 == 0)
    ensures |Rising(flags)| == 3
  {
    var three: set<nat> := {0, 2, 4};
    forall k: nat ensures k in Rising(flags) <==> k in three {
      if k < 5 {
        assert RisesAt(flags, k) <==> k % 2 == 0;
      }
    }
    assert Rising(flags) == three;
  }

  lemma {:induction false} NoneOpen(dets: Frame)
    requires forall k :: 0 <= k < |dets| ==> dets[k].cue != OpenBag
    ensures CountIn(dets, OpenBag) == 0
  {
    if dets != [] {
      NoneOpen(dets[..|dets| - 1]);
    }
  }

  lemma BusyCount()
    ensures CountIn(BUSY, OpenBag) == 4
  {
    var four: Frame := [SOMEONE, SOMEONE, SOMEONE, GOODS];
    NoneOpen(four);
    CountSnoc(four, OPENED, OpenBag);
    CountSnoc(four + [OPENED], OPENED, OpenBag);
    CountSnoc(four + [OPENED] + [OPENED], OPENED, OpenBag);
    CountSnoc(four + [OPENED] + [OPENED] + [OPENED], OPENED, OpenBag);
    assert four + [OPENED] + [OPENED] + [OPENED] + [OPENED] == BUSY;
  }

  lemma PairCount(frames: seq<Frame>)
    ensures Total(frames + [[], BUSY], OpenBag) == Total(frames, OpenBag) + 4
  {
    BusyCount();
    TotalSnoc(frames, [], OpenBag);
    TotalSnoc(frames + [[]], BUSY, OpenBag);
    assert frames + [[]] + [BUSY] == frames + [[], BUSY];
  }

  lemma PairsCount(frames: seq<Frame>)
    ensures Total(frames + [[], BUSY] + [[], BUSY], OpenBag) == Total(frames, OpenBag) + 8
  {
    PairCount(frames);
    PairCount(frames + [[], BUSY]);
  }

  lemma PeakCount()
    ensures Total(PEAK, OpenBag) == 12
  {
    BusyCount();
    TotalSnoc([], BUSY, OpenBag);
    assert [] + [BUSY] == [BUSY];
    PairsCount([BUSY]);
    assert [BUSY] + [[], BUSY] + [[], BUSY] == PEAK;
  }

  lemma LeadComesLate(q: nat, p: nat)
    requires BagAt(StepsOf(PEAK, AREAS), q, OpenBag) && Leads(StepsOf(PEAK, AREAS), p, OpenBag)
    ensures StepsOf(PEAK, AREAS)[q].view.idx <= StepsOf(PEAK, AREAS)[p].view.idx
  {
    StepsInTheMiddle(p);
    StepsInTheMiddle(q);
    assert p >= q;
    ClipInTime(PEAK, AREAS);
  }

  lemma PeakBags() returns (p: nat)
    ensures BagCounts(StepsOf(PEAK, AREAS), OpenBag, p) && StepsOf(PEAK, AREAS)[p].view.idx > 0
  {
    var steps := StepsOf(PEAK, AREAS);
    AreasAre();
    SightingsAreDetections(PEAK, AREAS, OpenBag);
    PeakCount();
    var q := Seen(7);
    assert BagAt(steps, q, OpenBag);
    p := LeadExists(steps, OpenBag, q);
    LeadComesLate(q, p);
    StepsInTheMiddle(p);
  }

  // ----- the events -----

  ghost function PeakEvidence(t: AiEventType): Option<AiEvent> {
    Evidence(CuesOf(PEAK, AREAS), SignalsOf(SLOW, PEAK, AREAS), t)
  }

  lemma PeakEntry()
    ensures PeakEvidence(HighValueZoneEntry).Some?
  {
    AreasAre();
    var p := Seen(0);
    assert EntersAt(StepsOf(PEAK, AREAS), p);
    HighValueEntryExactly(SLOW, PEAK, AREAS);
  }

  lemma PeakDwell()
    ensures PeakEvidence(Dwell).Some? && PeakEvidence(Dwell).value.value >= 90.0
  {
    PeakVisits();
    EverywhereAtOnce(VisitsIn(PEAK, AREAS, 1));
    NoTrackExceeds(SLOW, PEAK, AREAS, 1);
    DwellEvidence(CuesOf(PEAK, AREAS), SignalsOf(SLOW, PEAK, AREAS));
    LongAtHundredSeconds(LongestStay(VisitsIn(PEAK, AREAS, 1)), SignalsOf(SLOW, PEAK, AREAS).dwell);
  }

  lemma LongAtHundredSeconds(run: nat, dwell: real)
    requires run >= 1 && Seconds(run, SLOW) <= dwell
    ensures dwell > 0.0 && RoundTo(dwell, 10.0) >= 90.0
  {
    SecondsGrow(1, run, SLOW);
    assert Seconds(1, SLOW) == 100.0;
  }

  lemma PeakRepeated()
    ensures ValueOf(PeakEvidence(RepeatedHandling)) == 3.0 && PeakEvidence(LowStaffRemoval).Some?
  {
    PeakHandling();
    MostReentries(SLOW, PEAK, AREAS);
    RepeatedHandlingExactly(SLOW, PEAK, AREAS, SignalsOf(SLOW, PEAK, AREAS).reentries);
  }

  lemma PeakConcealment()
    ensures PeakEvidence(Concealment).Some? && PeakEvidence(BagOpen).Some?
  {
    var p := PeakBags();
    PeakHandling();
    assert BagAfter(StepsOf(PEAK, AREAS), OpenBag, 0);
    ConcealmentExactly(SLOW, PEAK, AREAS, 0);
    BagOpenExactly(SLOW, PEAK, AREAS);
  }

  lemma PeakExit()
    ensures PeakEvidence(ShelfPickupNoCheckout).Some? && PeakEvidence(BlindSpotMovement).Some?
  {
    AreasAre();
    PeakVisits();
    EverywhereAtOnce(VisitsIn(PEAK, AREAS, 1));
    PeakHandling();
    ExitExactlyWhenNamed(PEAK, AREAS);
    ExitExactly(SLOW, PEAK, AREAS);
    BlindSpotWhenNamed(PEAK, AREAS);
    BlindSpotExactly(SLOW, PEAK, AREAS);
  }

  lemma PeakGroup()
    ensures PeakEvidence(GroupDistraction).Some? && PeakEvidence(GroupDistraction).value.value >= 3.0
  {
    BusyPersons();
    assert PersonsAtShelf(PEAK[0], AREAS) == 3;
    FrameSignals(PEAK, AREAS);
    GroupExactly(SLOW, PEAK, AREAS, CuesOf(PEAK, AREAS).group.max);
  }

  lemma PeakActivity()
    ensures PeakEvidence(HighValueActivity).Some?
  {
    AreasAre();
    var steps := StepsOf(PEAK, AREAS);
    var p := Seen(0);
    var q := Seen(3);
    assert SeesCue(steps, p, Person) && InHighValueZone(steps[p].view);
    assert SeesCue(steps, q, ProductInHand) && InHighValueZone(steps[q].view);
    HighValueActivityExactly(SLOW, PEAK, AREAS);
  }
}
