/** When a dwell, a blind-spot movement, an open bag and a re-entry are reported, and with what
    (cloud-ai/app/events.py). */
module EventReports {
  import opened Wrappers
  import opened Detections
  import opened Zones
  import opened EventTypes
  import opened EventCues
  import opened EventTimelines
  import opened EventExtraction
  import opened EventMeaning
  import opened EventTheorems
  import opened EventReentry
  import opened EventExits

  // ----- dwell -----

  /** The longest unbroken high-value stay of any track. */
  ghost predicate IsLongestStay(frames: seq<Frame>, zones: seq<Zone>, n: nat) {
    && (forall t: int :: LongestStay(VisitsIn(frames, zones, t)) <= n)
    && (n == 0 || exists t: int :: LongestStay(VisitsIn(frames, zones, t)) == n)
  }

  lemma LongestIsReached(frames: seq<Frame>, zones: seq<Zone>, n: nat) returns (t: int)
    requires IsLongestStay(frames, zones, n)
    ensures LongestStay(VisitsIn(frames, zones, t)) == n
  {
    if n == 0 {
      t := 0;
    } else {
      t :| LongestStay(VisitsIn(frames, zones, t)) == n;
    }
  }

  lemma DwellBetween(dwell: real, m: nat, n: nat, fps: real)
    requires m <= n && Seconds(n, fps) <= dwell
    requires dwell == 0.0 || dwell == Seconds(m, fps)
    ensures dwell == Seconds(n, fps)
  {
    SecondsGrow(m, n, fps);
  }

  lemma LongestDwell(fps: real, frames: seq<Frame>, zones: seq<Zone>, n: nat)
    requires IsLongestStay(frames, zones, n)
    ensures SignalsOf(fps, frames, zones).dwell == Seconds(n, fps)
  {
    var t := LongestIsReached(frames, zones, n);
    NoTrackExceeds(fps, frames, zones, t);
    SomeTrackReaches(fps, frames, zones);
    var dwell, track := SignalsOf(fps, frames, zones).dwell, SignalsOf(fps, frames, zones).dwellTrack;
    DwellBetween(dwell, LongestStay(VisitsIn(frames, zones, track)), n, fps);
  }

  lemma DwellEvidence(c: Cues, a: Across)
    ensures var e := Evidence(c, a, Dwell);
      (e.Some? <==> a.dwell > 0.0) && (e.Some? ==> e.value.value == RoundTo(a.dwell, 10.0))
  {
  }

  /** A dwell is reported exactly when somebody stayed in a high-value zone at all, with the
      longest stay in seconds, to a tenth. */
  lemma DwellExactly(fps: real, frames: seq<Frame>, zones: seq<Zone>, n: nat)
    requires IsLongestStay(frames, zones, n)
    ensures var e := Evidence(CuesOf(frames, zones), SignalsOf(fps, frames, zones), Dwell);
      (e.Some? <==> n > 0) && (e.Some? ==> e.value.value == RoundTo(Seconds(n, fps), 10.0))
  {
    LongestDwell(fps, frames, zones, n);
    SecondsGrow(0, n, fps);
    DwellEvidence(CuesOf(frames, zones), SignalsOf(fps, frames, zones));
  }

  // ----- blind spots -----

  /** A track that saw a blind spot with something to report. */
  predicate SawBlindSpot(tl: Timeline) {
    ZoneOf(tl.visits, BlindSpot).Some?
  }

  ghost predicate FirstBlindSpot(tracks: seq<Timeline>, k: nat) {
    && k < |tracks| && SawBlindSpot(tracks[k])
    && forall j :: 0 <= j < k ==> !SawBlindSpot(tracks[j])
  }

  ghost predicate BlindReport(tracks: seq<Timeline>, zone: Option<string>, track: int) {
    if zone.None? then forall k :: 0 <= k < |tracks| ==> !SawBlindSpot(tracks[k])
    else exists k: nat ::
           FirstBlindSpot(tracks, k) && track == tracks[k].track && zone == ZoneOf(tracks[k].visits, BlindSpot)
  }

  predicate BlindNext(tl: Timeline, a: Across, b: Across) {
    if a.blindZone.None? && SawBlindSpot(tl)
    then b.blindZone == ZoneOf(tl.visits, BlindSpot) && b.blindTrack == tl.track
    else b.blindZone == a.blindZone && (a.blindZone.Some? ==> b.blindTrack == a.blindTrack)
  }

  lemma {:induction false} ZoneOfVisited(visits: seq<Visit>, t: ZoneType)
    requires ZoneOf(visits, t).Some?
    ensures t in Visited(visits)
  {
    if t !in TypesOf(visits[|visits| - 1].zones) {
      ZoneOfVisited(visits[..|visits| - 1], t);
    }
  }

  lemma AddBlind(a: Across, fps: real, tl: Timeline)
    ensures BlindNext(tl, a, AddTrack(a, fps, tl))
  {
    if SawBlindSpot(tl) {
      ZoneOfVisited(tl.visits, BlindSpot);
    }
  }

  lemma BlindReportNext(tracks: seq<Timeline>, a: Across, b: Across)
    requires tracks != [] && BlindNext(tracks[|tracks| - 1], a, b)
    requires BlindReport(tracks[..|tracks| - 1], a.blindZone, a.blindTrack)
    ensures BlindReport(tracks, b.blindZone, b.blindTrack)
  {
    var n: nat := |tracks| - 1;
    assert forall j :: 0 <= j < n ==> tracks[..n][j] == tracks[j];
    if a.blindZone.Some? {
      var k: nat :| FirstBlindSpot(tracks[..n], k) && a.blindTrack == tracks[k].track
        && a.blindZone == ZoneOf(tracks[k].visits, BlindSpot);
      assert FirstBlindSpot(tracks, k);
    } else if SawBlindSpot(tracks[n]) {
      assert FirstBlindSpot(tracks, n);
    }
  }

  /** The zone and the track of the first track that saw a blind spot with an id. */
  lemma {:induction false} BlindMeaning(fps: real, tracks: seq<Timeline>)
    ensures BlindReport(tracks, AcrossOf(fps, tracks).blindZone, AcrossOf(fps, tracks).blindTrack)
  {
    if tracks != [] {
      var rest := tracks[..|tracks| - 1];
      BlindMeaning(fps, rest);
      AddBlind(AcrossOf(fps, rest), fps, tracks[|tracks| - 1]);
      BlindReportNext(tracks, AcrossOf(fps, rest), AcrossOf(fps, tracks));
    }
  }

  lemma BlindEvidence(c: Cues, a: Across)
    ensures var e := Evidence(c, a, BlindSpotMovement);
      (e.Some? <==> a.blindZone.Some?) && (e.Some? ==> e.value.zoneId == a.blindZone && e.value.trackId == a.blindTrack)
  {
  }

  ghost predicate SomebodySawBlindSpot(frames: seq<Frame>, zones: seq<Zone>) {
    exists t: int :: ZoneOf(VisitsIn(frames, zones, t), BlindSpot).Some?
  }

  /** A blind-spot movement is reported exactly when some track saw a blind spot that has an id,
      and it names a track that did. */
  lemma BlindSpotExactly(fps: real, frames: seq<Frame>, zones: seq<Zone>)
    ensures var e := Evidence(CuesOf(frames, zones), SignalsOf(fps, frames, zones), BlindSpotMovement);
      && (e.Some? <==> SomebodySawBlindSpot(frames, zones))
      && (e.Some? ==> e.value.zoneId == ZoneOf(VisitsIn(frames, zones, e.value.trackId), BlindSpot))
  {
    var steps, tracks, a := StepsOf(frames, zones), CuesOf(frames, zones).tracks, SignalsOf(fps, frames, zones);
    TimelineMeaning(steps);
    BlindMeaning(fps, tracks);
    BlindEvidence(CuesOf(frames, zones), a);
    if a.blindZone.Some? {
      var k: nat :| FirstBlindSpot(tracks, k) && a.blindTrack == tracks[k].track
        && a.blindZone == ZoneOf(tracks[k].visits, BlindSpot);
      assert tracks[k].visits == VisitsIn(frames, zones, a.blindTrack);
    }
    if t: int :| ZoneOf(VisitsIn(frames, zones, t), BlindSpot).Some? {
      TimelineListed(steps, tracks, t);
      assert SawBlindSpot(Timeline(t, VisitsIn(frames, zones, t)));
    }
  }

  /** With named zones: exactly when some person was seen in a blind spot. */
  lemma BlindSpotWhenNamed(frames: seq<Frame>, zones: seq<Zone>)
    requires Named(zones)
    ensures SomebodySawBlindSpot(frames, zones) <==> exists t: int :: Reaches(VisitsIn(frames, zones, t), BlindSpot)
  {
    StepsNamed(frames, zones);
    forall t: int
      ensures ZoneOf(VisitsIn(frames, zones, t), BlindSpot).Some? <==> Reaches(VisitsIn(frames, zones, t), BlindSpot)
    {
      var visits := VisitsIn(frames, zones, t);
      VisitsNamed(StepsOf(frames, zones), t);
      VisitedMeaning(visits, BlindSpot);
      if BlindSpot in Visited(visits) {
        ZoneOfNamed(visits, BlindSpot);
      }
      if ZoneOf(visits, BlindSpot).Some? {
        ZoneOfVisited(visits, BlindSpot);
      }
    }
  }

  // ----- open bags -----

  /** The sighting that leads is at a shelf whose last zone has an id, and the cue was seen ten
      times. */
  ghost predicate BagCounts(steps: seq<Step>, cue: Cue, p: nat) {
    && |Sightings(steps, cue)| >= 10 && Leads(steps, p, cue)
    && LastShelfId(steps[p].view).Some?
  }

  function LastShelfId(v: View): Option<string> {
    var shelf := ShelfZones(v.zones);
    if shelf == [] then None else shelf[|shelf| - 1].id
  }

  ghost predicate SomeBagCounts(steps: seq<Step>, cue: Cue) {
    exists p: nat :: BagCounts(steps, cue, p)
  }

  lemma KeptBag(steps: seq<Step>, cue: Cue, p: nat)
    requires cue == OpenBag || cue == PlainBag
    requires Leads(steps, p, cue)
    ensures var b := BagOf(Fold(steps).cues, cue);
      b.zone == LastShelfId(steps[p].view) && b.conf == steps[p].view.conf
  {
    BagMeaning(steps, cue);
    var b := BagOf(Fold(steps).cues, cue);
    assert b.lastIdx >= 0;
    var q: nat :| Leads(steps, q, cue) && EventMeaning.Shows(steps, q, b);
    LeadIsUnique(steps, cue, p, q);
  }

  lemma BagZoneExactly(steps: seq<Step>, cue: Cue)
    requires cue == OpenBag || cue == PlainBag
    ensures var b := BagOf(Fold(steps).cues, cue);
      b.dets >= 10 && b.zone.Some? <==> SomeBagCounts(steps, cue)
  {
    var b := BagOf(Fold(steps).cues, cue);
    CountMeaning(steps);
    BagMeaning(steps, cue);
    if b.dets >= 10 && b.zone.Some? {
      var p: nat :| Leads(steps, p, cue) && EventMeaning.Shows(steps, p, b);
      assert BagCounts(steps, cue, p);
    }
    if p: nat :| BagCounts(steps, cue, p) {
      KeptBag(steps, cue, p);
    }
  }

  lemma BagEvidence(c: Cues, a: Across)
    ensures var e := Evidence(c, a, BagOpen);
      && (e.Some? <==> OpenBagZone(c).Some? || FallbackBagZone(c).Some?)
      && (e.Some? ==>
            var b := if OpenBagZone(c).Some? then c.openBag else c.bag;
            e.value.zoneId == b.zone && e.value.confidence == RoundTo(b.conf, 1000.0))
  {
  }

  /** An open bag is reported exactly when bags, open ones or else plain ones, were seen ten
      times and the leading sighting is at a shelf with an id. */
  lemma BagOpenExactly(fps: real, frames: seq<Frame>, zones: seq<Zone>)
    ensures var steps := StepsOf(frames, zones);
      Evidence(CuesOf(frames, zones), SignalsOf(fps, frames, zones), BagOpen).Some?
      <==> SomeBagCounts(steps, OpenBag) || SomeBagCounts(steps, PlainBag)
  {
    var steps := StepsOf(frames, zones);
    BagZoneExactly(steps, OpenBag);
    BagZoneExactly(steps, PlainBag);
    BagEvidence(CuesOf(frames, zones), SignalsOf(fps, frames, zones));
  }

  /** It names the shelf and the confidence of the leading sighting, open bags before plain ones. */
  lemma BagOpenNamesLead(fps: real, frames: seq<Frame>, zones: seq<Zone>, cue: Cue, p: nat)
    requires cue == OpenBag || (cue == PlainBag && !SomeBagCounts(StepsOf(frames, zones), OpenBag))
    requires BagCounts(StepsOf(frames, zones), cue, p)
    ensures var v, e := StepsOf(frames, zones)[p].view,
        Evidence(CuesOf(frames, zones), SignalsOf(fps, frames, zones), BagOpen);
      e.Some? && e.value.zoneId == LastShelfId(v) && e.value.confidence == RoundTo(v.conf, 1000.0)
  {
    var steps := StepsOf(frames, zones);
    assert SomeBagCounts(steps, cue);
    BagZoneExactly(steps, OpenBag);
    BagZoneExactly(steps, PlainBag);
    KeptBag(steps, cue, p);
    BagEvidence(CuesOf(frames, zones), SignalsOf(fps, frames, zones));
  }

  // ----- re-entries -----

  lemma ReentryEvidence(c: Cues, a: Across)
    requires c.handling.episodes == 0 && a.reentries > 0
    ensures var e := Evidence(c, a, RepeatedHandling);
      && e.Some? && e.value.zoneId == a.carried.reentryZone && e.value.trackId == a.carried.reentryTrack
  {
  }

  /** Where nothing was handled, repeated handling names the first named shelf anybody entered.
      The track it names is the one that entered there exactly when no later track re-enters
      more often than everybody up to it. */
  lemma ReentryNamesExactly(fps: real, frames: seq<Frame>, zones: seq<Zone>, f: nat)
    requires !SomethingHandled(frames, zones)
    requires GivesZone(CuesOf(frames, zones).tracks, f)
    ensures var tracks, e := CuesOf(frames, zones).tracks,
        Evidence(CuesOf(frames, zones), SignalsOf(fps, frames, zones), RepeatedHandling);
      && e.Some? && e.value.zoneId == NamedEntry(tracks[f].visits)
      && (e.value.trackId == tracks[f].track <==> NobodyLaterExceeds(tracks, f))
  {
    var c, a := CuesOf(frames, zones), SignalsOf(fps, frames, zones);
    HandlingIsOneSignal(frames, zones);
    TimelineMeaning(StepsOf(frames, zones));
    ZoneAndTrackAgreeExactly(fps, c.tracks, f);
    EntryIsReentry(c.tracks[f].visits);
    AcrossMost(fps, c.tracks);
    ReentryEvidence(c, a);
  }

  // ----- units -----

  /** A stay lasts as many seconds as it has frames, divided by the frame rate; a rate under one in
      a million seconds counts as that. */
  lemma SecondsExactly(run: nat, fps: real)
    ensures fps >= 0.000001 ==> Seconds(run, fps) * fps == run as real
    ensures fps < 0.000001 ==> Seconds(run, fps) == run as real * 1000000.0
  {
    if fps >= 0.000001 {
      assert PerSecond(fps) == fps;
    } else {
      assert PerSecond(fps) == 0.000001;
    }
  }

  lemma Unscale(n: int, r: real, x: real, scale: real)
    requires scale > 0.0 && r == n as real / scale
    ensures r * scale == n as real && (r - x) * scale == n as real - x * scale
  {
    assert (r - x) * scale == r * scale - x * scale;
  }

  /** Values are rounded to the nearest multiple of a tenth or a thousandth. */
  lemma RoundToIsNearest(x: real, scale: real) returns (n: int)
    requires scale > 0.0
    ensures RoundTo(x, scale) * scale == n as real && -0.5 <= (RoundTo(x, scale) - x) * scale <= 0.5
  {
    n := RoundHalfEven(x * scale);
    Unscale(n, RoundTo(x, scale), x, scale);
  }

  // ----- the order of the report -----

  function Place(t: AiEventType): nat {
    match t
    case HighValueZoneEntry => 1
    case Dwell => 2
    case RepeatedHandling => 3
    case Concealment => 4
    case ShelfPickupNoCheckout => 5
    case ExitWithoutCheckout => 6
    case BlindSpotMovement => 7
    case GroupDistraction => 8
    case HighValueActivity => 9
    case LowStaffRemoval => 10
    case BagOpen => 11
  }

  /** Every clip lists its events in the same order of types. */
  lemma ReportedInFixedOrder(fps: real, frames: seq<Frame>, zones: seq<Zone>, i: nat, j: nat)
    requires i < j < |EventsOf(fps, frames, zones)|
    ensures var events := EventsOf(fps, frames, zones); Place(events[i].eventType) < Place(events[j].eventType)
  {
    var c := CuesOf(frames, zones);
    ReportedInOrder(c, AcrossOf(fps, c.tracks), |ORDER|, i, j);
    PlaceIsRank(EventsOf(fps, frames, zones)[i].eventType);
    PlaceIsRank(EventsOf(fps, frames, zones)[j].eventType);
  }

  lemma PlaceIsRank(t: AiEventType)
    ensures Place(t) == Rank(t) + 1
  {
  }
}
