/** What a reported event says about the clip (cloud-ai/app/events.py). */
module EventTheorems {
  import opened Wrappers
  import opened Detections
  import opened Polygons
  import opened Zones
  import opened Streaks
  import opened EventTypes
  import opened EventCues
  import opened EventTimelines
  import opened EventExtraction
  import opened EventMeaning

  ghost function SignalsOf(fps: real, frames: seq<Frame>, zones: seq<Zone>): Across {
    AcrossOf(fps, CuesOf(frames, zones).tracks)
  }

  ghost function VisitsIn(frames: seq<Frame>, zones: seq<Zone>, track: int): seq<Visit> {
    VisitsOf(StepsOf(frames, zones), track)
  }

  // ----- dwell and re-entries: a maximum over the tracks -----

  /** `a` holds the greatest stay and the greatest re-entry count of the timelines. */
  ghost predicate Maximal(fps: real, tracks: seq<Timeline>, a: Across) {
    && NoneAbove(fps, tracks, a)
    && (a.dwell == 0.0 || StayReached(fps, tracks, a))
    && (a.reentries == 0 || ReentriesReached(tracks, a.reentries))
    && a.dwell >= 0.0
  }

  ghost predicate NoneAbove(fps: real, tracks: seq<Timeline>, a: Across) {
    forall i :: 0 <= i < |tracks| ==>
      Stay(fps, tracks[i]) <= a.dwell && Reentries(tracks[i].visits) <= a.reentries
  }

  function Stay(fps: real, tl: Timeline): real {
    Seconds(LongestStay(tl.visits), fps)
  }

  predicate StaysAs(fps: real, tl: Timeline, a: Across) {
    a.dwell == Stay(fps, tl) && a.dwellTrack == tl.track && a.dwellZone == LongestStayZone(tl.visits)
  }

  /** What a timeline `tl` makes of the maxima `a`. */
  predicate Raised(fps: real, a: Across, tl: Timeline, b: Across) {
    && (if Stay(fps, tl) > a.dwell then StaysAs(fps, tl, b)
        else (b.dwell, b.dwellTrack, b.dwellZone) == (a.dwell, a.dwellTrack, a.dwellZone))
    && b.reentries == (if Reentries(tl.visits) > a.reentries then Reentries(tl.visits) else a.reentries)
  }

  lemma AddTrackRaises(fps: real, a: Across, tl: Timeline)
    ensures Raised(fps, a, tl, AddTrack(a, fps, tl))
  {
  }

  ghost predicate StayReached(fps: real, tracks: seq<Timeline>, a: Across) {
    exists i :: 0 <= i < |tracks| && StaysAs(fps, tracks[i], a)
  }

  ghost predicate ReentriesReached(tracks: seq<Timeline>, n: nat) {
    exists i :: 0 <= i < |tracks| && Reentries(tracks[i].visits) == n
  }

  lemma NoneAboveNext(fps: real, tracks: seq<Timeline>, a: Across, b: Across)
    requires tracks != [] && NoneAbove(fps, tracks[..|tracks| - 1], a)
    requires Raised(fps, a, tracks[|tracks| - 1], b)
    ensures NoneAbove(fps, tracks, b)
  {
    var rest := tracks[..|tracks| - 1];
    forall i | 0 <= i < |tracks|
      ensures Stay(fps, tracks[i]) <= b.dwell && Reentries(tracks[i].visits) <= b.reentries
    {
      if i < |rest| {
        assert rest[i] == tracks[i];
      }
    }
  }

  lemma StayReachedNext(fps: real, tracks: seq<Timeline>, a: Across, b: Across)
    requires tracks != [] && (a.dwell == 0.0 || StayReached(fps, tracks[..|tracks| - 1], a))
    requires Raised(fps, a, tracks[|tracks| - 1], b)
    ensures b.dwell == 0.0 || StayReached(fps, tracks, b)
  {
    var n := |tracks| - 1;
    if Stay(fps, tracks[n]) > a.dwell {
      assert StaysAs(fps, tracks[n], b);
    } else if a.dwell != 0.0 {
      var i :| 0 <= i < n && StaysAs(fps, tracks[..n][i], a);
      assert StaysAs(fps, tracks[i], b);
    }
  }

  lemma ReentriesReachedNext(tracks: seq<Timeline>, m: nat)
    requires tracks != [] && (m == 0 || ReentriesReached(tracks[..|tracks| - 1], m))
    ensures var n := Reentries(tracks[|tracks| - 1].visits);
      if n > m then ReentriesReached(tracks, n) else m == 0 || ReentriesReached(tracks, m)
  {
    var k := |tracks| - 1;
    if m != 0 {
      var i :| 0 <= i < k && Reentries(tracks[..k][i].visits) == m;
      assert Reentries(tracks[i].visits) == m;
    }
  }

  lemma MaximalNext(fps: real, tracks: seq<Timeline>, a: Across, b: Across)
    requires tracks != [] && Maximal(fps, tracks[..|tracks| - 1], a)
    requires Raised(fps, a, tracks[|tracks| - 1], b)
    ensures Maximal(fps, tracks, b)
  {
    NoneAboveNext(fps, tracks, a, b);
    StayReachedNext(fps, tracks, a, b);
    ReentriesReachedNext(tracks, a.reentries);
  }

  lemma {:induction false} AcrossIsMaximal(fps: real, tracks: seq<Timeline>)
    ensures Maximal(fps, tracks, AcrossOf(fps, tracks))
  {
    if tracks != [] {
      AcrossIsMaximal(fps, tracks[..|tracks| - 1]);
      var a := AcrossOf(fps, tracks[..|tracks| - 1]);
      AddTrackRaises(fps, a, tracks[|tracks| - 1]);
      MaximalNext(fps, tracks, a, AcrossOf(fps, tracks));
    }
  }

  lemma NoStayWithoutVisits(visits: seq<Visit>)
    requires visits == []
    ensures LongestStay(visits) == 0 && Reentries(visits) == 0
  {
    assert Rising(ShelfFlags(visits)) == {};
  }

  lemma ListedExceedsNot(fps: real, tracks: seq<Timeline>, a: Across, tl: Timeline)
    requires NoneAbove(fps, tracks, a) && a.dwell >= 0.0
    requires tl.visits == [] || tl in tracks
    ensures Stay(fps, tl) <= a.dwell && Reentries(tl.visits) <= a.reentries
  {
    if tl.visits == [] {
      NoStayWithoutVisits(tl.visits);
    } else {
      var i :| 0 <= i < |tracks| && tracks[i] == tl;
    }
  }

  lemma TimelineListed(steps: seq<Step>, tracks: seq<Timeline>, track: int)
    requires Timelines(steps, tracks)
    ensures VisitsOf(steps, track) == [] || Timeline(track, VisitsOf(steps, track)) in tracks
  {
    if VisitsOf(steps, track) != [] {
      var i :| 0 <= i < |tracks| && tracks[i].track == track;
      assert tracks[i] == Timeline(track, VisitsOf(steps, track));
    }
  }

  /** No track stays longer or re-enters more often than what the clip reports. */
  lemma NoTrackExceeds(fps: real, frames: seq<Frame>, zones: seq<Zone>, track: int)
    ensures var a, visits := SignalsOf(fps, frames, zones), VisitsIn(frames, zones, track);
      && Seconds(LongestStay(visits), fps) <= a.dwell
      && Reentries(visits) <= a.reentries
  {
    var steps := StepsOf(frames, zones);
    TimelineMeaning(steps);
    AcrossIsMaximal(fps, Fold(steps).cues.tracks);
    TimelineListed(steps, Fold(steps).cues.tracks, track);
    var tl := Timeline(track, VisitsOf(steps, track));
    ListedExceedsNot(fps, Fold(steps).cues.tracks, SignalsOf(fps, frames, zones), tl);
  }

  /** Some track stays exactly as long as reported, and some re-enters exactly as often. */
  lemma SomeTrackReaches(fps: real, frames: seq<Frame>, zones: seq<Zone>)
    ensures var a := SignalsOf(fps, frames, zones);
      && (a.dwell != 0.0 ==>
            var visits := VisitsIn(frames, zones, a.dwellTrack);
            a.dwell == Seconds(LongestStay(visits), fps) && a.dwellZone == LongestStayZone(visits))
      && (a.reentries != 0 ==> exists t: int :: Reentries(VisitsIn(frames, zones, t)) == a.reentries)
  {
    var a, tracks := SignalsOf(fps, frames, zones), CuesOf(frames, zones).tracks;
    TimelineMeaning(StepsOf(frames, zones));
    AcrossIsMaximal(fps, tracks);
    if a.reentries != 0 {
      var i :| 0 <= i < |tracks| && Reentries(tracks[i].visits) == a.reentries;
      assert Reentries(VisitsIn(frames, zones, tracks[i].track)) == a.reentries;
    }
  }

  // ----- high-value entry -----

  ghost predicate EntersAt(steps: seq<Step>, p: nat) {
    SeesCue(steps, p, Person) && ByType(steps[p].view.zones, HighValue).Some?
  }

  ghost predicate Enters(steps: seq<Step>) {
    exists p: nat :: EntersAt(steps, p)
  }

  predicate Stays(visits: seq<Visit>) {
    exists k :: 0 <= k < |visits| && InHighValue(visits[k]).Some?
  }

  predicate AnyStays(tracks: seq<Timeline>) {
    exists i :: 0 <= i < |tracks| && Stays(tracks[i].visits)
  }

  lemma {:induction false} CarriedZone(c: Carried, track: int, visits: seq<Visit>)
    ensures CarryAll(c, track, visits).highValueZone.Some? <==> c.highValueZone.Some? || Stays(visits)
  {
    if visits != [] {
      CarriedZone(c, track, visits[..|visits| - 1]);
      assert Stays(visits) <==> Stays(visits[..|visits| - 1]) || InHighValue(visits[|visits| - 1]).Some?;
    }
  }

  predicate HasZone(a: Across) {
    a.carried.highValueZone.Some?
  }

  lemma AddTrackZone(a: Across, fps: real, tl: Timeline)
    ensures HasZone(AddTrack(a, fps, tl)) <==> HasZone(a) || Stays(tl.visits)
  {
    CarriedZone(a.carried, tl.track, tl.visits);
  }

  lemma AcrossNextZone(fps: real, tracks: seq<Timeline>)
    requires tracks != []
    ensures var n := |tracks| - 1;
      HasZone(AcrossOf(fps, tracks)) <==> HasZone(AcrossOf(fps, tracks[..n])) || Stays(tracks[n].visits)
  {
    AddTrackZone(AcrossOf(fps, tracks[..|tracks| - 1]), fps, tracks[|tracks| - 1]);
  }

  lemma AnyStaysNext(tracks: seq<Timeline>)
    requires tracks != []
    ensures var n := |tracks| - 1; AnyStays(tracks) <==> AnyStays(tracks[..n]) || Stays(tracks[n].visits)
  {
    var n := |tracks| - 1;
    if i :| 0 <= i < n && Stays(tracks[..n][i].visits) {
      assert Stays(tracks[i].visits);
    }
  }

  lemma {:induction false} AcrossZone(fps: real, tracks: seq<Timeline>)
    ensures HasZone(AcrossOf(fps, tracks)) <==> AnyStays(tracks)
  {
    if tracks != [] {
      AcrossZone(fps, tracks[..|tracks| - 1]);
      AcrossNextZone(fps, tracks);
      AnyStaysNext(tracks);
    }
  }

  lemma {:induction false} AppendStays(tracks: seq<Timeline>, track: int, v: Visit)
    ensures AnyStays(Append(tracks, track, v)) <==> AnyStays(tracks) || InHighValue(v).Some?
  {
    if tracks == [] {
      assert Append(tracks, track, v)[0].visits[0] == v;
      assert InHighValue(v).Some? ==> Stays(Append(tracks, track, v)[0].visits);
    } else {
      var head, rest := tracks[0], tracks[1..];
      assert AnyStays(tracks) <==> Stays(head.visits) || AnyStays(rest);
      if head.track == track {
        var more := head.(visits := head.visits + [v]);
        StaysSnoc(head.visits, v);
        AnyStaysCons(more, rest);
      } else {
        AppendStays(rest, track, v);
        AnyStaysCons(head, Append(rest, track, v));
      }
    }
  }

  lemma StaysSnoc(visits: seq<Visit>, v: Visit)
    ensures Stays(visits + [v]) <==> Stays(visits) || InHighValue(v).Some?
  {
    var all := visits + [v];
    assert all[|visits|] == v;
    if k :| 0 <= k < |visits| && InHighValue(visits[k]).Some? {
      assert InHighValue(all[k]).Some?;
    }
  }

  lemma AnyStaysCons(head: Timeline, rest: seq<Timeline>)
    ensures AnyStays([head] + rest) <==> Stays(head.visits) || AnyStays(rest)
  {
    var all := [head] + rest;
    assert all[0] == head && forall i :: 0 <= i < |rest| ==> all[i + 1] == rest[i];
    if Stays(head.visits) {
      assert Stays(all[0].visits);
    }
    if i :| 0 <= i < |rest| && Stays(rest[i].visits) {
      assert Stays(all[i + 1].visits);
    }
  }

  lemma EntersSnoc(rest: seq<Step>, step: Step)
    ensures Enters(rest + [step]) <==>
      (Enters(rest) || (step.See? && step.view.cue == Person && ByType(step.view.zones, HighValue).Some?))
  {
    var all := rest + [step];
    if p: nat :| EntersAt(all, p) {
      assert p < |rest| ==> EntersAt(rest, p);
    }
    if p: nat :| EntersAt(rest, p) {
      assert EntersAt(all, p);
    }
    if step.See? && step.view.cue == Person && ByType(step.view.zones, HighValue).Some? {
      assert all[|rest|] == step;
      assert EntersAt(all, |rest|);
    }
  }

  lemma {:induction false} TracksEnter(steps: seq<Step>)
    ensures AnyStays(Fold(steps).cues.tracks) <==> Enters(steps)
  {
    if steps != [] {
      var rest, step := steps[..|steps| - 1], steps[|steps| - 1];
      assert steps == rest + [step];
      TracksEnter(rest);
      EntersSnoc(rest, step);
      StepTracks(Fold(rest), step);
      if step.See? && step.view.cue == Person {
        AppendStays(Fold(rest).cues.tracks, step.view.track, Visit(step.view.idx, step.view.zones));
      }
    }
  }

  /** A high-value entry is reported exactly when some person was seen in a high-value zone
      that has an id (the last one listed, where high-value zones overlap). */
  lemma HighValueEntryExactly(fps: real, frames: seq<Frame>, zones: seq<Zone>)
    ensures Evidence(CuesOf(frames, zones), SignalsOf(fps, frames, zones), HighValueZoneEntry).Some?
      <==> Enters(StepsOf(frames, zones))
  {
    AcrossZone(fps, CuesOf(frames, zones).tracks);
    TracksEnter(StepsOf(frames, zones));
  }

  // ----- concealment -----

  /** A bag takes the lead in a frame after the first handled one. */
  ghost predicate BagAfter(steps: seq<Step>, cue: Cue, first: int) {
    exists p: nat :: Leads(steps, p, cue) && steps[p].view.idx > first
  }

  lemma LeadIsUnique(steps: seq<Step>, cue: Cue, p: nat, q: nat)
    requires Leads(steps, p, cue) && Leads(steps, q, cue)
    ensures p == q
  {
  }

  lemma BagAfterExactly(steps: seq<Step>, cue: Cue, first: int)
    requires cue == OpenBag || cue == PlainBag
    requires first >= 0
    ensures BagOf(Fold(steps).cues, cue).lastIdx > first <==> BagAfter(steps, cue, first)
  {
    BagMeaning(steps, cue);
    var b := BagOf(Fold(steps).cues, cue);
    if b.lastIdx >= 0 {
      var p: nat :| Leads(steps, p, cue) && Shows(steps, p, b);
      if q: nat :| Leads(steps, q, cue) && steps[q].view.idx > first {
        LeadIsUnique(steps, cue, p, q);
      }
    }
  }

  /** When concealment is reported: ten direct sightings, or a bag that leads after the first
      handled product. Nothing in the second path asks for more than one sighting. */
  lemma ConcealmentExactly(fps: real, frames: seq<Frame>, zones: seq<Zone>, first: nat)
    requires IsFirstHandled(frames, zones, first)
    ensures var steps := StepsOf(frames, zones);
      Evidence(CuesOf(frames, zones), SignalsOf(fps, frames, zones), Concealment).Some?
      <==> |Sightings(steps, Hiding)| >= 10 || BagAfter(steps, OpenBag, first) || BagAfter(steps, PlainBag, first)
  {
    var steps := StepsOf(frames, zones);
    var c := CuesOf(frames, zones);
    FrameSignals(frames, zones);
    FirstHandledIsUnique(frames, zones, first, c.handling.firstIdx);
    ConcealmentPaths(steps, first);
    ConcealmentEvidence(c, SignalsOf(fps, frames, zones));
  }

  lemma ConcealmentEvidence(c: Cues, a: Across)
    ensures Evidence(c, a, Concealment).Some? <==> HandledThenBag(c) || ConcealSustained(c)
  {
  }

  lemma ConcealmentPaths(steps: seq<Step>, first: nat)
    requires Fold(steps).cues.handling.inShelf && Fold(steps).cues.handling.firstIdx == first
    ensures HandledThenBag(Fold(steps).cues) <==> BagAfter(steps, OpenBag, first) || BagAfter(steps, PlainBag, first)
    ensures ConcealSustained(Fold(steps).cues) <==> |Sightings(steps, Hiding)| >= 10
  {
    CountMeaning(steps);
    BagAfterExactly(steps, OpenBag, first);
    BagAfterExactly(steps, PlainBag, first);
  }

  lemma FirstHandledIsUnique(frames: seq<Frame>, zones: seq<Zone>, i: int, j: int)
    requires IsFirstHandled(frames, zones, i) && IsFirstHandled(frames, zones, j)
    ensures i == j
  {
  }

  /** Without any handled product only the direct cue counts. */
  lemma ConcealmentWithoutProduct(fps: real, frames: seq<Frame>, zones: seq<Zone>)
    requires IsFirstHandled(frames, zones, -1)
    ensures Evidence(CuesOf(frames, zones), SignalsOf(fps, frames, zones), Concealment).Some?
      <==> |Sightings(StepsOf(frames, zones), Hiding)| >= 10
  {
    CountMeaning(StepsOf(frames, zones));
    FrameSignals(frames, zones);
    FirstHandledIsUnique(frames, zones, -1, CuesOf(frames, zones).handling.firstIdx);
  }

  // ----- counted events -----

  ghost predicate SomethingHandled(frames: seq<Frame>, zones: seq<Zone>) {
    exists i :: 0 <= i < |frames| && HandledIn(frames[i], zones)
  }

  ghost predicate IsMostReentries(frames: seq<Frame>, zones: seq<Zone>, n: nat) {
    && (forall t: int :: Reentries(VisitsIn(frames, zones, t)) <= n)
    && (n == 0 || exists t: int :: Reentries(VisitsIn(frames, zones, t)) == n)
  }

  lemma MostReentries(fps: real, frames: seq<Frame>, zones: seq<Zone>)
    ensures IsMostReentries(frames, zones, SignalsOf(fps, frames, zones).reentries)
  {
    forall t: int ensures Reentries(VisitsIn(frames, zones, t)) <= SignalsOf(fps, frames, zones).reentries {
      NoTrackExceeds(fps, frames, zones, t);
    }
    SomeTrackReaches(fps, frames, zones);
  }

  lemma MostIsUnique(frames: seq<Frame>, zones: seq<Zone>, m: nat, n: nat)
    requires IsMostReentries(frames, zones, m) && IsMostReentries(frames, zones, n)
    ensures m == n
  {
    if m > 0 {
      var t: int :| Reentries(VisitsIn(frames, zones, t)) == m;
    }
    if n > 0 {
      var t: int :| Reentries(VisitsIn(frames, zones, t)) == n;
    }
  }

  function ValueOf(e: Option<AiEvent>): real {
    if e.Some? then e.value.value else 0.0
  }

  /** Repeated handling counts the episodes of handling a product; only in a clip without any
      does it count the re-entries of the track that re-enters most. */
  lemma RepeatedHandlingExactly(fps: real, frames: seq<Frame>, zones: seq<Zone>, most: nat)
    requires IsMostReentries(frames, zones, most)
    ensures var e := Evidence(CuesOf(frames, zones), SignalsOf(fps, frames, zones), RepeatedHandling);
      ValueOf(e) ==
        if SomethingHandled(frames, zones) then |Rising(HandlingFlags(frames, zones))| as real else most as real
    ensures Evidence(CuesOf(frames, zones), SignalsOf(fps, frames, zones), LowStaffRemoval).Some?
      <==> SomethingHandled(frames, zones)
  {
    var c, a := CuesOf(frames, zones), SignalsOf(fps, frames, zones);
    FrameSignals(frames, zones);
    HandlingIsOneSignal(frames, zones);
    MostReentries(fps, frames, zones);
    MostIsUnique(frames, zones, most, a.reentries);
    HandlingEvidence(c, a);
  }

  lemma HandlingEvidence(c: Cues, a: Across)
    ensures ValueOf(Evidence(c, a, RepeatedHandling))
      == if c.handling.episodes > 0 then c.handling.episodes as real else a.reentries as real
    ensures Evidence(c, a, LowStaffRemoval).Some? <==> c.handling.inShelf
  {
  }

  /** A group is reported exactly when two persons stood at shelves in one frame, with the
      largest such number. */
  lemma GroupExactly(fps: real, frames: seq<Frame>, zones: seq<Zone>, g: nat)
    requires IsLargestGroup(frames, zones, g)
    ensures var e := Evidence(CuesOf(frames, zones), SignalsOf(fps, frames, zones), GroupDistraction);
      (e.Some? <==> g >= 2) && (e.Some? ==> e.value.value == g as real)
  {
    FrameSignals(frames, zones);
    LargestIsUnique(frames, zones, g, CuesOf(frames, zones).group.max);
    GroupEvidence(CuesOf(frames, zones), SignalsOf(fps, frames, zones));
  }

  lemma GroupEvidence(c: Cues, a: Across)
    ensures var e := Evidence(c, a, GroupDistraction);
      (e.Some? <==> c.group.max >= 2) && (e.Some? ==> e.value.value == c.group.max as real)
  {
  }

  lemma LargestIsUnique(frames: seq<Frame>, zones: seq<Zone>, g: nat, h: nat)
    requires IsLargestGroup(frames, zones, g) && IsLargestGroup(frames, zones, h)
    ensures g == h
  {
  }

  /** A person, a product and a bag in a high-value zone; ten direct concealments count as a
      product, and bags only count with ten of a kind. */
  ghost function Categories(steps: seq<Step>): nat {
    var person := SeesInHighValue(steps, Person);
    var product := SeesInHighValue(steps, ProductInHand)
      || (|Sightings(steps, Hiding)| >= 10 && SeesInHighValue(steps, Hiding));
    var bag := (SeesInHighValue(steps, OpenBag) || SeesInHighValue(steps, PlainBag))
      && (|Sightings(steps, OpenBag)| >= 10 || |Sightings(steps, PlainBag)| >= 10);
    (if person then 1 else 0) + (if product then 1 else 0) + if bag then 1 else 0
  }

  lemma HighValueActivityExactly(fps: real, frames: seq<Frame>, zones: seq<Zone>)
    ensures var e := Evidence(CuesOf(frames, zones), SignalsOf(fps, frames, zones), HighValueActivity);
      var n := Categories(StepsOf(frames, zones));
      (e.Some? <==> n >= 2) && (e.Some? ==> e.value.value == n as real)
  {
    CategoriesOf(StepsOf(frames, zones));
    ActivityEvidence(CuesOf(frames, zones), SignalsOf(fps, frames, zones));
  }

  lemma CategoriesOf(steps: seq<Step>)
    ensures HighValueCategories(Fold(steps).cues) == Categories(steps)
  {
    CategoryMeaning(steps);
    CountMeaning(steps);
  }

  lemma ActivityEvidence(c: Cues, a: Across)
    ensures var e := Evidence(c, a, HighValueActivity);
      (e.Some? <==> HighValueCategories(c) >= 2) && (e.Some? ==> e.value.value == HighValueCategories(c) as real)
  {
  }

  // ----- concealment without a sustained cue -----

  const SHELF := Zone(Some("shelf"), Shelf, Rectangle(0.0, 0.0, 1.0, 1.0))
  const ITEM := Detection(ProductInHand, -1, Point(0.5, 0.5), 0.5, [])
  const BAG := Detection(OpenBag, -1, Point(0.5, 0.5), 0.5, [])
  const GLIMPSE: seq<Frame> := [[ITEM], [BAG]]

  lemma SingleView(idx: nat, d: Detection)
    requires d.at == Point(0.5, 0.5) && d.cue != Person
    ensures ViewOf(idx, [d], 0, [SHELF]) == View(idx, d.cue, d.trackId, d.conf, d.embedding, [SHELF], 0)
  {
    RectangleExactly(Point(0.5, 0.5), 0.0, 0.0, 1.0, 1.0);
    assert Containing(Point(0.5, 0.5), [SHELF]) == [SHELF];
    NearestMeaning(DistanceFrom(Point(0.5, 0.5)), [d], 0);
  }

  lemma StepsNext(frames: seq<Frame>, dets: Frame, zones: seq<Zone>)
    ensures StepsOf(frames + [dets], zones)
      == StepsOf(frames, zones) + FrameSteps(|frames|, dets, zones, |dets|) + [EndOfFrame]
  {
    assert (frames + [dets])[..|frames|] == frames;
  }

  lemma OneStep(idx: nat, d: Detection, zones: seq<Zone>)
    ensures FrameSteps(idx, [d], zones, 1) == [See(ViewOf(idx, [d], 0, zones))]
  {
    FrameStepsAt(idx, [d], zones, 1, 0);
  }

  lemma StepsSnoc(frames: seq<Frame>, d: Detection, zones: seq<Zone>)
    ensures StepsOf(frames + [[d]], zones)
      == StepsOf(frames, zones) + [See(ViewOf(|frames|, [d], 0, zones)), EndOfFrame]
  {
    StepsNext(frames, [d], zones);
    OneStep(|frames|, d, zones);
  }

  /** One more frame with a single cue in the middle of the shelf. */
  lemma AddSingle(frames: seq<Frame>, d: Detection)
    requires d.at == Point(0.5, 0.5) && d.cue != Person
    ensures StepsOf(frames + [[d]], [SHELF]) == StepsOf(frames, [SHELF])
      + [See(View(|frames|, d.cue, d.trackId, d.conf, d.embedding, [SHELF], 0)), EndOfFrame]
  {
    StepsSnoc(frames, d, [SHELF]);
    SingleView(|frames|, d);
  }

  lemma GlimpseSteps()
    ensures StepsOf(GLIMPSE, [SHELF]) == [SEE_ITEM, EndOfFrame, SEE_BAG, EndOfFrame]
  {
    AddSingle([], ITEM);
    AddSingle([[ITEM]], BAG);
    assert [] + [[ITEM]] == [[ITEM]] && [[ITEM]] + [[BAG]] == GLIMPSE;
  }

  const SEE_ITEM := See(View(0, ProductInHand, -1, 0.5, [], [SHELF], 0))
  const SEE_BAG := See(View(1, OpenBag, -1, 0.5, [], [SHELF], 0))

  /** An item was handled in frame 0 and nothing else was counted but this many open bags. */
  predicate Glimpsed(c: Cues, openBags: nat) {
    && c.handling.inShelf && c.handling.firstIdx == 0
    && c.openBag.dets == openBags && c.bag.dets == 0 && c.conceal.dets == 0
  }

  lemma CloseKeepsGlimpse(s: Scan, openBags: nat)
    requires Glimpsed(s.cues, openBags)
    ensures Glimpsed(Advance(s, EndOfFrame).cues, openBags)
    ensures Advance(s, EndOfFrame).cues.openBag == s.cues.openBag
  {
  }

  lemma SeeingTheItem(s: Scan)
    requires s.cues == NO_CUES
    ensures Glimpsed(Advance(s, SEE_ITEM).cues, 0) && Advance(s, SEE_ITEM).cues.openBag == NO_BAG
  {
    assert ShelfZones([SHELF]) == [SHELF];
  }

  lemma SeeingTheBag(s: Scan)
    requires Glimpsed(s.cues, 0) && s.cues.openBag == NO_BAG
    ensures Glimpsed(Advance(s, SEE_BAG).cues, 1) && Advance(s, SEE_BAG).cues.openBag.lastIdx == 1
  {
    assert ShelfZones([SHELF]) == [SHELF];
  }

  lemma AfterItem()
    ensures var c := Fold([SEE_ITEM, EndOfFrame]).cues;
      Glimpsed(c, 0) && c.openBag == NO_BAG
  {
    var s := Fold([]);
    SeeingTheItem(s);
    CloseKeepsGlimpse(Advance(s, SEE_ITEM), 0);
    FoldSnoc([], SEE_ITEM);
    FoldSnoc([SEE_ITEM], EndOfFrame);
    assert [] + [SEE_ITEM] == [SEE_ITEM] && [SEE_ITEM] + [EndOfFrame] == [SEE_ITEM, EndOfFrame];
  }

  lemma AfterBag()
    ensures var c := Fold([SEE_ITEM, EndOfFrame, SEE_BAG, EndOfFrame]).cues;
      Glimpsed(c, 1) && c.openBag.lastIdx == 1
  {
    AfterItem();
    var s := Fold([SEE_ITEM, EndOfFrame]);
    SeeingTheBag(s);
    CloseKeepsGlimpse(Advance(s, SEE_BAG), 1);
    FoldSnoc([SEE_ITEM, EndOfFrame], SEE_BAG);
    FoldSnoc([SEE_ITEM, EndOfFrame, SEE_BAG], EndOfFrame);
    assert [SEE_ITEM, EndOfFrame] + [SEE_BAG] == [SEE_ITEM, EndOfFrame, SEE_BAG];
    assert [SEE_ITEM, EndOfFrame, SEE_BAG] + [EndOfFrame] == [SEE_ITEM, EndOfFrame, SEE_BAG, EndOfFrame];
  }

  /** One glimpse of an item and one of an open bag, a frame later, already report
      concealment: the gate of ten sightings does not guard that path. */
  lemma ConcealmentNeedsNoSustainedCue(fps: real)
    ensures var c := CuesOf(GLIMPSE, [SHELF]);
      && Evidence(c, SignalsOf(fps, GLIMPSE, [SHELF]), Concealment).Some?
      && c.conceal.dets == 0 && c.openBag.dets == 1 && c.bag.dets == 0
  {
    GlimpseSteps();
    AfterBag();
    ConcealmentEvidence(CuesOf(GLIMPSE, [SHELF]), SignalsOf(fps, GLIMPSE, [SHELF]));
  }
}
