/** When an exit is reported (cloud-ai/app/events.py): a track that reached a shelf, then an
    exit, and never a checkout. */
module EventExits {
  import opened Wrappers
  import opened Detections
  import opened Zones
  import opened EventTypes
  import opened EventCues
  import opened EventTimelines
  import opened EventExtraction
  import opened EventMeaning
  import opened EventTheorems
  import opened EventReentry

  // ----- visits in time order -----

  ghost predicate InTime(visits: seq<Visit>, bound: nat) {
    && (forall i, j :: 0 <= i < j < |visits| ==> visits[i].idx <= visits[j].idx)
    && forall i :: 0 <= i < |visits| ==> visits[i].idx < bound
  }

  lemma VisitsStayInTime(steps: seq<Step>, step: Step, idx: nat, track: int)
    requires InTime(VisitsOf(steps, track), idx + 1) && (step.See? ==> step.view.idx == idx)
    ensures InTime(VisitsOf(steps + [step], track), idx + 1)
  {
    VisitsSnoc(steps, step, track);
  }

  lemma {:induction false} FrameVisitsInTime(before: seq<Step>, steps: seq<Step>, idx: nat, track: int)
    requires InTime(VisitsOf(before, track), idx) && AllIn(steps, idx)
    ensures InTime(VisitsOf(before + steps, track), idx + 1)
  {
    if steps == [] {
      assert before + steps == before;
    } else {
      var n := |steps| - 1;
      FrameVisitsInTime(before, steps[..n], idx, track);
      VisitsStayInTime(before + steps[..n], steps[n], idx, track);
      JoinNext(before, steps);
    }
  }

  lemma {:induction false} VisitsInTime(frames: seq<Frame>, zones: seq<Zone>, track: int)
    ensures InTime(VisitsIn(frames, zones, track), |frames|)
  {
    if frames != [] {
      var n := |frames| - 1;
      VisitsInTime(frames[..n], zones, track);
      var before := StepsOf(frames[..n], zones);
      var steps := FrameSteps(n, frames[n], zones, |frames[n]|);
      FrameStepsAreViews(n, frames[n], zones, |frames[n]|);
      FrameVisitsInTime(before, steps, n, track);
      VisitsSnoc(before + steps, EndOfFrame, track);
    }
  }

  // ----- the first visit to a type -----

  predicate At(visits: seq<Visit>, k: nat, t: ZoneType) {
    k < |visits| && t in TypesOf(visits[k].zones)
  }

  ghost predicate IsFirstIdx(visits: seq<Visit>, t: ZoneType, idx: nat) {
    && (exists k: nat :: At(visits, k, t) && visits[k].idx == idx)
    && forall k: nat :: At(visits, k, t) ==> idx <= visits[k].idx
  }

  lemma {:induction false} FirstIdxMeaning(visits: seq<Visit>, bound: nat, t: ZoneType)
    requires InTime(visits, bound)
    ensures if t in FirstIdx(visits) then IsFirstIdx(visits, t, FirstIdx(visits)[t])
      else forall k: nat :: !At(visits, k, t)
  {
    if visits != [] {
      var n: nat := |visits| - 1;
      var rest := visits[..n];
      FirstIdxMeaning(rest, bound, t);
      assert forall k: nat :: At(visits, k, t) <==> At(rest, k, t) || (k == n && t in TypesOf(visits[n].zones));
      if t in FirstIdx(rest) {
        var k: nat :| At(rest, k, t) && rest[k].idx == FirstIdx(rest)[t];
        assert At(visits, k, t) && visits[k].idx == FirstIdx(visits)[t];
      } else if t in TypesOf(visits[n].zones) {
        assert At(visits, n, t) && visits[n].idx == FirstIdx(visits)[t];
      }
    }
  }

  ghost predicate Reaches(visits: seq<Visit>, t: ZoneType) {
    exists k: nat :: At(visits, k, t)
  }

  lemma ReachesSnoc(rest: seq<Visit>, v: Visit, t: ZoneType)
    ensures Reaches(rest + [v], t) <==> Reaches(rest, t) || t in TypesOf(v.zones)
  {
    var all := rest + [v];
    assert forall k: nat :: At(all, k, t) <==> At(rest, k, t) || (k == |rest| && t in TypesOf(v.zones));
    if t in TypesOf(v.zones) {
      assert At(all, |rest|, t);
    }
  }

  lemma {:induction false} VisitedMeaning(visits: seq<Visit>, t: ZoneType)
    ensures t in Visited(visits) <==> Reaches(visits, t)
  {
    if visits != [] {
      var rest, v := visits[..|visits| - 1], visits[|visits| - 1];
      assert visits == rest + [v];
      VisitedMeaning(rest, t);
      ReachesSnoc(rest, v, t);
    }
  }

  /** Visit i is to a shelf, and no exit was reached before its frame. */
  ghost predicate ShelfBeforeExits(visits: seq<Visit>, i: nat) {
    && (At(visits, i, Shelf) || At(visits, i, HighValue))
    && forall j: nat :: At(visits, j, Exit) ==> visits[i].idx <= visits[j].idx
  }

  ghost predicate Leaves(visits: seq<Visit>) {
    && Reaches(visits, Exit) && !Reaches(visits, Checkout)
    && exists i: nat :: ShelfBeforeExits(visits, i)
  }

  /** The test on first indices says just that. */
  lemma LeftUnpaidMeaning(visits: seq<Visit>, bound: nat)
    requires InTime(visits, bound)
    ensures LeftUnpaid(SummaryOf(visits)) <==> Leaves(visits)
  {
    var s := SummaryOf(visits);
    FirstIdxMeaning(visits, bound, Exit);
    VisitedMeaning(visits, Checkout);
    assert Exit in s.firstIdx <==> Reaches(visits, Exit);
    assert Checkout in s.visited <==> Reaches(visits, Checkout);
    if Exit in s.firstIdx {
      ShelfFirstMeaning(visits, bound, s.firstIdx[Exit]);
      EarlyShelf(visits, s.firstIdx[Exit]);
    }
  }

  ghost predicate ShelfBy(visits: seq<Visit>, idx: nat) {
    exists i: nat :: (At(visits, i, Shelf) || At(visits, i, HighValue)) && visits[i].idx <= idx
  }

  lemma EarlyShelf(visits: seq<Visit>, exit: nat)
    requires IsFirstIdx(visits, Exit, exit)
    ensures ShelfBy(visits, exit) <==> exists i: nat :: ShelfBeforeExits(visits, i)
  {
    var k: nat :| At(visits, k, Exit) && visits[k].idx == exit;
    if i: nat :| ShelfBeforeExits(visits, i) {
      assert visits[i].idx <= visits[k].idx;
    }
    if i: nat :| (At(visits, i, Shelf) || At(visits, i, HighValue)) && visits[i].idx <= exit {
      assert ShelfBeforeExits(visits, i);
    }
  }

  lemma ShelfFirstMeaning(visits: seq<Visit>, bound: nat, idx: nat)
    requires InTime(visits, bound)
    ensures var first := ShelfFirst(SummaryOf(visits));
      first.Some? && first.value <= idx <==> ShelfBy(visits, idx)
  {
    FirstIdxMeaning(visits, bound, Shelf);
    FirstIdxMeaning(visits, bound, HighValue);
  }

  // ----- across the tracks -----

  /** The zone a leaving track would be reported with. */
  function ExitCandidate(fps: real, tracks: seq<Timeline>, k: nat): Option<string>
    requires k < |tracks|
  {
    Or(ZoneOf(tracks[k].visits, Exit), AcrossOf(fps, tracks[..k + 1]).carried.reentryZone)
  }

  predicate LeavesWithZone(fps: real, tracks: seq<Timeline>, k: nat) {
    k < |tracks| && LeftUnpaid(SummaryOf(tracks[k].visits)) && ExitCandidate(fps, tracks, k).Some?
  }

  /** The first leaving track that has a zone to report. */
  ghost predicate FirstToLeave(fps: real, tracks: seq<Timeline>, k: nat) {
    LeavesWithZone(fps, tracks, k) && forall j: nat :: j < k ==> !LeavesWithZone(fps, tracks, j)
  }

  ghost predicate ExitReport(fps: real, tracks: seq<Timeline>, zone: Option<string>, track: int) {
    if zone.None? then NobodyLeaves(fps, tracks, |tracks|)
    else exists k: nat ::
           FirstToLeave(fps, tracks, k) && track == tracks[k].track && zone == ExitCandidate(fps, tracks, k)
  }

  lemma LeavesBefore(fps: real, tracks: seq<Timeline>, k: nat)
    requires k + 1 < |tracks|
    ensures LeavesWithZone(fps, tracks, k) == LeavesWithZone(fps, tracks[..|tracks| - 1], k)
    ensures ExitCandidate(fps, tracks, k) == ExitCandidate(fps, tracks[..|tracks| - 1], k)
  {
    assert tracks[..|tracks| - 1][..k + 1] == tracks[..k + 1];
  }

  /** What the last track does to the reported exit. */
  predicate ExitNext(fps: real, tracks: seq<Timeline>, a: Across, b: Across)
    requires tracks != []
  {
    var n := |tracks| - 1;
    if a.exitZone.None? && LeftUnpaid(SummaryOf(tracks[n].visits))
    then b.exitZone == ExitCandidate(fps, tracks, n) && b.exitTrack == tracks[n].track
    else b.exitZone == a.exitZone && b.exitTrack == a.exitTrack
  }

  lemma AddExit(fps: real, tracks: seq<Timeline>)
    requires tracks != []
    ensures ExitNext(fps, tracks, AcrossOf(fps, tracks[..|tracks| - 1]), AcrossOf(fps, tracks))
  {
    assert tracks[..|tracks|] == tracks;
  }

  lemma StillFirst(fps: real, tracks: seq<Timeline>, k: nat)
    requires tracks != [] && FirstToLeave(fps, tracks[..|tracks| - 1], k)
    ensures FirstToLeave(fps, tracks, k)
    ensures ExitCandidate(fps, tracks, k) == ExitCandidate(fps, tracks[..|tracks| - 1], k)
  {
    forall j: nat | j <= k ensures LeavesWithZone(fps, tracks, j) == LeavesWithZone(fps, tracks[..|tracks| - 1], j) {
      LeavesBefore(fps, tracks, j);
    }
    LeavesBefore(fps, tracks, k);
  }

  ghost predicate NobodyLeaves(fps: real, tracks: seq<Timeline>, n: nat) {
    forall k: nat :: k < n ==> !LeavesWithZone(fps, tracks, k)
  }

  lemma StillNobody(fps: real, tracks: seq<Timeline>)
    requires tracks != [] && NobodyLeaves(fps, tracks[..|tracks| - 1], |tracks| - 1)
    ensures NobodyLeaves(fps, tracks, |tracks| - 1)
  {
    forall k: nat | k < |tracks| - 1 ensures !LeavesWithZone(fps, tracks, k) {
      LeavesBefore(fps, tracks, k);
    }
  }

  lemma ExitReportNext(fps: real, tracks: seq<Timeline>, a: Across, b: Across)
    requires tracks != [] && ExitNext(fps, tracks, a, b)
    requires ExitReport(fps, tracks[..|tracks| - 1], a.exitZone, a.exitTrack)
    ensures ExitReport(fps, tracks, b.exitZone, b.exitTrack)
  {
    var n: nat := |tracks| - 1;
    if a.exitZone.Some? {
      var k: nat :| FirstToLeave(fps, tracks[..n], k) && a.exitTrack == tracks[..n][k].track
        && a.exitZone == ExitCandidate(fps, tracks[..n], k);
      StillFirst(fps, tracks, k);
    } else {
      StillNobody(fps, tracks);
      LastMayLeave(fps, tracks, b);
    }
  }

  lemma LastMayLeave(fps: real, tracks: seq<Timeline>, b: Across)
    requires tracks != [] && NobodyLeaves(fps, tracks, |tracks| - 1)
    requires var n := |tracks| - 1;
      if LeavesWithZone(fps, tracks, n)
      then b.exitZone == ExitCandidate(fps, tracks, n) && b.exitTrack == tracks[n].track else b.exitZone.None?
    ensures ExitReport(fps, tracks, b.exitZone, b.exitTrack)
  {
    var n: nat := |tracks| - 1;
    if LeavesWithZone(fps, tracks, n) {
      assert FirstToLeave(fps, tracks, n);
    }
  }

  lemma {:induction false} ExitMeaning(fps: real, tracks: seq<Timeline>)
    ensures ExitReport(fps, tracks, AcrossOf(fps, tracks).exitZone, AcrossOf(fps, tracks).exitTrack)
  {
    if tracks != [] {
      var rest := tracks[..|tracks| - 1];
      ExitMeaning(fps, rest);
      AddExit(fps, tracks);
      ExitReportNext(fps, tracks, AcrossOf(fps, rest), AcrossOf(fps, tracks));
    }
  }

  // ----- a zone to report -----

  /** Some visit is to a zone of the type that has an id. */
  ghost predicate SeesNamed(visits: seq<Visit>, t: ZoneType) {
    exists k: nat :: At(visits, k, t) && Truthy(ByType(visits[k].zones, t))
  }

  lemma {:induction false} TruthyZoneOf(visits: seq<Visit>, t: ZoneType)
    ensures Truthy(ZoneOf(visits, t)) <==> SeesNamed(visits, t)
  {
    if visits != [] {
      var n: nat := |visits| - 1;
      var rest := visits[..n];
      TruthyZoneOf(rest, t);
      assert forall k: nat :: k < n ==> (At(visits, k, t) <==> At(rest, k, t)) && visits[k] == rest[k];
      if k: nat :| At(rest, k, t) && Truthy(ByType(rest[k].zones, t)) {
        assert At(visits, k, t);
      }
    }
  }

  /** A track that leaves and has a zone to report: an exit it saw, or a shelf that it or a
      track before it entered. */
  ghost predicate LeavesReported(tracks: seq<Timeline>, k: nat) {
    && k < |tracks| && Leaves(tracks[k].visits)
    && (SeesNamed(tracks[k].visits, Exit) || SomeoneEntersNamed(tracks[..k + 1]))
  }

  lemma TrackInTime(frames: seq<Frame>, zones: seq<Zone>, tracks: seq<Timeline>, k: nat)
    requires tracks == CuesOf(frames, zones).tracks && k < |tracks|
    ensures InTime(tracks[k].visits, |frames|)
  {
    TimelineMeaning(StepsOf(frames, zones));
    TimelineIs(StepsOf(frames, zones), tracks, k);
    VisitsInTime(frames, zones, tracks[k].track);
  }

  lemma TrackReported(fps: real, frames: seq<Frame>, zones: seq<Zone>, tracks: seq<Timeline>, k: nat)
    requires tracks == CuesOf(frames, zones).tracks
    ensures LeavesWithZone(fps, tracks, k) <==> LeavesReported(tracks, k)
  {
    if k < |tracks| {
      TrackInTime(frames, zones, tracks, k);
      LeftUnpaidMeaning(tracks[k].visits, |frames|);
      TruthyZoneOf(tracks[k].visits, Exit);
      ReentryZoneKnown(fps, tracks[..k + 1]);
    }
  }

  ghost predicate SomebodyReported(tracks: seq<Timeline>) {
    exists k: nat :: LeavesReported(tracks, k)
  }

  lemma ReportedExactlyWhen(fps: real, frames: seq<Frame>, zones: seq<Zone>)
    ensures SignalsOf(fps, frames, zones).exitZone.Some? <==> SomebodyReported(CuesOf(frames, zones).tracks)
  {
    var a, tracks := SignalsOf(fps, frames, zones), CuesOf(frames, zones).tracks;
    ExitMeaning(fps, tracks);
    if a.exitZone.Some? {
      var k: nat :| FirstToLeave(fps, tracks, k);
      TrackReported(fps, frames, zones, tracks, k);
    }
    if k: nat :| LeavesReported(tracks, k) {
      TrackReported(fps, frames, zones, tracks, k);
    }
  }

  /** A clip reports an exit exactly when some track leaves that has a zone to report; it is the
      pickup variant exactly when a product was handled at a shelf. */
  lemma ExitExactly(fps: real, frames: seq<Frame>, zones: seq<Zone>)
    ensures var c, a := CuesOf(frames, zones), SignalsOf(fps, frames, zones);
      var leaves, handled := SomebodyReported(c.tracks), SomethingHandled(frames, zones);
      && (Evidence(c, a, ShelfPickupNoCheckout).Some? <==> leaves && handled)
      && (Evidence(c, a, ExitWithoutCheckout).Some? <==> leaves && !handled)
  {
    HandlingIsOneSignal(frames, zones);
    ReportedExactlyWhen(fps, frames, zones);
    ExitEvidence(CuesOf(frames, zones), SignalsOf(fps, frames, zones));
  }

  lemma ExitEvidence(c: Cues, a: Across)
    ensures Evidence(c, a, ShelfPickupNoCheckout).Some? <==> a.exitZone.Some? && c.handling.inShelf
    ensures Evidence(c, a, ExitWithoutCheckout).Some? <==> a.exitZone.Some? && !c.handling.inShelf
  {
  }

  // ----- with named zones -----

  ghost predicate Named(zones: seq<Zone>) {
    forall i :: 0 <= i < |zones| ==> Truthy(zones[i].id)
  }

  lemma {:induction false} ByTypeNamed(zones: seq<Zone>, t: ZoneType)
    requires Named(zones) && t in TypesOf(zones)
    ensures Truthy(ByType(zones, t))
  {
    var n := |zones| - 1;
    if zones[n].zoneType != t {
      assert t in TypesOf(zones[..n]);
      ByTypeNamed(zones[..n], t);
    }
  }

  lemma {:induction false} ZoneOfNamed(visits: seq<Visit>, t: ZoneType)
    requires forall k :: 0 <= k < |visits| ==> Named(visits[k].zones)
    requires t in Visited(visits)
    ensures Truthy(ZoneOf(visits, t))
  {
    var n := |visits| - 1;
    if t in TypesOf(visits[n].zones) {
      ByTypeNamed(visits[n].zones, t);
    }
    if t in Visited(visits[..n]) {
      ZoneOfNamed(visits[..n], t);
    }
  }

  lemma {:induction false} ContainingNamed(p: Point, zones: seq<Zone>)
    requires Named(zones)
    ensures Named(Containing(p, zones))
  {
    if zones != [] {
      ContainingNamed(p, zones[..|zones| - 1]);
    }
  }

  ghost predicate NamedSteps(steps: seq<Step>) {
    forall p :: 0 <= p < |steps| && steps[p].See? ==> Named(steps[p].view.zones)
  }

  lemma FrameStepsNamed(idx: nat, dets: Frame, zones: seq<Zone>)
    requires Named(zones)
    ensures NamedSteps(FrameSteps(idx, dets, zones, |dets|))
  {
    FrameStepsAreViews(idx, dets, zones, |dets|);
    forall k | 0 <= k < |dets| ensures Named(Containing(dets[k].at, zones)) {
      ContainingNamed(dets[k].at, zones);
    }
  }

  lemma {:induction false} StepsNamed(frames: seq<Frame>, zones: seq<Zone>)
    requires Named(zones)
    ensures NamedSteps(StepsOf(frames, zones))
  {
    if frames != [] {
      var n := |frames| - 1;
      StepsNamed(frames[..n], zones);
      FrameStepsNamed(n, frames[n], zones);
    }
  }

  lemma {:induction false} VisitsNamed(steps: seq<Step>, track: int)
    requires NamedSteps(steps)
    ensures forall k :: 0 <= k < |VisitsOf(steps, track)| ==> Named(VisitsOf(steps, track)[k].zones)
  {
    if steps != [] {
      VisitsNamed(steps[..|steps| - 1], track);
    }
  }

  ghost predicate SomebodyLeaves(frames: seq<Frame>, zones: seq<Zone>) {
    exists t: int :: Leaves(VisitsIn(frames, zones, t))
  }

  /** With named zones every track that leaves has an exit to report. */
  lemma NamedLeaver(frames: seq<Frame>, zones: seq<Zone>, t: int)
    requires Named(zones) && Leaves(VisitsIn(frames, zones, t))
    ensures SeesNamed(VisitsIn(frames, zones, t), Exit)
  {
    var visits := VisitsIn(frames, zones, t);
    StepsNamed(frames, zones);
    VisitsNamed(StepsOf(frames, zones), t);
    VisitedMeaning(visits, Exit);
    ZoneOfNamed(visits, Exit);
    TruthyZoneOf(visits, Exit);
  }

  /** When every zone has an id, somebody is reported exactly when somebody leaves. */
  lemma ExitExactlyWhenNamed(frames: seq<Frame>, zones: seq<Zone>)
    requires Named(zones)
    ensures SomebodyReported(CuesOf(frames, zones).tracks) <==> SomebodyLeaves(frames, zones)
  {
    var steps, tracks := StepsOf(frames, zones), CuesOf(frames, zones).tracks;
    TimelineMeaning(steps);
    if k: nat :| LeavesReported(tracks, k) {
      assert Leaves(VisitsIn(frames, zones, tracks[k].track));
    }
    if t: int :| Leaves(VisitsIn(frames, zones, t)) {
      NamedLeaver(frames, zones, t);
      TimelineListed(steps, tracks, t);
      var k: nat :| k < |tracks| && tracks[k] == Timeline(t, VisitsIn(frames, zones, t));
      assert LeavesReported(tracks, k);
    }
  }
}
