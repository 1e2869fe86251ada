/** Which zones count, by type and geometry (cloud-ai/app/events.py), and that a clip far from all
    shelves reports nothing about shelves. */
module EventShelves {
  import opened Wrappers
  import opened Detections
  import opened Zones
  import opened Selections
  import opened Streaks
  import opened EventTypes
  import opened EventCues
  import opened EventTimelines
  import opened EventExtraction
  import opened EventMeaning
  import opened EventViews
  import opened EventTheorems
  import opened EventExits
  import opened EventReports

  // ----- zones around a point -----

  predicate IsShelf(zones: seq<Zone>, k: nat) {
    k < |zones| && zones[k].zoneType in {Shelf, HighValue}
  }

  /** The shelf zones are those of type Shelf or HighValue, in their order. */
  lemma {:induction false} ShelfZonesExactly(zones: seq<Zone>) returns (at: seq<nat>)
    ensures Selects(zones, (k: nat) => IsShelf(zones, k), at, ShelfZones(zones))
  {
    if zones == [] {
      return [];
    }
    var rest := zones[..|zones| - 1];
    var before := ShelfZonesExactly(rest);
    assert forall k: nat :: k < |rest| ==> (IsShelf(zones, k) <==> IsShelf(rest, k));
    at := SelectsNext(zones, (k: nat) => IsShelf(zones, k), before, ShelfZones(rest));
  }

  ghost predicate Contains(zones: seq<Zone>, p: Point, k: nat) {
    k < |zones| && Inside(p, zones[k].polygon)
  }

  /** The zones around a point are those whose polygon it is inside, in their order. */
  lemma {:induction false} ContainingExactly(p: Point, zones: seq<Zone>) returns (at: seq<nat>)
    ensures Selects(zones, (k: nat) => Contains(zones, p, k), at, Containing(p, zones))
  {
    if zones == [] {
      return [];
    }
    var rest := zones[..|zones| - 1];
    var before := ContainingExactly(p, rest);
    assert forall k: nat :: k < |rest| ==> (Contains(zones, p, k) <==> Contains(rest, p, k));
    at := SelectsNext(zones, (k: nat) => Contains(zones, p, k), before, Containing(p, rest));
  }

  lemma ContainingMembers(p: Point, zones: seq<Zone>, z: Zone)
    ensures z in Containing(p, zones) <==> z in zones && Inside(p, z.polygon)
  {
    var at := ContainingExactly(p, zones);
    SelectsMembers(zones, (k: nat) => Contains(zones, p, k), at, Containing(p, zones), z);
    if z in zones && Inside(p, z.polygon) {
      var k: nat :| k < |zones| && zones[k] == z;
      assert Contains(zones, p, k);
    }
  }

  lemma ShelfMembers(zones: seq<Zone>, z: Zone)
    ensures z in ShelfZones(zones) <==> z in zones && (z.zoneType == Shelf || z.zoneType == HighValue)
  {
    var at := ShelfZonesExactly(zones);
    SelectsMembers(zones, (k: nat) => IsShelf(zones, k), at, ShelfZones(zones), z);
    if z in zones && (z.zoneType == Shelf || z.zoneType == HighValue) {
      var k: nat :| k < |zones| && zones[k] == z;
      assert IsShelf(zones, k);
    }
  }

  /** The point lies in a zone of this type. */
  ghost predicate Within(p: Point, zones: seq<Zone>, t: ZoneType) {
    exists z :: z in zones && z.zoneType == t && Inside(p, z.polygon)
  }

  ghost predicate NearShelf(p: Point, zones: seq<Zone>) {
    Within(p, zones, Shelf) || Within(p, zones, HighValue)
  }

  lemma ShelvesAround(p: Point, zones: seq<Zone>)
    ensures ShelfZones(Containing(p, zones)) != [] <==> NearShelf(p, zones)
  {
    var around := Containing(p, zones);
    if ShelfZones(around) != [] {
      var z := ShelfZones(around)[0];
      ShelfMembers(around, z);
      ContainingMembers(p, zones, z);
    }
    if NearShelf(p, zones) {
      var z :| z in zones && (z.zoneType == Shelf || z.zoneType == HighValue) && Inside(p, z.polygon);
      ContainingMembers(p, zones, z);
      ShelfMembers(around, z);
    }
  }

  lemma TypesAround(p: Point, zones: seq<Zone>, t: ZoneType)
    ensures t in TypesOf(Containing(p, zones)) <==> Within(p, zones, t)
  {
    var around := Containing(p, zones);
    if t in TypesOf(around) {
      var i :| 0 <= i < |around| && around[i].zoneType == t;
      ContainingMembers(p, zones, around[i]);
    }
    if z :| z in zones && z.zoneType == t && Inside(p, z.polygon) {
      ContainingMembers(p, zones, z);
      var i :| 0 <= i < |around| && around[i] == z;
      assert around[i].zoneType == t;
    }
  }

  predicate IsLastOfType(zones: seq<Zone>, t: ZoneType, last: nat) {
    last < |zones| && zones[last].zoneType == t && forall k :: last < k < |zones| ==> zones[k].zoneType != t
  }

  /** A look-up by type finds the id of the last zone of that type around the point. */
  lemma {:induction false} ByTypeMeaning(zones: seq<Zone>, t: ZoneType) returns (last: nat)
    ensures t !in TypesOf(zones) ==> ByType(zones, t) == None
    ensures t in TypesOf(zones) ==> IsLastOfType(zones, t, last) && ByType(zones, t) == zones[last].id
  {
    if zones == [] {
      return 0;
    }
    var n := |zones| - 1;
    if zones[n].zoneType == t {
      return n;
    }
    last := ByTypeMeaning(zones[..n], t);
    if t in TypesOf(zones) {
      var i :| 0 <= i < |zones| && zones[i].zoneType == t;
      assert zones[..n][i].zoneType == t;
    }
    if t in TypesOf(zones[..n]) {
      assert zones[last].zoneType == t;
    }
  }

  /** The high-value zone around a point is the first of that type. */
  lemma {:induction false} FirstHighValueMeaning(zones: seq<Zone>, k: nat)
    ensures HighValueZone(zones).Some? <==> HighValue in TypesOf(zones)
    ensures k < |zones| && zones[k].zoneType == HighValue && (forall j :: 0 <= j < k ==> zones[j].zoneType != HighValue)
      ==> HighValueZone(zones) == Some(zones[k])
  {
    if zones != [] {
      FirstHighValueMeaning(zones[1..], if k > 0 then k - 1 else 0);
      if zones[0].zoneType == HighValue {
        assert HighValue in TypesOf(zones);
      } else if HighValue in TypesOf(zones) {
        var i :| 0 <= i < |zones| && zones[i].zoneType == HighValue;
        assert zones[1..][i - 1].zoneType == HighValue;
      }
    }
  }

  /** A shelf is named by its high-value zone if that has an id, else by its shelf zone. */
  lemma ShelfIdExactly(v: Visit)
    ensures var valued, plain := ByType(v.zones, HighValue), ByType(v.zones, Shelf);
      ShelfId(v) == if valued == None || valued == Some("") then plain else valued
  {
  }

  // ----- what the signals mean, by type and geometry -----

  /** A product is handled in a frame if and only if one is seen inside a Shelf or HighValue zone. */
  lemma HandledExactly(dets: Frame, zones: seq<Zone>)
    ensures HandledIn(dets, zones)
      <==> exists k :: 0 <= k < |dets| && dets[k].cue == ProductInHand && NearShelf(dets[k].at, zones)
  {
    var handled := AtShelfUpTo(dets, zones, ProductInHand, |dets|);
    if k :| k in handled {
      ShelvesAround(dets[k].at, zones);
    }
    if k: nat :| k < |dets| && dets[k].cue == ProductInHand && NearShelf(dets[k].at, zones) {
      ShelvesAround(dets[k].at, zones);
      assert k in handled;
    }
  }

  ghost function PersonsNear(dets: Frame, zones: seq<Zone>): set<nat> {
    set k: nat | k < |dets| && dets[k].cue == Person && NearShelf(dets[k].at, zones)
  }

  /** The crowd of a frame are the persons inside a Shelf or HighValue zone. */
  lemma CrowdExactly(dets: Frame, zones: seq<Zone>)
    ensures PersonsAtShelf(dets, zones) == |PersonsNear(dets, zones)|
  {
    forall k: nat | k < |dets|
      ensures ShelfZones(Containing(dets[k].at, zones)) != [] <==> NearShelf(dets[k].at, zones)
    {
      ShelvesAround(dets[k].at, zones);
    }
    assert AtShelfUpTo(dets, zones, Person, |dets|) == PersonsNear(dets, zones);
  }

  /** A visit is at a shelf if and only if it is inside a Shelf or HighValue zone. */
  lemma VisitAtShelfExactly(p: Point, zones: seq<Zone>, idx: nat)
    ensures InShelf(Visit(idx, Containing(p, zones))) <==> NearShelf(p, zones)
  {
    var types := TypesOf(Containing(p, zones));
    TypesAround(p, zones, Shelf);
    TypesAround(p, zones, HighValue);
    assert Shelf in types ==> Shelf in types * SHELF_LIKE;
    assert HighValue in types ==> HighValue in types * SHELF_LIKE;
    if t :| t in types * SHELF_LIKE {
      assert t == Shelf || t == HighValue;
    }
  }

  /** A bag counts if and only if it is seen inside a Shelf or HighValue zone. */
  lemma BagAtExactly(frames: seq<Frame>, zones: seq<Zone>, p: nat, cue: Cue) returns (i: nat, k: nat)
    requires SeesCue(StepsOf(frames, zones), p, cue)
    ensures i < |frames| && k < |frames[i]| && StepsOf(frames, zones)[p] == See(ViewOf(i, frames[i], k, zones))
    ensures BagAt(StepsOf(frames, zones), p, cue) <==> NearShelf(frames[i][k].at, zones) && frames[i][k].conf >= 0.0
  {
    i, k := StepHasDetection(frames, zones, p);
    ShelvesAround(frames[i][k].at, zones);
  }

  // ----- far from all shelves -----

  ghost predicate FarFromShelves(frames: seq<Frame>, zones: seq<Zone>) {
    forall i, k :: 0 <= i < |frames| && 0 <= k < |frames[i]| ==> !NearShelf(frames[i][k].at, zones)
  }

  lemma FarSteps(frames: seq<Frame>, zones: seq<Zone>, p: nat)
    requires FarFromShelves(frames, zones) && p < |StepsOf(frames, zones)| && StepsOf(frames, zones)[p].See?
    ensures var v := StepsOf(frames, zones)[p].view;
      Shelf !in TypesOf(v.zones) && HighValue !in TypesOf(v.zones) && ShelfZones(v.zones) == []
  {
    var i, k := StepHasDetection(frames, zones, p);
    TypesAround(frames[i][k].at, zones, Shelf);
    TypesAround(frames[i][k].at, zones, HighValue);
    ShelvesAround(frames[i][k].at, zones);
  }

  lemma FarHandling(frames: seq<Frame>, zones: seq<Zone>)
    requires FarFromShelves(frames, zones)
    ensures !SomethingHandled(frames, zones) && IsFirstHandled(frames, zones, -1)
    ensures IsLargestGroup(frames, zones, 0)
  {
    forall i | 0 <= i < |frames| ensures !HandledIn(frames[i], zones) && PersonsAtShelf(frames[i], zones) == 0 {
      HandledExactly(frames[i], zones);
      CrowdExactly(frames[i], zones);
      assert PersonsNear(frames[i], zones) == {};
    }
  }

  ghost predicate FarVisits(visits: seq<Visit>) {
    forall k :: 0 <= k < |visits| ==> Shelf !in TypesOf(visits[k].zones) && HighValue !in TypesOf(visits[k].zones)
  }

  lemma {:induction false} VisitsAreFar(steps: seq<Step>, track: int)
    requires forall p: nat :: p < |steps| && steps[p].See? ==>
      Shelf !in TypesOf(steps[p].view.zones) && HighValue !in TypesOf(steps[p].view.zones)
    ensures FarVisits(VisitsOf(steps, track))
  {
    if steps != [] {
      VisitsAreFar(steps[..|steps| - 1], track);
    }
  }

  lemma FarTrack(frames: seq<Frame>, zones: seq<Zone>, track: int)
    requires FarFromShelves(frames, zones)
    ensures FarVisits(VisitsIn(frames, zones, track))
  {
    forall p: nat | p < |StepsOf(frames, zones)| && StepsOf(frames, zones)[p].See?
      ensures Shelf !in TypesOf(StepsOf(frames, zones)[p].view.zones)
      ensures HighValue !in TypesOf(StepsOf(frames, zones)[p].view.zones)
    {
      FarSteps(frames, zones, p);
    }
    VisitsAreFar(StepsOf(frames, zones), track);
  }

  lemma FarFlags(visits: seq<Visit>)
    requires FarVisits(visits)
    ensures Reentries(visits) == 0 && LongestStay(visits) == 0
    ensures forall k :: 0 <= k < |visits| ==> !InShelf(visits[k]) && InHighValue(visits[k]) == None
  {
    forall k | 0 <= k < |visits| ensures !InShelf(visits[k]) && InHighValue(visits[k]) == None {
      assert TypesOf(visits[k].zones) * SHELF_LIKE == {};
      var last := ByTypeMeaning(visits[k].zones, HighValue);
    }
    assert Rising(ShelfFlags(visits)) == {};
    NoRun(HighValueFlags(visits));
  }

  lemma {:induction false} NoRun(flags: seq<bool>)
    requires forall k :: 0 <= k < |flags| ==> !flags[k]
    ensures LongestRun(flags) == 0
  {
    if flags != [] {
      NoRun(flags[..|flags| - 1]);
    }
  }

  ghost function Reported(fps: real, frames: seq<Frame>, zones: seq<Zone>, t: AiEventType): Option<AiEvent> {
    Evidence(CuesOf(frames, zones), SignalsOf(fps, frames, zones), t)
  }

  lemma FarTracks(fps: real, frames: seq<Frame>, zones: seq<Zone>)
    requires FarFromShelves(frames, zones)
    ensures Reported(fps, frames, zones, Dwell).None?
    ensures Reported(fps, frames, zones, RepeatedHandling).None? && Reported(fps, frames, zones, LowStaffRemoval).None?
  {
    forall t: int
      ensures Reentries(VisitsIn(frames, zones, t)) == 0 && LongestStay(VisitsIn(frames, zones, t)) == 0
    {
      FarTrack(frames, zones, t);
      FarFlags(VisitsIn(frames, zones, t));
    }
    FarHandling(frames, zones);
    DwellExactly(fps, frames, zones, 0);
    RepeatedHandlingExactly(fps, frames, zones, 0);
    NoHandlingNoEvent(CuesOf(frames, zones), SignalsOf(fps, frames, zones));
  }

  lemma NoHandlingNoEvent(c: Cues, a: Across)
    ensures ValueOf(Evidence(c, a, RepeatedHandling)) == 0.0 ==> Evidence(c, a, RepeatedHandling).None?
  {
  }

  lemma FarEntry(fps: real, frames: seq<Frame>, zones: seq<Zone>)
    requires FarFromShelves(frames, zones)
    ensures Reported(fps, frames, zones, HighValueZoneEntry).None?
  {
    var steps := StepsOf(frames, zones);
    HighValueEntryExactly(fps, frames, zones);
    if p: nat :| EntersAt(steps, p) {
      FarSteps(frames, zones, p);
      var last := ByTypeMeaning(steps[p].view.zones, HighValue);
    }
  }

  lemma FarCategories(steps: seq<Step>, cue: Cue)
    requires forall p: nat :: p < |steps| && steps[p].See? ==> HighValue !in TypesOf(steps[p].view.zones)
    ensures !SeesInHighValue(steps, cue)
  {
    forall p: nat | SeesCue(steps, p, cue) ensures !InHighValueZone(steps[p].view) {
      FirstHighValueMeaning(steps[p].view.zones, 0);
    }
  }

  lemma FarActivity(fps: real, frames: seq<Frame>, zones: seq<Zone>)
    requires FarFromShelves(frames, zones)
    ensures Reported(fps, frames, zones, HighValueActivity).None?
  {
    var steps := StepsOf(frames, zones);
    forall p: nat | p < |steps| && steps[p].See? ensures HighValue !in TypesOf(steps[p].view.zones) {
      FarSteps(frames, zones, p);
    }
    FarCategories(steps, Person);
    FarCategories(steps, ProductInHand);
    FarCategories(steps, Hiding);
    FarCategories(steps, OpenBag);
    FarCategories(steps, PlainBag);
    HighValueActivityExactly(fps, frames, zones);
  }

  lemma FarBags(fps: real, frames: seq<Frame>, zones: seq<Zone>)
    requires FarFromShelves(frames, zones)
    ensures Reported(fps, frames, zones, BagOpen).None?
  {
    var steps := StepsOf(frames, zones);
    forall p: nat, cue: Cue ensures !BagAt(steps, p, cue) {
      if SeesCue(steps, p, cue) {
        FarSteps(frames, zones, p);
      }
    }
    BagOpenExactly(fps, frames, zones);
  }

  lemma FarExits(fps: real, frames: seq<Frame>, zones: seq<Zone>)
    requires FarFromShelves(frames, zones)
    ensures Reported(fps, frames, zones, ShelfPickupNoCheckout).None?
    ensures Reported(fps, frames, zones, ExitWithoutCheckout).None?
  {
    var tracks := CuesOf(frames, zones).tracks;
    TimelineMeaning(StepsOf(frames, zones));
    forall k: nat | k < |tracks| ensures !Leaves(tracks[k].visits) {
      TimelineIs(StepsOf(frames, zones), tracks, k);
      FarTrack(frames, zones, tracks[k].track);
    }
    ExitExactly(fps, frames, zones);
  }

  /** A clip in which no detection lies in a Shelf or HighValue zone reports nothing about shelves:
      no entry, dwell, handling, exit, group, high-value activity, removal or bag. Concealment is
      left to ten direct sightings. */
  lemma FarFromShelvesIsQuiet(fps: real, frames: seq<Frame>, zones: seq<Zone>, t: AiEventType)
    requires FarFromShelves(frames, zones)
    ensures t != Concealment && t != BlindSpotMovement ==> Reported(fps, frames, zones, t).None?
    ensures Reported(fps, frames, zones, Concealment).Some? <==> |Sightings(StepsOf(frames, zones), Hiding)| >= 10
  {
    FarHandling(frames, zones);
    ConcealmentWithoutProduct(fps, frames, zones);
    match t
    case HighValueZoneEntry => FarEntry(fps, frames, zones);
    case Dwell => FarTracks(fps, frames, zones);
    case RepeatedHandling => FarTracks(fps, frames, zones);
    case Concealment =>
    case ShelfPickupNoCheckout => FarExits(fps, frames, zones);
    case ExitWithoutCheckout => FarExits(fps, frames, zones);
    case BlindSpotMovement =>
    case GroupDistraction => GroupExactly(fps, frames, zones, 0);
    case HighValueActivity => FarActivity(fps, frames, zones);
    case LowStaffRemoval => FarTracks(fps, frames, zones);
    case BagOpen => FarBags(fps, frames, zones);
  }

  /** So it is with every clip of a camera that has no such zone. */
  lemma NoShelvesNoShelfEvents(fps: real, frames: seq<Frame>, zones: seq<Zone>, t: AiEventType)
    requires forall z :: z in zones ==> z.zoneType != Shelf && z.zoneType != HighValue
    requires t != Concealment && t != BlindSpotMovement
    ensures Reported(fps, frames, zones, t).None?
  {
    FarFromShelvesIsQuiet(fps, frames, zones, t);
  }
}
