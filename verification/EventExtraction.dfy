/** What `extract_events` (cloud-ai/app/events.py) reports once both passes are done. */
module EventExtraction {
  import opened Wrappers
  import opened Detections
  import opened Zones
  import opened EventTypes
  import opened EventCues
  import opened EventTimelines

  const SUSTAINED_CUE_DETECTIONS: nat := 10

  // ----- the evidence for each type -----

  predicate OpenBagSustained(c: Cues) {
    c.openBag.dets >= SUSTAINED_CUE_DETECTIONS
  }

  predicate BagSustained(c: Cues) {
    c.bag.dets >= SUSTAINED_CUE_DETECTIONS
  }

  predicate ConcealSustained(c: Cues) {
    c.conceal.dets >= SUSTAINED_CUE_DETECTIONS
  }

  /** An item was handled at a shelf, and a bag took the lead afterwards. */
  predicate HandledThenBag(c: Cues) {
    && c.handling.inShelf && c.handling.firstIdx >= 0
    && (c.openBag.lastIdx > c.handling.firstIdx || c.bag.lastIdx > c.handling.firstIdx)
  }

  function OpenBagZone(c: Cues): Option<string> {
    if OpenBagSustained(c) then c.openBag.zone else None
  }

  function FallbackBagZone(c: Cues): Option<string> {
    if BagSustained(c) then c.bag.zone else None
  }

  function Flag(b: bool): nat {
    if b then 1 else 0
  }

  function HighValueCategories(c: Cues): nat {
    Flag(c.highValue.person)
    + Flag(c.highValue.product || (ConcealSustained(c) && c.conceal.inHighValue))
    + Flag(c.highValue.bag && (OpenBagSustained(c) || BagSustained(c)))
  }

  /** The first track that ever stood at a shelf, 0 when there is none. */
  function FirstShelfTrack(tracks: seq<Timeline>): int {
    if tracks == [] then 0
    else if Visited(tracks[0].visits) * SHELF_LIKE != {} then tracks[0].track
    else FirstShelfTrack(tracks[1..])
  }

  function LowStaffTrack(c: Cues): int {
    if c.handling.track != 0 then c.handling.track else FirstShelfTrack(c.tracks)
  }

  function Plain(eventType: AiEventType, zone: Option<string>, value: real, conf: real, track: int): AiEvent {
    AiEvent(track, zone, eventType, value, conf, [])
  }

  function Evidence(c: Cues, a: Across, eventType: AiEventType): Option<AiEvent> {
    match eventType
    case HighValueZoneEntry =>
      if a.carried.highValueZone.None? then None
      else Some(Plain(eventType, a.carried.highValueZone, 1.0, 0.9, a.carried.highValueTrack))
    case Dwell =>
      if a.dwell <= 0.0 then None
      else Some(Plain(eventType, a.dwellZone, RoundTo(a.dwell, 10.0), 0.9, a.dwellTrack))
    case RepeatedHandling =>
      if c.handling.episodes > 0 then
        Some(Plain(eventType, c.handling.zone, c.handling.episodes as real, 0.85, c.handling.track))
      else if a.reentries > 0 then
        Some(Plain(eventType, a.carried.reentryZone, a.reentries as real, 0.7, a.carried.reentryTrack))
      else None
    case Concealment =>
      if !HandledThenBag(c) && !ConcealSustained(c) then None
      else
        var direct := if ConcealSustained(c) then c.conceal.zone else None;
        var zone := Or(Or(Or(direct, OpenBagZone(c)), FallbackBagZone(c)), c.handling.zone);
        var track := OrId(OrId(OrId(c.conceal.track, c.handling.track), c.openBag.track), c.bag.track);
        Some(Plain(eventType, zone, 1.0, 0.7, track))
    case ShelfPickupNoCheckout =>
      if a.exitZone.None? || !c.handling.inShelf then None
      else Some(AiEvent(a.exitTrack, a.exitZone, eventType, 1.0, 0.7, EmbeddingOf(c.embeddings, a.exitTrack)))
    case ExitWithoutCheckout =>
      if a.exitZone.None? || c.handling.inShelf then None
      else Some(AiEvent(a.exitTrack, a.exitZone, eventType, 1.0, 0.7, EmbeddingOf(c.embeddings, a.exitTrack)))
    case BlindSpotMovement =>
      if a.blindZone.None? then None else Some(Plain(eventType, a.blindZone, 1.0, 0.8, a.blindTrack))
    case GroupDistraction =>
      if c.group.max < 2 then None
      else Some(Plain(eventType, c.group.zone, c.group.max as real, 0.7, c.group.track))
    case HighValueActivity =>
      if HighValueCategories(c) < 2 then None
      else Some(Plain(eventType, c.highValue.zone, HighValueCategories(c) as real, 0.8, c.highValue.track))
    case LowStaffRemoval =>
      if !c.handling.inShelf then None
      else Some(AiEvent(LowStaffTrack(c), c.handling.zone, eventType, 1.0, 0.6,
                        EmbeddingOf(c.embeddings, LowStaffTrack(c))))
    case BagOpen =>
      if OpenBagZone(c).Some? then
        Some(Plain(eventType, OpenBagZone(c), 1.0, RoundTo(c.openBag.conf, 1000.0), c.openBag.track))
      else if FallbackBagZone(c).Some? then
        Some(Plain(eventType, FallbackBagZone(c), 1.0, RoundTo(c.bag.conf, 1000.0), c.bag.track))
      else None
  }

  /** The order in which the types are reported. */
  const ORDER: seq<AiEventType> := [
    HighValueZoneEntry, Dwell, RepeatedHandling, Concealment, ShelfPickupNoCheckout,
    ExitWithoutCheckout, BlindSpotMovement, GroupDistraction, HighValueActivity,
    LowStaffRemoval, BagOpen]

  function Rank(eventType: AiEventType): nat {
    match eventType
    case HighValueZoneEntry => 0
    case Dwell => 1
    case RepeatedHandling => 2
    case Concealment => 3
    case ShelfPickupNoCheckout => 4
    case ExitWithoutCheckout => 5
    case BlindSpotMovement => 6
    case GroupDistraction => 7
    case HighValueActivity => 8
    case LowStaffRemoval => 9
    case BagOpen => 10
  }

  lemma RankInOrder(eventType: AiEventType, k: nat)
    ensures Rank(eventType) < |ORDER| && ORDER[Rank(eventType)] == eventType
    ensures k < |ORDER| ==> Rank(ORDER[k]) == k
  {
  }

  function Present(e: Option<AiEvent>): seq<AiEvent> {
    if e.Some? then [e.value] else []
  }

  /** What the first k types report. */
  function Reported(c: Cues, a: Across, k: nat): seq<AiEvent>
    requires k <= |ORDER|
  {
    if k == 0 then [] else Reported(c, a, k - 1) + Present(Evidence(c, a, ORDER[k - 1]))
  }

  ghost function EventsOf(fps: real, frames: seq<Frame>, zones: seq<Zone>): seq<AiEvent> {
    var c := CuesOf(frames, zones);
    Reported(c, AcrossOf(fps, c.tracks), |ORDER|)
  }

  // ----- each type at most once -----

  lemma EvidenceIsOfItsType(c: Cues, a: Across, eventType: AiEventType)
    ensures Evidence(c, a, eventType).Some? ==> Evidence(c, a, eventType).value.eventType == eventType
  {
  }

  /** A type is reported exactly when there is evidence for it, and with that evidence. */
  lemma {:induction false} ReportedExactly(c: Cues, a: Across, k: nat, e: AiEvent)
    requires k <= |ORDER|
    ensures e in Reported(c, a, k) <==> Rank(e.eventType) < k && Evidence(c, a, e.eventType) == Some(e)
  {
    if k > 0 {
      ReportedExactly(c, a, k - 1, e);
      RankInOrder(e.eventType, k - 1);
      EvidenceIsOfItsType(c, a, ORDER[k - 1]);
    }
  }

  lemma RankBelow(c: Cues, a: Across, k: nat, i: nat)
    requires k <= |ORDER| && i < |Reported(c, a, k)|
    ensures Rank(Reported(c, a, k)[i].eventType) < k
  {
    ReportedExactly(c, a, k, Reported(c, a, k)[i]);
  }

  lemma LastRank(c: Cues, a: Across, k: nat, e: AiEvent)
    requires k < |ORDER| && Evidence(c, a, ORDER[k]) == Some(e)
    ensures Rank(e.eventType) == k
  {
    EvidenceIsOfItsType(c, a, ORDER[k]);
    RankInOrder(ORDER[k], k);
  }

  lemma {:induction false} ReportedInOrder(c: Cues, a: Across, k: nat, i: nat, j: nat)
    requires k <= |ORDER| && i < j < |Reported(c, a, k)|
    ensures Rank(Reported(c, a, k)[i].eventType) < Rank(Reported(c, a, k)[j].eventType)
  {
    var before := Reported(c, a, k - 1);
    if j < |before| {
      ReportedInOrder(c, a, k - 1, i, j);
    } else {
      RankBelow(c, a, k - 1, i);
      LastRank(c, a, k - 1, Reported(c, a, k)[j]);
    }
  }

  lemma EventsExactly(fps: real, frames: seq<Frame>, zones: seq<Zone>, e: AiEvent)
    ensures var c := CuesOf(frames, zones);
      e in EventsOf(fps, frames, zones) <==> Evidence(c, AcrossOf(fps, c.tracks), e.eventType) == Some(e)
  {
    var c := CuesOf(frames, zones);
    ReportedExactly(c, AcrossOf(fps, c.tracks), |ORDER|, e);
    RankInOrder(e.eventType, 0);
  }

  /** The two may not be reported together. */
  predicate Excludes(t: AiEventType, u: AiEventType) {
    t == u || (t == ShelfPickupNoCheckout && u == ExitWithoutCheckout)
    || (t == ExitWithoutCheckout && u == ShelfPickupNoCheckout)
  }

  lemma ReportedApart(c: Cues, a: Across, i: nat, j: nat)
    requires i < j < |Reported(c, a, |ORDER|)|
    ensures !Excludes(Reported(c, a, |ORDER|)[i].eventType, Reported(c, a, |ORDER|)[j].eventType)
  {
    var e, f := Reported(c, a, |ORDER|)[i], Reported(c, a, |ORDER|)[j];
    ReportedInOrder(c, a, |ORDER|, i, j);
    ReportedExactly(c, a, |ORDER|, e);
    ReportedExactly(c, a, |ORDER|, f);
  }

  /** Every clip: each type at most once, and never both exit events. */
  lemma EachTypeAtMostOnce(fps: real, frames: seq<Frame>, zones: seq<Zone>, i: nat, j: nat)
    requires i < j < |EventsOf(fps, frames, zones)|
    ensures var events := EventsOf(fps, frames, zones); !Excludes(events[i].eventType, events[j].eventType)
  {
    var c := CuesOf(frames, zones);
    ReportedApart(c, AcrossOf(fps, c.tracks), i, j);
  }

  // ----- the code that reports them -----

  /** `extract_events`. */
  method ExtractEvents(fps: real, frames: seq<Frame>, zones: seq<Zone>) returns (events: seq<AiEvent>)
    ensures events == EventsOf(fps, frames, zones)
  {
    if frames == [] {
      NothingReported(|ORDER|);
      assert AcrossOf(fps, NO_CUES.tracks) == NOTHING;
      return [];
    }
    var c := ScanClip(frames, zones);
    var a := DeriveSignals(fps, c.tracks);
    events := ReportMovement(c, a);
    events := ReportItems(c, a, events);
    events := ReportRemoval(c, a, events);
  }

  lemma NoEvidence(t: AiEventType)
    ensures Evidence(NO_CUES, NOTHING, t) == None
  {
  }

  lemma {:induction false} NothingReported(k: nat)
    requires k <= |ORDER|
    ensures Reported(NO_CUES, NOTHING, k) == []
  {
    if k > 0 {
      NothingReported(k - 1);
      NoEvidence(ORDER[k - 1]);
    }
  }

  /** Concealment: path A needs a handled item before the bag, path B a sustained cue. */
  method ReportConcealment(c: Cues, a: Across) returns (e: seq<AiEvent>)
    ensures e == Present(Evidence(c, a, Concealment))
  {
    var latestBag := if c.openBag.lastIdx > c.bag.lastIdx then c.openBag.lastIdx else c.bag.lastIdx;
    var handledThenBag :=
      c.handling.inShelf && c.handling.firstIdx >= 0 && latestBag > c.handling.firstIdx;
    if handledThenBag || ConcealSustained(c) {
      var direct := if ConcealSustained(c) then c.conceal.zone else None;
      var zone := Or(Or(Or(direct, OpenBagZone(c)), FallbackBagZone(c)), c.handling.zone);
      var track := OrId(OrId(OrId(c.conceal.track, c.handling.track), c.openBag.track), c.bag.track);
      return [Plain(Concealment, zone, 1.0, 0.7, track)];
    }
    return [];
  }

  method ReportHandling(c: Cues, a: Across) returns (e: seq<AiEvent>)
    ensures e == Present(Evidence(c, a, RepeatedHandling))
  {
    if c.handling.episodes > 0 {
      return [Plain(RepeatedHandling, c.handling.zone, c.handling.episodes as real, 0.85, c.handling.track)];
    } else if a.reentries > 0 {
      return [Plain(RepeatedHandling, a.carried.reentryZone, a.reentries as real, 0.7, a.carried.reentryTrack)];
    }
    return [];
  }

  method ReportMovement(c: Cues, a: Across) returns (events: seq<AiEvent>)
    ensures events == Reported(c, a, 4)
  {
    events := [];
    if a.carried.highValueZone.Some? {
      events := [Plain(HighValueZoneEntry, a.carried.highValueZone, 1.0, 0.9, a.carried.highValueTrack)];
    }
    assert events == Reported(c, a, 1);
    if a.dwell > 0.0 {
      events := events + [Plain(Dwell, a.dwellZone, RoundTo(a.dwell, 10.0), 0.9, a.dwellTrack)];
    }
    assert events == Reported(c, a, 2);
    var handling := ReportHandling(c, a);
    events := events + handling;
    assert events == Reported(c, a, 3);
    var concealment := ReportConcealment(c, a);
    events := events + concealment;
  }

  method ReportExit(c: Cues, a: Across) returns (e: seq<AiEvent>)
    ensures e == Present(Evidence(c, a, ShelfPickupNoCheckout)) + Present(Evidence(c, a, ExitWithoutCheckout))
  {
    if a.exitZone.None? {
      return [];
    }
    var embedding := EmbeddingOf(c.embeddings, a.exitTrack);
    if c.handling.inShelf {
      return [AiEvent(a.exitTrack, a.exitZone, ShelfPickupNoCheckout, 1.0, 0.7, embedding)];
    } else {
      return [AiEvent(a.exitTrack, a.exitZone, ExitWithoutCheckout, 1.0, 0.7, embedding)];
    }
  }

  method ReportBlindSpot(c: Cues, a: Across) returns (e: seq<AiEvent>)
    ensures e == Present(Evidence(c, a, BlindSpotMovement))
  {
    if a.blindZone.Some? {
      return [Plain(BlindSpotMovement, a.blindZone, 1.0, 0.8, a.blindTrack)];
    }
    return [];
  }

  method ReportGroup(c: Cues, a: Across) returns (e: seq<AiEvent>)
    ensures e == Present(Evidence(c, a, GroupDistraction))
  {
    if c.group.max >= 2 {
      return [Plain(GroupDistraction, c.group.zone, c.group.max as real, 0.7, c.group.track)];
    }
    return [];
  }

  lemma NextReported(c: Cues, a: Across, k: nat)
    requires k < |ORDER|
    ensures Reported(c, a, k + 1) == Reported(c, a, k) + Present(Evidence(c, a, ORDER[k]))
  {
  }

  method ReportItems(c: Cues, a: Across, before: seq<AiEvent>) returns (events: seq<AiEvent>)
    requires before == Reported(c, a, 4)
    ensures events == Reported(c, a, 8)
  {
    var exit := ReportExit(c, a);
    events := WithExit(c, a, before, exit);
    var blind := ReportBlindSpot(c, a);
    NextReported(c, a, 6);
    events := events + blind;
    var group := ReportGroup(c, a);
    NextReported(c, a, 7);
    events := events + group;
  }

  method WithExit(c: Cues, a: Across, before: seq<AiEvent>, exit: seq<AiEvent>) returns (events: seq<AiEvent>)
    requires before == Reported(c, a, 4)
    requires exit == Present(Evidence(c, a, ShelfPickupNoCheckout)) + Present(Evidence(c, a, ExitWithoutCheckout))
    ensures events == Reported(c, a, 6)
  {
    NextReported(c, a, 4);
    NextReported(c, a, 5);
    return before + exit;
  }

  method ReportActivity(c: Cues, a: Across) returns (e: seq<AiEvent>)
    ensures e == Present(Evidence(c, a, HighValueActivity))
  {
    var highValueBag, highValueProduct := c.highValue.bag, c.highValue.product;
    if !(OpenBagSustained(c) || BagSustained(c)) {
      highValueBag := false;
    }
    if ConcealSustained(c) && c.conceal.inHighValue {
      highValueProduct := true;
    }
    var categories := Flag(c.highValue.person) + Flag(highValueProduct) + Flag(highValueBag);
    if categories >= 2 {
      return [Plain(HighValueActivity, c.highValue.zone, categories as real, 0.8, c.highValue.track)];
    }
    return [];
  }

  method ReportLowStaff(c: Cues, a: Across) returns (e: seq<AiEvent>)
    ensures e == Present(Evidence(c, a, LowStaffRemoval))
  {
    if c.handling.inShelf {
      var track := c.handling.track;
      if track == 0 {
        track := FindShelfTrack(c.tracks);
      }
      return [AiEvent(track, c.handling.zone, LowStaffRemoval, 1.0, 0.6, EmbeddingOf(c.embeddings, track))];
    }
    return [];
  }

  method ReportBag(c: Cues, a: Across) returns (e: seq<AiEvent>)
    ensures e == Present(Evidence(c, a, BagOpen))
  {
    if OpenBagZone(c).Some? {
      return [Plain(BagOpen, OpenBagZone(c), 1.0, RoundTo(c.openBag.conf, 1000.0), c.openBag.track)];
    } else if FallbackBagZone(c).Some? {
      return [Plain(BagOpen, FallbackBagZone(c), 1.0, RoundTo(c.bag.conf, 1000.0), c.bag.track)];
    }
    return [];
  }

  method ReportRemoval(c: Cues, a: Across, before: seq<AiEvent>) returns (events: seq<AiEvent>)
    requires before == Reported(c, a, 8)
    ensures events == Reported(c, a, 11)
  {
    var activity := ReportActivity(c, a);
    var lowStaff := ReportLowStaff(c, a);
    var bag := ReportBag(c, a);
    events := before + activity;
    assert events == Reported(c, a, 9);
    events := events + lowStaff;
    assert events == Reported(c, a, 10);
    events := events + bag;
  }

  method FindShelfTrack(tracks: seq<Timeline>) returns (track: int)
    ensures track == FirstShelfTrack(tracks)
  {
    for k := 0 to |tracks|
      invariant FirstShelfTrack(tracks) == FirstShelfTrack(tracks[k..])
    {
      var visited := VisitedTypes(tracks[k].visits);
      if visited * SHELF_LIKE != {} {
        return tracks[k].track;
      }
      assert tracks[k..][1..] == tracks[k + 1..];
    }
    return 0;
  }

  method VisitedTypes(visits: seq<Visit>) returns (visited: set<ZoneType>)
    ensures visited == Visited(visits)
  {
    visited := {};
    for k := 0 to |visits|
      invariant visited == Visited(visits[..k])
    {
      assert visits[..k + 1][..k] == visits[..k];
      visited := visited + TypesOf(visits[k].zones);
    }
    assert visits[..|visits|] == visits;
  }
}
