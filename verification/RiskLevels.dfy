/** What a score means (backend/Services/RiskEngine.cs): what each event earns, which level a
    score reaches and which signal gives an alert its name. */
module RiskLevels {
  import opened Selections
  import opened EventTypes
  import opened RiskEngine
  import opened RiskTheorems

  // ----- what one event earns -----

  const ALWAYS: set<AiEventType> :=
    {BagOpen, Concealment, ExitWithoutCheckout, ShelfPickupNoCheckout, BlindSpotMovement, HighValueActivity}

  /** Within [start, end) of the day, which may run over midnight; equal ends are no window. */
  predicate InWindow(start: int, end: int, hour: int) {
    (start < end && start <= hour && hour < end) || (start > end && (start <= hour || hour < end))
  }

  /** Six types always earn their weight, two from a threshold on, one in a window of hours; the
      entry earns nothing here since it counts once for all events together. */
  lemma WorthExactly(cfg: RiskConfig, e: TimedEvent, weight: int)
    requires e.event.eventType in cfg.weights && weight == cfg.weights[e.event.eventType]
    ensures e.event.eventType in ALWAYS ==> Worth(cfg, e) == weight
    ensures e.event.eventType == RepeatedHandling ==>
      Worth(cfg, e) == if e.event.value >= cfg.repeatedHandlingThreshold as real then weight else 0
    ensures e.event.eventType == GroupDistraction ==>
      Worth(cfg, e) == if e.event.value >= cfg.groupSizeThreshold as real then weight else 0
    ensures e.event.eventType == LowStaffRemoval ==>
      Worth(cfg, e) == if InWindow(cfg.lowStaffStart, cfg.lowStaffEnd, e.hour) then weight else 0
    ensures e.event.eventType == Dwell && e.event.value < cfg.dwellThreshold ==> Worth(cfg, e) == 0
    ensures e.event.eventType == Dwell && e.event.value >= cfg.dwellThreshold ==>
      Worth(cfg, e) == DwellPoints(cfg, weight, e.event.value)
    ensures e.event.eventType == HighValueZoneEntry ==> Worth(cfg, e) == 0
  {
  }

  lemma TimesQuotient(x: real, d: real, k: real)
    requires d > 0.0
    ensures x / d * k == Scaled(x, k, d)
  {
  }

  lemma QuotientWithin(x: real, d: real)
    requires 0.0 <= x <= d && d >= 1.0
    ensures 0.0 <= x / d <= 1.0
  {
  }

  function Scaled(x: real, k: real, d: real): real
    requires d > 0.0
  {
    x * k / d
  }

  /** The straight line from ten at `from` to the weight at `end`. */
  function Line(from: real, end: real, weight: int, value: real): real
    requires from < end
  {
    10.0 + Scaled(value - from, (weight - 10) as real, end - from)
  }

  lemma ShareOf(q: real, k: real)
    requires 0.0 <= q <= 1.0
    ensures Share(q, k) == 10.0 + q * k
  {
  }

  lemma ShareOnLine(x: real, d: real, span: real, k: real)
    requires 0.0 <= x <= d && span == d >= 1.0
    ensures Share(x / span, k) == 10.0 + Scaled(x, k, d)
  {
    QuotientWithin(x, span);
    ShareOf(x / span, k);
    TimesQuotient(x, span, k);
    assert Scaled(x, k, span) == Scaled(x, k, d);
  }

  /** Between the threshold and the maximum the points follow that line, rounded to the nearest
      integer. */
  lemma DwellOnTheLine(cfg: RiskConfig, weight: int, value: real)
    requires cfg.dwellMax - cfg.dwellThreshold >= 1.0 && cfg.dwellThreshold <= value <= cfg.dwellMax
    ensures var exact := Line(cfg.dwellThreshold, cfg.dwellMax, weight, value);
      -0.5 <= DwellPoints(cfg, weight, value) as real - exact <= 0.5
  {
    var exact := Line(cfg.dwellThreshold, cfg.dwellMax, weight, value);
    SpanIs(cfg);
    ShareOnLine(value - cfg.dwellThreshold, cfg.dwellMax - cfg.dwellThreshold, Span(cfg), (weight - 10) as real);
    assert DwellPoints(cfg, weight, value) == RoundHalfEven(exact);
    RoundingIsNearest(exact, 0);
  }

  lemma SpanIs(cfg: RiskConfig)
    requires cfg.dwellMax - cfg.dwellThreshold >= 1.0
    ensures Span(cfg) == cfg.dwellMax - cfg.dwellThreshold
  {
  }

  lemma EntryCounts(cfg: RiskConfig, events: seq<TimedEvent>)
    ensures Has(cfg, events, HighValueZoneEntry)
      <==> exists e :: e in events && e.event.eventType == HighValueZoneEntry
  {
    if e :| e in events && e.event.eventType == HighValueZoneEntry {
      assert QualifiesAs(cfg, e, HighValueZoneEntry);
    }
  }

  /** The score: what each event earns, and the entry weight once if anybody entered. */
  lemma ScoreByTheRules(cfg: RiskConfig, events: seq<TimedEvent>)
    requires HighValueZoneEntry in cfg.weights
    ensures Scored(cfg, events).score == TotalWorth(cfg, events)
      + if exists e :: e in events && e.event.eventType == HighValueZoneEntry
        then cfg.weights[HighValueZoneEntry] else 0
  {
    ScoreIsTotal(cfg, events);
    EntryCounts(cfg, events);
  }

  // ----- the rules as shipped -----

  lemma LoneScore(e: TimedEvent)
    ensures Scored(DEFAULT, [e]).score == Worth(DEFAULT, e) + if e.event.eventType == HighValueZoneEntry then 15 else 0
  {
    ScoreByTheRules(DEFAULT, [e]);
    assert [e][..0] == [] && [e][0] == e;
    assert TotalWorth(DEFAULT, [e]) == Worth(DEFAULT, e);
    assert e in [e];
  }

  /** What a lone event scores under the default rules. */
  lemma DefaultTable(e: TimedEvent)
    ensures var score, t, v := Scored(DEFAULT, [e]).score, e.event.eventType, e.event.value;
      && (t == HighValueZoneEntry ==> score == 15)
      && (t == RepeatedHandling ==> score == if v >= 3.0 then 15 else 0)
      && (t == BagOpen ==> score == 20)
      && (t == Concealment ==> score == 40)
      && (t == ExitWithoutCheckout ==> score == 20)
      && (t == ShelfPickupNoCheckout ==> score == 25)
      && (t == BlindSpotMovement ==> score == 15)
      && (t == GroupDistraction ==> score == if v >= 3.0 then 10 else 0)
      && (t == HighValueActivity ==> score == 15)
      && (t == LowStaffRemoval ==> score == if e.hour >= 22 || e.hour < 6 then 10 else 0)
  {
    LoneScore(e);
    WorthExactly(DEFAULT, e, DEFAULT.weights[e.event.eventType]);
  }

  /** A lone dwell: nothing under thirty seconds, then from ten to twenty points at ninety. */
  lemma DefaultDwell(e: TimedEvent)
    requires e.event.eventType == Dwell
    ensures var score, v := Scored(DEFAULT, [e]).score, e.event.value;
      && (v < 30.0 ==> score == 0)
      && (30.0 <= v <= 90.0 ==> -0.5 <= score as real - Line(30.0, 90.0, 20, v) <= 0.5)
      && (v >= 90.0 ==> score == 20)
  {
    LoneScore(e);
    WorthExactly(DEFAULT, e, 20);
    if 30.0 <= e.event.value <= 90.0 {
      DwellOnTheLine(DEFAULT, 20, e.event.value);
    }
    DwellGrows(DEFAULT, 20, e.event.value, e.event.value);
  }

  // ----- the level -----

  /** The level is that of the highest band the score reaches. */
  lemma LevelExactly(cfg: RiskConfig, events: seq<TimedEvent>)
    requires events != []
    ensures var r := Scored(cfg, events);
      && (r.level == High <==> r.score >= cfg.highBand)
      && (r.level == Medium <==> cfg.mediumBand <= r.score < cfg.highBand)
      && (r.level == Low <==> cfg.lowBand <= r.score < cfg.highBand && r.score < cfg.mediumBand)
      && (r.level == NoRisk <==> r.score < cfg.lowBand && r.score < cfg.mediumBand && r.score < cfg.highBand)
  {
  }

  /** As shipped: low from 40, medium from 70, high from 90. */
  lemma DefaultLevels(events: seq<TimedEvent>)
    ensures var r := Scored(DEFAULT, events);
      && (r.level == High <==> r.score >= 90)
      && (r.level == Medium <==> 70 <= r.score < 90)
      && (r.level == Low <==> 40 <= r.score < 70)
      && (r.level == NoRisk <==> r.score < 40)
  {
    if events != [] {
      LevelExactly(DEFAULT, events);
    }
  }

  function Height(level: RiskLevel): nat {
    match level
    case NoRisk => 0
    case Low => 1
    case Medium => 2
    case High => 3
  }

  /** More points never lower the level. */
  lemma MorePointsNeverLower(cfg: RiskConfig, a: seq<TimedEvent>, b: seq<TimedEvent>)
    requires b != [] && Scored(cfg, a).score <= Scored(cfg, b).score
    ensures Height(Scored(cfg, a).level) <= Height(Scored(cfg, b).level)
  {
    LevelExactly(cfg, b);
    if a != [] {
      LevelExactly(cfg, a);
    }
  }

  // ----- the alert type -----

  /** The signals by strength; the two weakest share a name. */
  const BY_STRENGTH: seq<AiEventType> := [
    ShelfPickupNoCheckout, Concealment, ExitWithoutCheckout, BagOpen, BlindSpotMovement, LowStaffRemoval,
    GroupDistraction, HighValueActivity, RepeatedHandling, Dwell, HighValueZoneEntry]

  const NAMES: seq<AlertType> := [
    ShelfPickup, ConcealmentMovement, ExitUnpaid, BagOpenNearShelf, BlindSpot, LowStaff,
    GroupAtShelf, HighValueCues, RepeatedShelfHandling, LongDwellHighValue, LongDwellHighValue]

  lemma NameOfStrongest(types: set<AiEventType>, k: nat)
    requires k < |BY_STRENGTH| && BY_STRENGTH[k] in types
    requires forall j :: 0 <= j < k ==> BY_STRENGTH[j] !in types
    ensures |NAMES| == |BY_STRENGTH| && DeriveAlertType(types) == NAMES[k]
  {
    assert k > 0 ==> BY_STRENGTH[0] !in types;
    assert k > 1 ==> BY_STRENGTH[1] !in types;
    assert k > 2 ==> BY_STRENGTH[2] !in types;
    assert k > 3 ==> BY_STRENGTH[3] !in types;
    assert k > 4 ==> BY_STRENGTH[4] !in types;
    assert k > 5 ==> BY_STRENGTH[5] !in types;
    assert k > 6 ==> BY_STRENGTH[6] !in types;
    assert k > 7 ==> BY_STRENGTH[7] !in types;
    assert k > 8 ==> BY_STRENGTH[8] !in types;
    assert k > 9 ==> BY_STRENGTH[9] !in types;
  }

  /** The alert is named after the strongest type with an event that earns points. */
  lemma AlertNamesTheStrongest(cfg: RiskConfig, events: seq<TimedEvent>, k: nat)
    requires k < |BY_STRENGTH| && Has(cfg, events, BY_STRENGTH[k])
    requires forall j :: 0 <= j < k ==> !Has(cfg, events, BY_STRENGTH[j])
    ensures |NAMES| == |BY_STRENGTH| && Scored(cfg, events).alertType == NAMES[k]
  {
    ScoredTypes(cfg, events, BY_STRENGTH[k]);
    forall j | 0 <= j < k ensures BY_STRENGTH[j] !in EventTypesOf(Contributing(cfg, events)) {
      ScoredTypes(cfg, events, BY_STRENGTH[j]);
    }
    NameOfStrongest(EventTypesOf(Contributing(cfg, events)), k);
  }

  predicate EarnsAs(cfg: RiskConfig, e: TimedEvent, t: AiEventType) {
    && e.event.eventType == t
    && (t == Dwell ==> e.event.value >= cfg.dwellThreshold)
    && (t == RepeatedHandling ==> e.event.value >= cfg.repeatedHandlingThreshold as real)
    && (t == GroupDistraction ==> e.event.value >= cfg.groupSizeThreshold as real)
    && (t == LowStaffRemoval ==> InWindow(cfg.lowStaffStart, cfg.lowStaffEnd, e.hour))
  }

  /** Which events count for it. */
  lemma HasExactly(cfg: RiskConfig, events: seq<TimedEvent>, t: AiEventType)
    ensures Has(cfg, events, t) <==> exists e :: e in events && EarnsAs(cfg, e, t)
  {
    forall e | e in events ensures QualifiesAs(cfg, e, t) <==> EarnsAs(cfg, e, t) {
    }
  }

  // ----- failure, evidence, zone -----

  /** Scoring fails if and only if some event that earns points has no weight configured. */
  lemma FailsExactly(cfg: RiskConfig, events: seq<TimedEvent>)
    ensures NoneLacks(cfg, events)
      <==> forall e :: e in events && EarnsAs(cfg, e, e.event.eventType) ==> e.event.eventType in cfg.weights
  {
    forall e | e in events
      ensures Lacks(cfg, e) <==> EarnsAs(cfg, e, e.event.eventType) && e.event.eventType !in cfg.weights
    {
    }
  }

  /** The event at k earns points and, if it is an entry, is the first one. */
  predicate IsEvidence(cfg: RiskConfig, events: seq<TimedEvent>, k: nat) {
    && k < |events| && EarnsAs(cfg, events[k], events[k].event.eventType)
    && (events[k].event.eventType == HighValueZoneEntry ==>
          forall j :: 0 <= j < k ==> events[j].event.eventType != HighValueZoneEntry)
  }

  /** The evidence are these events, in their order. */
  lemma {:induction false} EvidenceExactly(cfg: RiskConfig, events: seq<TimedEvent>) returns (at: seq<nat>)
    ensures Selects(events, (k: nat) => IsEvidence(cfg, events, k), at, Contributing(cfg, events))
    ensures Scored(cfg, events).evidence == Contributing(cfg, events)
  {
    if events == [] {
      return [];
    }
    var n := |events| - 1;
    var rest := events[..n];
    var before := EvidenceExactly(cfg, rest);
    forall k: nat | k < n ensures IsEvidence(cfg, events, k) <==> IsEvidence(cfg, rest, k) {
    }
    EvidenceNext(cfg, events);
    at := SelectsNext(events, (k: nat) => IsEvidence(cfg, events, k), before, Contributing(cfg, rest));
  }

  lemma EvidenceNext(cfg: RiskConfig, events: seq<TimedEvent>)
    requires events != []
    ensures var n := |events| - 1;
      Contributes(cfg, events[n], EventTypesOf(Contributing(cfg, events[..n]))) <==> IsEvidence(cfg, events, n)
  {
    var rest := events[..|events| - 1];
    ScoredTypes(cfg, rest, HighValueZoneEntry);
    HasExactly(cfg, rest, HighValueZoneEntry);
    if e :| e in rest && EarnsAs(cfg, e, HighValueZoneEntry) {
      var j :| 0 <= j < |rest| && rest[j] == e;
      assert events[j].event.eventType == HighValueZoneEntry;
    }
    if j :| 0 <= j < |rest| && events[j].event.eventType == HighValueZoneEntry {
      assert rest[j] in rest && EarnsAs(cfg, rest[j], HighValueZoneEntry);
    }
  }

  predicate IsFirstZoned(evidence: seq<TimedEvent>, k: nat) {
    k < |evidence| && evidence[k].event.zoneId.Some? && forall j :: 0 <= j < k ==> evidence[j].event.zoneId.None?
  }

  /** The zone is that of the first piece of evidence that has one. */
  lemma {:induction false} ZoneExactly(evidence: seq<TimedEvent>, k: nat)
    ensures IsFirstZoned(evidence, k) ==> FirstZone(evidence) == evidence[k].event.zoneId
    ensures (forall j :: 0 <= j < |evidence| ==> evidence[j].event.zoneId.None?) ==> FirstZone(evidence).None?
  {
    if evidence != [] {
      ZoneExactly(evidence[..|evidence| - 1], k);
    }
  }
}
