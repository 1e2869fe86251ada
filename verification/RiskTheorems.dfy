/** Properties of the risk score: order, the offline mirror, the low-staff window, and the
    greatest score a clip can reach. */
module RiskTheorems {
  import opened Detections
  import opened Zones
  import opened EventTypes
  import opened EventCues
  import opened EventTimelines
  import opened EventExtraction
  import opened RiskEngine

  // ----- the score without the order -----

  function Worth(cfg: RiskConfig, e: TimedEvent): int {
    if Qualifies(cfg, e) && e.event.eventType != HighValueZoneEntry then Points(cfg, e) else 0
  }

  function TotalWorth(cfg: RiskConfig, events: seq<TimedEvent>): int {
    if events == [] then 0
    else TotalWorth(cfg, events[..|events| - 1]) + Worth(cfg, events[|events| - 1])
  }

  function EntryWeight(cfg: RiskConfig): int {
    if HighValueZoneEntry in cfg.weights then cfg.weights[HighValueZoneEntry] else 0
  }

  ghost predicate QualifiesAs(cfg: RiskConfig, e: TimedEvent, t: AiEventType) {
    e.event.eventType == t && Qualifies(cfg, e)
  }

  ghost predicate Has(cfg: RiskConfig, events: seq<TimedEvent>, t: AiEventType) {
    exists e :: e in events && QualifiesAs(cfg, e, t)
  }

  lemma HasSnoc(cfg: RiskConfig, rest: seq<TimedEvent>, e: TimedEvent, t: AiEventType)
    ensures Has(cfg, rest + [e], t) <==> Has(cfg, rest, t) || QualifiesAs(cfg, e, t)
  {
    assert e in rest + [e];
    if d :| d in rest && QualifiesAs(cfg, d, t) {
      assert d in rest + [e];
    }
  }

  /** The types that scored are the types with a qualifying event. */
  lemma {:induction false} ScoredTypes(cfg: RiskConfig, events: seq<TimedEvent>, t: AiEventType)
    ensures t in EventTypesOf(Contributing(cfg, events)) <==> Has(cfg, events, t)
  {
    if events != [] {
      var rest, e := events[..|events| - 1], events[|events| - 1];
      assert events == rest + [e];
      ScoredTypes(cfg, rest, t);
      ScoredTypes(cfg, rest, HighValueZoneEntry);
      HasSnoc(cfg, rest, e, t);
      TypesSnoc(Contributing(cfg, rest), e);
    }
  }

  lemma SumSnoc(cfg: RiskConfig, counted: seq<TimedEvent>, e: TimedEvent)
    ensures SumOfPoints(cfg, counted + [e]) == SumOfPoints(cfg, counted) + Points(cfg, e)
  {
    assert (counted + [e])[..|counted|] == counted;
  }

  lemma EntryPoints(cfg: RiskConfig, e: TimedEvent)
    requires e.event.eventType == HighValueZoneEntry
    ensures Points(cfg, e) == EntryWeight(cfg) && Worth(cfg, e) == 0
  {
  }

  lemma OtherPoints(cfg: RiskConfig, e: TimedEvent)
    requires e.event.eventType != HighValueZoneEntry
    ensures Worth(cfg, e) == if Qualifies(cfg, e) then Points(cfg, e) else 0
  {
  }

  /** What has counted, told apart by the entry that counts once. */
  function EntryPart(cfg: RiskConfig, entered: bool): int {
    if entered then EntryWeight(cfg) else 0
  }

  lemma CountedNext(cfg: RiskConfig, counted: seq<TimedEvent>, e: TimedEvent, entered: bool)
    requires entered <==> HighValueZoneEntry in EventTypesOf(counted)
    ensures var more := if Contributes(cfg, e, EventTypesOf(counted)) then [e] else [];
      var now := entered || QualifiesAs(cfg, e, HighValueZoneEntry);
      SumOfPoints(cfg, counted + more) - EntryPart(cfg, now)
        == SumOfPoints(cfg, counted) - EntryPart(cfg, entered) + Worth(cfg, e)
  {
    assert counted + [] == counted;
    SumSnoc(cfg, counted, e);
    if e.event.eventType == HighValueZoneEntry {
      EntryPoints(cfg, e);
    } else {
      OtherPoints(cfg, e);
    }
  }

  /** The score: the entry weight at most once, everything else as often as it qualifies. */
  lemma {:induction false} ScoreIsTotal(cfg: RiskConfig, events: seq<TimedEvent>)
    ensures SumOfPoints(cfg, Contributing(cfg, events))
      == TotalWorth(cfg, events) + EntryPart(cfg, Has(cfg, events, HighValueZoneEntry))
  {
    if events != [] {
      var rest, e := events[..|events| - 1], events[|events| - 1];
      assert events == rest + [e];
      ScoreIsTotal(cfg, rest);
      ScoredTypes(cfg, rest, HighValueZoneEntry);
      HasSnoc(cfg, rest, e, HighValueZoneEntry);
      var counted := Contributing(cfg, rest);
      CountedNext(cfg, counted, e, Has(cfg, rest, HighValueZoneEntry));
      assert counted + [] == counted;
    }
  }

  // ----- order -----

  lemma {:induction false} TotalWorthSplit(cfg: RiskConfig, a: seq<TimedEvent>, e: TimedEvent, b: seq<TimedEvent>)
    ensures TotalWorth(cfg, a + [e] + b) == TotalWorth(cfg, a + b) + Worth(cfg, e)
  {
    if b == [] {
      assert (a + [e] + b)[..|a|] == a && a + b == a;
    } else {
      var init := b[..|b| - 1];
      TotalWorthSplit(cfg, a, e, init);
      assert (a + [e] + b)[..|a| + |b|] == a + [e] + init;
      assert (a + b)[..|a| + |b| - 1] == a + init;
    }
  }

  lemma WithoutOne(rest: seq<TimedEvent>, l: seq<TimedEvent>, e: TimedEvent, r: seq<TimedEvent>)
    requires multiset(rest + [e]) == multiset(l + [e] + r)
    ensures multiset(rest) == multiset(l + r)
  {
    assert multiset(rest + [e]) == multiset(rest) + multiset{e};
    assert multiset(l + [e] + r) == multiset(l + r) + multiset{e};
    assert multiset(rest + [e]) - multiset{e} == multiset(rest);
  }

  lemma {:induction false} TotalWorthPermutes(cfg: RiskConfig, a: seq<TimedEvent>, b: seq<TimedEvent>)
    requires multiset(a) == multiset(b)
    ensures TotalWorth(cfg, a) == TotalWorth(cfg, b)
  {
    if a == [] {
      assert |multiset(b)| == 0;
    } else {
      var rest, e := a[..|a| - 1], a[|a| - 1];
      assert a == rest + [e];
      assert e in multiset(b);
      var j :| 0 <= j < |b| && b[j] == e;
      var l, r := b[..j], b[j + 1..];
      assert b == l + [e] + r;
      WithoutOne(rest, l, e, r);
      TotalWorthPermutes(cfg, rest, l + r);
      TotalWorthSplit(cfg, l, e, r);
    }
  }

  lemma HasPermutes(cfg: RiskConfig, a: seq<TimedEvent>, b: seq<TimedEvent>, t: AiEventType)
    requires multiset(a) == multiset(b) && Has(cfg, a, t)
    ensures Has(cfg, b, t)
  {
    var e :| e in a && QualifiesAs(cfg, e, t);
    assert e in multiset(b);
  }

  /** The order of the events changes nothing but the order of the evidence and which zone
      comes first. */
  lemma OrderDoesNotMatter(cfg: RiskConfig, a: seq<TimedEvent>, b: seq<TimedEvent>)
    requires multiset(a) == multiset(b)
    ensures var r, s := Scored(cfg, a), Scored(cfg, b);
      r.score == s.score && r.level == s.level && r.alertType == s.alertType
    ensures NoneLacks(cfg, a) <==> NoneLacks(cfg, b)
  {
    TotalWorthPermutes(cfg, a, b);
    ScoreIsTotal(cfg, a);
    ScoreIsTotal(cfg, b);
    forall t: AiEventType
      ensures Has(cfg, a, t) <==> Has(cfg, b, t)
      ensures t in EventTypesOf(Contributing(cfg, a)) <==> t in EventTypesOf(Contributing(cfg, b))
    {
      if Has(cfg, a, t) {
        HasPermutes(cfg, a, b, t);
      }
      if Has(cfg, b, t) {
        HasPermutes(cfg, b, a, t);
      }
      ScoredTypes(cfg, a, t);
      ScoredTypes(cfg, b, t);
    }
    assert EventTypesOf(Contributing(cfg, a)) == EventTypesOf(Contributing(cfg, b));
    assert |multiset(a)| == |a| && |multiset(b)| == |b|;
    LackingPermutes(cfg, a, b);
    LackingPermutes(cfg, b, a);
  }

  lemma LackingPermutes(cfg: RiskConfig, a: seq<TimedEvent>, b: seq<TimedEvent>)
    requires multiset(a) == multiset(b)
    ensures NoneLacks(cfg, a) ==> NoneLacks(cfg, b)
  {
    forall j | 0 <= j < |b| && NoneLacks(cfg, a) ensures !Lacks(cfg, b[j]) {
      assert b[j] in multiset(a);
      var i :| 0 <= i < |a| && a[i] == b[j];
    }
  }

  // ----- the offline mirror -----

  /** The default rules, but for the low-staff window. */
  predicate DefaultButWindow(cfg: RiskConfig) {
    cfg == DEFAULT.(lowStaffStart := cfg.lowStaffStart, lowStaffEnd := cfg.lowStaffEnd)
  }

  predicate OutsideWindow(cfg: RiskConfig, e: TimedEvent) {
    e.event.eventType == LowStaffRemoval && !cfg.IsLowStaffHour(e.hour)
  }

  function CountOutside(cfg: RiskConfig, events: seq<TimedEvent>): nat {
    if events == [] then 0
    else CountOutside(cfg, events[..|events| - 1]) + if OutsideWindow(cfg, events[|events| - 1]) then 1 else 0
  }

  /** The mirror's score; it knows nothing of the hours. */
  function MirrorScore(events: seq<TimedEvent>): int {
    if events == [] then 0
    else
      var rest := events[..|events| - 1];
      MirrorScore(rest) + PointsOfMirror(events[|events| - 1].event, EventTypesOf(rest))
  }

  /** `score_events`. */
  method ScoreEvents(events: seq<TimedEvent>) returns (score: int)
    ensures score == MirrorScore(events)
  {
    score := 0;
    var seen: set<AiEventType> := {};
    for k := 0 to |events|
      invariant seen == EventTypesOf(events[..k])
      invariant score == MirrorScore(events[..k])
    {
      var e := events[k].event;
      assert events[..k + 1][..k] == events[..k] && events[..k + 1] == events[..k] + [events[k]];
      TypesSnoc(events[..k], events[k]);
      var points := MirrorPoints(e, seen);
      score := score + points;
      seen := seen + {e.eventType};
    }
    assert events[..|events|] == events;
  }

  const FLAT_EVENTS: set<AiEventType> :=
    {BagOpen, Concealment, ExitWithoutCheckout, ShelfPickupNoCheckout, BlindSpotMovement, HighValueActivity}

  function Max(a: real, b: real): real {
    if a >= b then a else b
  }

  function Min(a: real, b: real): real {
    if a <= b then a else b
  }

  function MirrorDwell(value: real): int {
    RoundHalfEven(10.0 + Part(10.0, Min(1.0, Max(0.0, (value - 30.0) / Max(1.0, 90.0 - 30.0)))))
  }

  function PointsOfMirror(e: AiEvent, seen: set<AiEventType>): int {
    var t := e.eventType;
    if t == HighValueZoneEntry && t !in seen then 15
    else if t == Dwell && e.value >= 30.0 then
      MirrorDwell(e.value)
    else if t == RepeatedHandling && e.value >= 3.0 then 15
    else if t == GroupDistraction && e.value >= 3.0 then 10
    else if t == LowStaffRemoval then 10
    else if t in FLAT_EVENTS then WEIGHTS[t]
    else 0
  }

  /** One arm of its chain. */
  method MirrorPoints(e: AiEvent, seen: set<AiEventType>) returns (points: int)
    ensures points == PointsOfMirror(e, seen)
  {
    points := 0;
    var t, v := e.eventType, e.value;
    if t == HighValueZoneEntry && t !in seen {
      points := WEIGHTS[t];
    } else if t == Dwell && v >= 30.0 {
      points := MirrorDwellPoints(v, WEIGHTS[t]);
    } else if t == RepeatedHandling && v >= 3.0 {
      points := WEIGHTS[t];
    } else if t == GroupDistraction && v >= 3.0 {
      points := WEIGHTS[t];
    } else if t == LowStaffRemoval {
      points := WEIGHTS[t];
    } else if t in FLAT_EVENTS {
      points := WEIGHTS[t];
    }
  }

  method MirrorDwellPoints(v: real, weight: int) returns (points: int)
    requires weight == 20
    ensures points == MirrorDwell(v)
  {
    var span := Max(1.0, 90.0 - 30.0);
    var frac := Min(1.0, Max(0.0, (v - 30.0) / span));
    var range := (weight - 10) as real;
    assert frac * range == Part(range, frac) && range == 10.0;
    points := RoundHalfEven(10.0 + frac * range);
  }

  lemma MirroredDwell(cfg: RiskConfig, value: real)
    requires DefaultButWindow(cfg)
    ensures MirrorDwell(value) == DwellPoints(cfg, 20, value)
  {
    var progress := (value - 30.0) / 60.0;
    assert Min(1.0, Max(0.0, progress)) == Clamp(progress);
  }

  lemma MirroredPoints(cfg: RiskConfig, e: TimedEvent, seen: set<AiEventType>)
    requires DefaultButWindow(cfg)
    ensures PointsOfMirror(e.event, seen)
      == Worth(cfg, e) + (if OutsideWindow(cfg, e) then 10 else 0)
         + if e.event.eventType == HighValueZoneEntry && HighValueZoneEntry !in seen then 15 else 0
  {
    MirroredDwell(cfg, e.event.value);
  }

  lemma {:induction false} EntrySeen(cfg: RiskConfig, events: seq<TimedEvent>)
    ensures HighValueZoneEntry in EventTypesOf(events) <==> Has(cfg, events, HighValueZoneEntry)
  {
    if events != [] {
      var rest, e := events[..|events| - 1], events[|events| - 1];
      assert events == rest + [e];
      EntrySeen(cfg, rest);
      TypesSnoc(rest, e);
      HasSnoc(cfg, rest, e, HighValueZoneEntry);
    }
  }

  lemma {:induction false} MirrorTotal(cfg: RiskConfig, events: seq<TimedEvent>)
    requires DefaultButWindow(cfg)
    ensures MirrorScore(events) == TotalWorth(cfg, events) + 10 * CountOutside(cfg, events)
      + EntryPart(cfg, Has(cfg, events, HighValueZoneEntry))
  {
    if events != [] {
      var rest, e := events[..|events| - 1], events[|events| - 1];
      assert events == rest + [e];
      MirrorTotal(cfg, rest);
      EntrySeen(cfg, rest);
      HasSnoc(cfg, rest, e, HighValueZoneEntry);
      MirroredPoints(cfg, e, EventTypesOf(rest));
    }
  }

  /** The mirror scores ten more for each low-staff event outside the window. */
  lemma MirrorExceeds(cfg: RiskConfig, events: seq<TimedEvent>)
    requires DefaultButWindow(cfg)
    ensures MirrorScore(events) == Scored(cfg, events).score + 10 * CountOutside(cfg, events)
  {
    MirrorTotal(cfg, events);
    ScoreIsTotal(cfg, events);
  }

  /** The mirror agrees with the backend exactly when no low-staff event falls outside the
      window; a window of the whole day makes it agree always. */
  lemma MirrorAgreesExactly(cfg: RiskConfig, events: seq<TimedEvent>)
    requires DefaultButWindow(cfg)
    ensures MirrorScore(events) == Scored(cfg, events).score
      <==> forall i :: 0 <= i < |events| ==> !OutsideWindow(cfg, events[i])
  {
    MirrorExceeds(cfg, events);
    CountOutsideMeaning(cfg, events);
  }

  /** A low-staff event at noon: ten points in the mirror, none in the backend. */
  lemma MirrorDiffersAtNoon(e: AiEvent)
    requires e.eventType == LowStaffRemoval
    ensures var events := [TimedEvent(e, 12)];
      MirrorScore(events) == 10 && Scored(DEFAULT, events).score == 0
  {
    var events := [TimedEvent(e, 12)];
    assert events[..0] == [] && OutsideWindow(DEFAULT, events[0]);
    assert CountOutside(DEFAULT, events) == CountOutside(DEFAULT, events[..0]) + 1 == 1;
    assert MirrorScore(events) == MirrorScore(events[..0]) + 10 == 10;
    MirrorExceeds(DEFAULT, events);
  }

  lemma MirrorAgreesAllDay(cfg: RiskConfig, events: seq<TimedEvent>)
    requires DefaultButWindow(cfg) && cfg.lowStaffStart == 0 && cfg.lowStaffEnd == 24
    requires forall i :: 0 <= i < |events| ==> events[i].hour < 24
    ensures MirrorScore(events) == Scored(cfg, events).score
  {
    MirrorAgreesExactly(cfg, events);
  }

  lemma {:induction false} CountOutsideMeaning(cfg: RiskConfig, events: seq<TimedEvent>)
    ensures CountOutside(cfg, events) == 0 <==> forall i :: 0 <= i < |events| ==> !OutsideWindow(cfg, events[i])
  {
    if events != [] {
      CountOutsideMeaning(cfg, events[..|events| - 1]);
      assert forall i :: 0 <= i < |events| - 1 ==> events[..|events| - 1][i] == events[i];
    }
  }

  // ----- the low-staff window -----

  /** Swapping the ends gives exactly the other hours of the day. */
  lemma SwappedWindowIsComplement(cfg: RiskConfig, hour: int)
    requires cfg.lowStaffStart != cfg.lowStaffEnd
    ensures var swapped := cfg.(lowStaffStart := cfg.lowStaffEnd, lowStaffEnd := cfg.lowStaffStart);
      swapped.IsLowStaffHour(hour) <==> !cfg.IsLowStaffHour(hour)
  {
  }

  // ----- rounding and dwell -----

  lemma RoundingIsNearest(x: real, n: int)
    ensures var r := RoundHalfEven(x);
      && -0.5 <= r as real - x <= 0.5
      && (r as real - x == 0.5 || r as real - x == -0.5 ==> r % 2 == 0)
    ensures n as real <= x ==> n <= RoundHalfEven(x)
    ensures x <= n as real ==> RoundHalfEven(x) <= n
  {
  }

  lemma RoundingIsMonotone(x: real, y: real)
    requires x <= y
    ensures RoundHalfEven(x) <= RoundHalfEven(y)
  {
    assert x.Floor <= y.Floor;
  }

  lemma ScaleGrows(p: real, q: real, k: real)
    requires 0.0 <= p <= q <= 1.0 && k >= 0.0
    ensures 0.0 <= Part(k, p) <= Part(k, q) <= k
    ensures p == 0.0 ==> Part(k, p) == 0.0
    ensures p == 1.0 ==> Part(k, p) == k
  {
  }

  lemma DivideMonotone(x: real, y: real, d: real)
    requires x <= y && d >= 1.0
    ensures x / d <= y / d
    ensures x >= d ==> x / d >= 1.0
    ensures x <= 0.0 ==> x / d <= 0.0
  {
  }

  /** Where between the threshold and the maximum a dwell lies. */
  function Progress(cfg: RiskConfig, value: real): real {
    (value - cfg.dwellThreshold) / Span(cfg)
  }

  lemma ProgressGrows(cfg: RiskConfig, v: real, w: real)
    requires v <= w
    ensures Progress(cfg, v) <= Progress(cfg, w)
    ensures v <= cfg.dwellThreshold ==> Progress(cfg, v) <= 0.0
    ensures v >= cfg.dwellMax && cfg.dwellMax >= cfg.dwellThreshold + 1.0 ==> Progress(cfg, v) >= 1.0
  {
    DivideMonotone(v - cfg.dwellThreshold, w - cfg.dwellThreshold, Span(cfg));
  }

  /** Longer dwells never score less; the points start at ten and end at the full weight. */
  lemma DwellGrows(cfg: RiskConfig, weight: int, v: real, w: real)
    requires weight >= 10 && v <= w
    ensures 10 <= DwellPoints(cfg, weight, v) <= DwellPoints(cfg, weight, w) <= weight
    ensures v <= cfg.dwellThreshold ==> DwellPoints(cfg, weight, v) == 10
    ensures v >= cfg.dwellMax && cfg.dwellMax >= cfg.dwellThreshold + 1.0 ==> DwellPoints(cfg, weight, v) == weight
  {
    ProgressGrows(cfg, v, w);
    var k := (weight - 10) as real;
    assert 10.0 + k == weight as real;
    ShareGrows(Progress(cfg, v), Progress(cfg, w), k);
    RoundedBetween(Share(Progress(cfg, v), k), Share(Progress(cfg, w), k), 10, weight);
  }

  lemma ShareGrows(x: real, y: real, k: real)
    requires k >= 0.0 && x <= y
    ensures 10.0 <= Share(x, k) <= Share(y, k) <= 10.0 + k
    ensures x <= 0.0 ==> Share(x, k) == 10.0
    ensures x >= 1.0 ==> Share(x, k) == 10.0 + k
  {
    ScaleGrows(Clamp(x), Clamp(y), k);
  }

  lemma RoundedBetween(p: real, q: real, low: int, high: int)
    requires low as real <= p <= q <= high as real
    ensures low <= RoundHalfEven(p) <= RoundHalfEven(q) <= high
    ensures p == low as real ==> RoundHalfEven(p) == low
    ensures p == high as real ==> RoundHalfEven(p) == high
  {
    RoundingIsMonotone(p, q);
    RoundingIsNearest(p, low);
    RoundingIsNearest(q, high);
  }

  // ----- the alert type -----

  /** Whatever scored gets a name of its own. */
  lemma AlertTypeNamesSomething(types: set<AiEventType>)
    ensures DeriveAlertType(types) == CameraRiskEvent <==> types == {}
  {
    if types != {} {
      var t :| t in types;
      match t
      case HighValueZoneEntry => assert HighValueZoneEntry in types;
      case Dwell => assert Dwell in types;
      case RepeatedHandling => assert RepeatedHandling in types;
      case BagOpen => assert BagOpen in types;
      case Concealment => assert Concealment in types;
      case ExitWithoutCheckout => assert ExitWithoutCheckout in types;
      case ShelfPickupNoCheckout => assert ShelfPickupNoCheckout in types;
      case BlindSpotMovement => assert BlindSpotMovement in types;
      case GroupDistraction => assert GroupDistraction in types;
      case HighValueActivity => assert HighValueActivity in types;
      case LowStaffRemoval => assert LowStaffRemoval in types;
    }
  }

  // ----- the greatest score of a clip -----

  function At(events: seq<AiEvent>, hour: nat): seq<TimedEvent> {
    if events == [] then [] else At(events[..|events| - 1], hour) + [TimedEvent(events[|events| - 1], hour)]
  }

  /** The most the k-th reported type adds, the entry weight aside. */
  const CAPS: seq<nat> := [0, 20, 15, 40, 25, 20, 15, 10, 15, 10, 20]

  lemma WorthBound(cfg: RiskConfig, e: TimedEvent)
    requires DefaultButWindow(cfg)
    ensures Rank(e.event.eventType) < |CAPS| && Worth(cfg, e) <= CAPS[Rank(e.event.eventType)]
  {
    if e.event.eventType == Dwell {
      DwellGrows(cfg, 20, e.event.value, e.event.value);
    }
  }

  lemma WorthOfReported(cfg: RiskConfig, c: Cues, a: Across, hour: nat, k: nat)
    requires k < |ORDER|
    ensures TotalWorth(cfg, At(Reported(c, a, k + 1), hour)) == TotalWorth(cfg, At(Reported(c, a, k), hour))
      + EvidenceWorth(cfg, c, a, hour, ORDER[k])
  {
    NextReported(c, a, k);
    var before, e := Reported(c, a, k), Evidence(c, a, ORDER[k]);
    if e.Some? {
      assert (before + [e.value])[..|before|] == before;
      var t := TimedEvent(e.value, hour);
      assert (At(before, hour) + [t])[..|At(before, hour)|] == At(before, hour);
    } else {
      assert before + [] == before;
    }
  }

  function EvidenceWorth(cfg: RiskConfig, c: Cues, a: Across, hour: nat, t: AiEventType): int {
    match Evidence(c, a, t)
    case Some(e) => Worth(cfg, TimedEvent(e, hour))
    case None => 0
  }

  lemma EvidenceBound(cfg: RiskConfig, c: Cues, a: Across, hour: nat, k: nat)
    requires DefaultButWindow(cfg) && k < |ORDER|
    ensures |CAPS| == |ORDER| && EvidenceWorth(cfg, c, a, hour, ORDER[k]) <= CAPS[k]
    ensures Evidence(c, a, ORDER[k]).None? ==> EvidenceWorth(cfg, c, a, hour, ORDER[k]) == 0
  {
    EvidenceIsOfItsType(c, a, ORDER[k]);
    RankInOrder(ORDER[k], k);
    if Evidence(c, a, ORDER[k]).Some? {
      WorthBound(cfg, TimedEvent(Evidence(c, a, ORDER[k]).value, hour));
    }
  }

  lemma ExitsExclude(c: Cues, a: Across)
    ensures ORDER[4] == ShelfPickupNoCheckout && ORDER[5] == ExitWithoutCheckout
    ensures Evidence(c, a, ShelfPickupNoCheckout).None? || Evidence(c, a, ExitWithoutCheckout).None?
  {
  }

  /** `totals[k]` is the sum of the first k. */
  predicate Accumulates(totals: seq<int>, worths: seq<int>) {
    && |worths| == |ORDER| && |totals| == |ORDER| + 1 && totals[0] == 0
    && forall k :: 0 <= k < |worths| ==> totals[k + 1] == totals[k] + worths[k]
  }

  ghost predicate AreWorths(cfg: RiskConfig, c: Cues, a: Across, hour: nat, worths: seq<int>) {
    |worths| == |ORDER| && forall k :: 0 <= k < |ORDER| ==> worths[k] == EvidenceWorth(cfg, c, a, hour, ORDER[k])
  }

  lemma SumOfEleven(totals: seq<int>, worths: seq<int>)
    requires Accumulates(totals, worths)
    ensures totals[11] == worths[0] + worths[1] + worths[2] + worths[3] + worths[4] + worths[5]
      + worths[6] + worths[7] + worths[8] + worths[9] + worths[10]
  {
    assert totals[0 + 1] == worths[0];
    assert totals[4 + 1] == totals[3 + 1] + worths[4] && totals[3 + 1] == totals[2 + 1] + worths[3]
      && totals[2 + 1] == totals[1 + 1] + worths[2] && totals[1 + 1] == totals[0 + 1] + worths[1];
    assert totals[8 + 1] == totals[7 + 1] + worths[8] && totals[7 + 1] == totals[6 + 1] + worths[7]
      && totals[6 + 1] == totals[5 + 1] + worths[6] && totals[5 + 1] == totals[4 + 1] + worths[5];
    assert totals[10 + 1] == totals[9 + 1] + worths[10] && totals[9 + 1] == totals[8 + 1] + worths[9];
  }

  ghost predicate AreTotals(cfg: RiskConfig, c: Cues, a: Across, hour: nat, totals: seq<int>) {
    && |totals| == |ORDER| + 1
    && forall k :: 0 <= k <= |ORDER| ==> totals[k] == TotalWorth(cfg, At(Reported(c, a, k), hour))
  }

  lemma TotalsExist(cfg: RiskConfig, c: Cues, a: Across, hour: nat) returns (totals: seq<int>)
    ensures AreTotals(cfg, c, a, hour, totals)
  {
    totals := seq(|ORDER| + 1, k requires 0 <= k <= |ORDER| => TotalWorth(cfg, At(Reported(c, a, k), hour)));
  }

  lemma WorthsExist(cfg: RiskConfig, c: Cues, a: Across, hour: nat) returns (worths: seq<int>)
    ensures AreWorths(cfg, c, a, hour, worths)
  {
    worths := seq(|ORDER|, k requires 0 <= k < |ORDER| => EvidenceWorth(cfg, c, a, hour, ORDER[k]));
  }

  lemma TotalsNext(cfg: RiskConfig, c: Cues, a: Across, hour: nat, totals: seq<int>, worths: seq<int>, k: nat)
    requires AreTotals(cfg, c, a, hour, totals) && AreWorths(cfg, c, a, hour, worths) && k < |ORDER|
    ensures totals[k + 1] == totals[k] + worths[k]
  {
    WorthOfReported(cfg, c, a, hour, k);
  }

  lemma NothingReportedYet(cfg: RiskConfig, c: Cues, a: Across, hour: nat)
    ensures TotalWorth(cfg, At(Reported(c, a, 0), hour)) == 0
  {
  }

  /** What the types are worth, one after the other. */
  lemma Worths(cfg: RiskConfig, c: Cues, a: Across, hour: nat) returns (totals: seq<int>, worths: seq<int>)
    ensures Accumulates(totals, worths) && AreWorths(cfg, c, a, hour, worths)
    ensures totals[|ORDER|] == TotalWorth(cfg, At(Reported(c, a, |ORDER|), hour))
  {
    totals := TotalsExist(cfg, c, a, hour);
    worths := WorthsExist(cfg, c, a, hour);
    NothingReportedYet(cfg, c, a, hour);
    forall k: nat | k < |worths| ensures totals[k + 1] == totals[k] + worths[k] {
      TotalsNext(cfg, c, a, hour, totals, worths, k);
    }
  }

  /** Of the two exits only the dearer counts. */
  lemma TotalWithin(totals: seq<int>, worths: seq<int>)
    requires Accumulates(totals, worths)
    requires |CAPS| == |ORDER| && forall k :: 0 <= k < |ORDER| ==> worths[k] <= CAPS[k]
    requires worths[4] == 0 || worths[5] == 0
    ensures totals[|ORDER|] <= 170
  {
    SumOfEleven(totals, worths);
  }

  lemma OneExitIsWorthNothing(cfg: RiskConfig, c: Cues, a: Across, hour: nat)
    ensures EvidenceWorth(cfg, c, a, hour, ORDER[4]) == 0 || EvidenceWorth(cfg, c, a, hour, ORDER[5]) == 0
  {
    ExitsExclude(c, a);
  }

  lemma WorthIsCapped(cfg: RiskConfig, c: Cues, a: Across, hour: nat, worths: seq<int>, k: nat)
    requires DefaultButWindow(cfg) && AreWorths(cfg, c, a, hour, worths) && k < |ORDER|
    ensures |CAPS| == |ORDER| && worths[k] <= CAPS[k]
  {
    EvidenceBound(cfg, c, a, hour, k);
  }

  lemma WorthsAreWithin(cfg: RiskConfig, c: Cues, a: Across, hour: nat, totals: seq<int>, worths: seq<int>)
    requires DefaultButWindow(cfg) && AreWorths(cfg, c, a, hour, worths) && Accumulates(totals, worths)
    ensures totals[|ORDER|] <= 170
  {
    OneExitIsWorthNothing(cfg, c, a, hour);
    WorthIsCapped(cfg, c, a, hour, worths, 0);
    forall k: nat | k < |ORDER| ensures worths[k] <= CAPS[k] {
      WorthIsCapped(cfg, c, a, hour, worths, k);
    }
    TotalWithin(totals, worths);
  }

  lemma ReportedScore(cfg: RiskConfig, c: Cues, a: Across, hour: nat, events: seq<AiEvent>)
    requires DefaultButWindow(cfg) && events == Reported(c, a, |ORDER|)
    ensures Scored(cfg, At(events, hour)).score <= 185
  {
    var totals, worths := Worths(cfg, c, a, hour);
    WorthsAreWithin(cfg, c, a, hour, totals, worths);
    ScoreWithin(cfg, At(events, hour));
  }

  lemma ScoreWithin(cfg: RiskConfig, events: seq<TimedEvent>)
    requires DefaultButWindow(cfg) && TotalWorth(cfg, events) <= 170
    ensures Scored(cfg, events).score <= 185
  {
    ScoreIsTotal(cfg, events);
  }

  /** Under the default weights no clip scores more than 185. */
  lemma ClipScoreAtMost185(cfg: RiskConfig, fps: real, frames: seq<Frame>, zones: seq<Zone>, hour: nat)
    requires DefaultButWindow(cfg)
    ensures Scored(cfg, At(EventsOf(fps, frames, zones), hour)).score <= 185
  {
    var c := CuesOf(frames, zones);
    ReportedScore(cfg, c, AcrossOf(fps, c.tracks), hour, EventsOf(fps, frames, zones));
  }
}
