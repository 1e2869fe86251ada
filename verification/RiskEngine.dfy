/** Risk scoring (backend/Services/RiskEngine.cs) and its offline mirror
    (cloud-ai/eval/run_eval.py). */
module RiskEngine {
  import opened Wrappers
  import opened EventTypes

  /** An event and the local hour at which it started. */
  datatype TimedEvent = TimedEvent(event: AiEvent, hour: nat)

  datatype RiskConfig = RiskConfig(
    weights: map<AiEventType, int>,
    dwellThreshold: real, dwellMax: real,
    repeatedHandlingThreshold: int, groupSizeThreshold: int,
    lowStaffStart: int, lowStaffEnd: int,
    lowBand: int, mediumBand: int, highBand: int)
  {
    predicate IsLowStaffHour(hour: int) {
      if lowStaffStart == lowStaffEnd then false
      else if lowStaffStart < lowStaffEnd then lowStaffStart <= hour < lowStaffEnd
      else hour >= lowStaffStart || hour < lowStaffEnd
    }
  }

  const WEIGHTS: map<AiEventType, int> := map[
    HighValueZoneEntry := 15, Dwell := 20, RepeatedHandling := 15, BagOpen := 20,
    Concealment := 40, ExitWithoutCheckout := 20, ShelfPickupNoCheckout := 25,
    BlindSpotMovement := 15, GroupDistraction := 10, HighValueActivity := 15,
    LowStaffRemoval := 10]

  const DEFAULT := RiskConfig(WEIGHTS, 30.0, 90.0, 3, 3, 22, 6, 40, 70, 90)

  datatype RiskLevel = NoRisk | Low | Medium | High

  datatype AlertType =
    | Unset | ShelfPickup | ConcealmentMovement | ExitUnpaid | BagOpenNearShelf | BlindSpot
    | LowStaff | GroupAtShelf | HighValueCues | RepeatedShelfHandling | LongDwellHighValue
    | CameraRiskEvent

  /** `evidence` holds the events that contributed points, one line of text each. */
  datatype RiskScore = RiskScore(
    score: int, level: RiskLevel, alertType: AlertType, evidence: seq<TimedEvent>, zone: Option<string>)

  datatype ScoreError = MissingWeight(eventType: AiEventType)

  // ----- what one event is worth -----

  function Span(cfg: RiskConfig): (r: real)
    ensures r >= 1.0
  {
    if cfg.dwellMax - cfg.dwellThreshold > 1.0 then cfg.dwellMax - cfg.dwellThreshold else 1.0
  }

  function Clamp(x: real): (r: real)
    ensures 0.0 <= r <= 1.0
  {
    if x < 0.0 then 0.0 else if x > 1.0 then 1.0 else x
  }

  function Part(range: real, fraction: real): real {
    fraction * range
  }

  function Share(progress: real, range: real): real {
    10.0 + Part(range, Clamp(progress))
  }

  /** Ten points at the threshold, growing linearly to the full weight. */
  function DwellPoints(cfg: RiskConfig, weight: int, value: real): int {
    RoundHalfEven(Share((value - cfg.dwellThreshold) / Span(cfg), (weight - 10) as real))
  }

  /** The event passes the threshold of its type. */
  predicate Qualifies(cfg: RiskConfig, e: TimedEvent) {
    match e.event.eventType
    case Dwell => e.event.value >= cfg.dwellThreshold
    case RepeatedHandling => e.event.value >= cfg.repeatedHandlingThreshold as real
    case GroupDistraction => e.event.value >= cfg.groupSizeThreshold as real
    case LowStaffRemoval => cfg.IsLowStaffHour(e.hour)
    case _ => true
  }

  function Points(cfg: RiskConfig, e: TimedEvent): int {
    if e.event.eventType !in cfg.weights then 0
    else if e.event.eventType == Dwell then DwellPoints(cfg, cfg.weights[Dwell], e.event.value)
    else cfg.weights[e.event.eventType]
  }

  function LevelOf(cfg: RiskConfig, score: int): RiskLevel {
    if score >= cfg.highBand then High
    else if score >= cfg.mediumBand then Medium
    else if score >= cfg.lowBand then Low
    else NoRisk
  }

  function DeriveAlertType(types: set<AiEventType>): AlertType {
    if ShelfPickupNoCheckout in types then ShelfPickup
    else if Concealment in types then ConcealmentMovement
    else if ExitWithoutCheckout in types then ExitUnpaid
    else if BagOpen in types then BagOpenNearShelf
    else if BlindSpotMovement in types then BlindSpot
    else if LowStaffRemoval in types then LowStaff
    else if GroupDistraction in types then GroupAtShelf
    else if HighValueActivity in types then HighValueCues
    else if RepeatedHandling in types then RepeatedShelfHandling
    else if Dwell in types || HighValueZoneEntry in types then LongDwellHighValue
    else CameraRiskEvent
  }

  // ----- which events contribute -----

  function EventTypesOf(events: seq<TimedEvent>): set<AiEventType> {
    set i | 0 <= i < |events| :: events[i].event.eventType
  }

  /** A high-value entry counts once; any other qualifying event counts every time. */
  predicate Contributes(cfg: RiskConfig, e: TimedEvent, before: set<AiEventType>) {
    Qualifies(cfg, e) && !(e.event.eventType == HighValueZoneEntry && HighValueZoneEntry in before)
  }

  function Contributing(cfg: RiskConfig, events: seq<TimedEvent>): seq<TimedEvent> {
    if events == [] then []
    else
      var before, e := Contributing(cfg, events[..|events| - 1]), events[|events| - 1];
      if Contributes(cfg, e, EventTypesOf(before)) then before + [e] else before
  }

  function SumOfPoints(cfg: RiskConfig, events: seq<TimedEvent>): int {
    if events == [] then 0
    else SumOfPoints(cfg, events[..|events| - 1]) + Points(cfg, events[|events| - 1])
  }

  function FirstZone(events: seq<TimedEvent>): Option<string> {
    if events == [] then None
    else
      var before := FirstZone(events[..|events| - 1]);
      if before.Some? then before else events[|events| - 1].event.zoneId
  }

  predicate Lacks(cfg: RiskConfig, e: TimedEvent) {
    Qualifies(cfg, e) && e.event.eventType !in cfg.weights
  }

  function Scored(cfg: RiskConfig, events: seq<TimedEvent>): RiskScore {
    var counted := Contributing(cfg, events);
    RiskScore(SumOfPoints(cfg, counted), if events == [] then NoRisk else LevelOf(cfg, SumOfPoints(cfg, counted)),
              if events == [] then Unset else DeriveAlertType(EventTypesOf(counted)),
              counted, FirstZone(counted))
  }

  // ----- the code -----

  /** What `Award` accumulates. */
  class Accumulator {
    var score: int
    var evidence: seq<TimedEvent>
    var zone: Option<string>
    var scored: set<AiEventType>

    constructor ()
      ensures score == 0 && evidence == [] && zone == None && scored == {}
    {
      score, evidence, zone, scored := 0, [], None, {};
    }

    ghost predicate Holds(cfg: RiskConfig, counted: seq<TimedEvent>)
      reads this
    {
      && score == SumOfPoints(cfg, counted) && evidence == counted
      && zone == FirstZone(counted) && scored == EventTypesOf(counted)
    }

    method Award(cfg: RiskConfig, e: TimedEvent, pts: int)
      requires Holds(cfg, evidence) && pts == Points(cfg, e)
      modifies this
      ensures evidence == old(evidence) + [e] && Holds(cfg, evidence)
    {
      TypesSnoc(evidence, e);
      assert (evidence + [e])[..|evidence|] == evidence;
      score := score + pts;
      evidence := evidence + [e];
      if zone.None? {
        zone := e.event.zoneId;
      }
      scored := scored + {e.event.eventType};
    }
  }

  lemma TypesSnoc(events: seq<TimedEvent>, e: TimedEvent)
    ensures EventTypesOf(events + [e]) == EventTypesOf(events) + {e.event.eventType}
  {
    var all := events + [e];
    assert all[|events|] == e;
    assert forall i :: 0 <= i < |events| ==> all[i] == events[i];
    forall t | t in EventTypesOf(events) ensures t in EventTypesOf(all) {
      var i :| 0 <= i < |events| && events[i].event.eventType == t;
      assert all[i].event.eventType == t;
    }
  }

  ghost predicate NoneLacks(cfg: RiskConfig, events: seq<TimedEvent>) {
    forall i :: 0 <= i < |events| ==> !Lacks(cfg, events[i])
  }

  lemma {:induction false} CountedHaveWeights(cfg: RiskConfig, events: seq<TimedEvent>)
    requires NoneLacks(cfg, events)
    ensures EventTypesOf(Contributing(cfg, events)) <= cfg.weights.Keys
  {
    if events != [] {
      var n := |events| - 1;
      CountedHaveWeights(cfg, events[..n]);
      TypesSnoc(Contributing(cfg, events[..n]), events[n]);
      assert !Lacks(cfg, events[n]);
    }
  }

  /** `RiskEngine.Score`: fails exactly when a qualifying event has no configured weight. */
  method Score(events: seq<TimedEvent>, cfg: RiskConfig) returns (r: Result<RiskScore, ScoreError>)
    ensures r.Ok? <==> NoneLacks(cfg, events)
    ensures r.Ok? ==> r.value == Scored(cfg, events)
  {
    if events == [] {
      return Ok(RiskScore(0, NoRisk, Unset, [], None));
    }
    var acc := new Accumulator();
    for k := 0 to |events|
      invariant NoneLacks(cfg, events[..k])
      invariant acc.Holds(cfg, acc.evidence) && acc.evidence == Contributing(cfg, events[..k])
    {
      var e := events[k];
      assert events[..k + 1][..k] == events[..k];
      CountedHaveWeights(cfg, events[..k]);
      assert acc.scored == EventTypesOf(Contributing(cfg, events[..k]));
      var failed := ScoreEvent(acc, cfg, e);
      if failed {
        return Err(MissingWeight(e.event.eventType));
      }
    }
    assert events[..|events|] == events;
    var level := LevelOf(cfg, acc.score);
    r := Ok(RiskScore(acc.score, level, DeriveAlertType(acc.scored), acc.evidence, acc.zone));
  }

  /** The arithmetic of the dwell arm. */
  method ScoreDwell(cfg: RiskConfig, weight: int, value: real) returns (pts: int)
    ensures pts == DwellPoints(cfg, weight, value)
  {
    var span := if cfg.dwellMax - cfg.dwellThreshold > 1.0 then cfg.dwellMax - cfg.dwellThreshold else 1.0;
    var frac := Clamp((value - cfg.dwellThreshold) / span);
    var range := (weight - 10) as real;
    assert frac * range == Part(range, frac);
    pts := RoundHalfEven(10.0 + frac * range);
  }

  /** One arm of the switch; `failed` stands for the exception of a missing key. */
  method ScoreEvent(acc: Accumulator, cfg: RiskConfig, e: TimedEvent) returns (failed: bool)
    requires acc.Holds(cfg, acc.evidence)
    modifies acc
    ensures failed <==> Lacks(cfg, e) && Contributes(cfg, e, old(acc.scored))
    ensures !failed ==> acc.Holds(cfg, acc.evidence)
    ensures var more := if Contributes(cfg, e, old(acc.scored)) then [e] else [];
      !failed ==> acc.evidence == old(acc.evidence) + more
  {
    var t := e.event.eventType;
    var passes := match t
      case HighValueZoneEntry => HighValueZoneEntry !in acc.scored
      case Dwell => e.event.value >= cfg.dwellThreshold
      case RepeatedHandling => e.event.value >= cfg.repeatedHandlingThreshold as real
      case GroupDistraction => e.event.value >= cfg.groupSizeThreshold as real
      case LowStaffRemoval => cfg.IsLowStaffHour(e.hour)
      case _ => true;
    if !passes {
      return false;
    }
    if t !in cfg.weights {
      return true;
    }
    if t == Dwell {
      var pts := ScoreDwell(cfg, cfg.weights[Dwell], e.event.value);
      acc.Award(cfg, e, pts);
    } else {
      acc.Award(cfg, e, cfg.weights[t]);
    }
    return false;
  }
}
