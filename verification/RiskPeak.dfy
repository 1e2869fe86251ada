/** The bound of 185 is reached. */
module RiskPeak {
  import opened EventTypes
  import opened EventCues
  import opened EventExtraction
  import opened EventTheorems
  import opened RiskEngine
  import opened RiskTheorems
  import opened PeakClip

  /** An hour inside the default low-staff window. */
  const LATE: nat := 23

  /** An event strong enough for the full points of its type. */
  predicate Strong(e: AiEvent) {
    && (e.eventType == Dwell ==> e.value >= 90.0)
    && (e.eventType == RepeatedHandling || e.eventType == GroupDistraction ==> e.value >= 3.0)
  }

  lemma FullWorth(e: AiEvent)
    requires Strong(e)
    ensures Rank(e.eventType) < |CAPS| && Worth(DEFAULT, TimedEvent(e, LATE)) == CAPS[Rank(e.eventType)]
  {
    if e.eventType == Dwell {
      DwellGrows(DEFAULT, 20, e.value, e.value);
    }
  }

  lemma PeakIsStrong(t: AiEventType)
    requires t != ExitWithoutCheckout
    ensures PeakEvidence(t).Some? && PeakEvidence(t).value.eventType == t && Strong(PeakEvidence(t).value)
  {
    EvidenceIsOfItsType(CuesOf(PEAK, AREAS), SignalsOf(SLOW, PEAK, AREAS), t);
    match t
    case HighValueZoneEntry => PeakEntry();
    case Dwell => PeakDwell();
    case RepeatedHandling => PeakRepeated();
    case Concealment => PeakConcealment();
    case ShelfPickupNoCheckout => PeakExit();
    case BlindSpotMovement => PeakExit();
    case GroupDistraction => PeakGroup();
    case HighValueActivity => PeakActivity();
    case LowStaffRemoval => PeakRepeated();
    case BagOpen => PeakConcealment();
  }

  lemma PeakWorth(k: nat)
    requires k < |ORDER|
    ensures |CAPS| == |ORDER|
    ensures EvidenceWorth(DEFAULT, CuesOf(PEAK, AREAS), SignalsOf(SLOW, PEAK, AREAS), LATE, ORDER[k])
      == if k == 5 then 0 else CAPS[k]
  {
    RankInOrder(ORDER[k], k);
    if k == 5 {
      PeakExit();
      ExitsExclude(CuesOf(PEAK, AREAS), SignalsOf(SLOW, PEAK, AREAS));
    } else {
      RankInOrder(ExitWithoutCheckout, 5);
      PeakIsStrong(ORDER[k]);
      FullWorth(PeakEvidence(ORDER[k]).value);
    }
  }

  lemma EntryIsThere(events: seq<AiEvent>)
    requires events == EventsOf(SLOW, PEAK, AREAS)
    ensures Has(DEFAULT, RiskTheorems.At(events, LATE), HighValueZoneEntry)
  {
    PeakEntry();
    var c, a := CuesOf(PEAK, AREAS), SignalsOf(SLOW, PEAK, AREAS);
    var e := PeakEvidence(HighValueZoneEntry).value;
    EvidenceIsOfItsType(c, a, HighValueZoneEntry);
    EventsExactly(SLOW, PEAK, AREAS, e);
    TimedIsThere(events, e);
    assert QualifiesAs(DEFAULT, TimedEvent(e, LATE), HighValueZoneEntry);
  }

  lemma {:induction false} TimedIsThere(events: seq<AiEvent>, e: AiEvent)
    requires e in events
    ensures TimedEvent(e, LATE) in RiskTheorems.At(events, LATE)
  {
    if e != events[|events| - 1] {
      assert events == events[..|events| - 1] + [events[|events| - 1]];
      TimedIsThere(events[..|events| - 1], e);
    }
  }

  lemma PeakTotal()
    ensures TotalWorth(DEFAULT, RiskTheorems.At(EventsOf(SLOW, PEAK, AREAS), LATE)) == 170
  {
    var totals, worths := Worths(DEFAULT, CuesOf(PEAK, AREAS), SignalsOf(SLOW, PEAK, AREAS), LATE);
    forall k: nat | k < |ORDER| ensures |CAPS| == |ORDER| && worths[k] == if k == 5 then 0 else CAPS[k] {
      PeakWorth(k);
    }
    SumOfEleven(totals, worths);
  }

  lemma FullScore(events: seq<TimedEvent>)
    requires TotalWorth(DEFAULT, events) == 170 && Has(DEFAULT, events, HighValueZoneEntry)
    ensures Scored(DEFAULT, events).score == 185
  {
    ScoreIsTotal(DEFAULT, events);
  }

  /** A clip that scores 185 under the default rules: the bound is the maximum. */
  lemma ClipReaches185()
    ensures Scored(DEFAULT, RiskTheorems.At(EventsOf(SLOW, PEAK, AREAS), LATE)).score == 185
  {
    PeakTotal();
    EntryIsThere(EventsOf(SLOW, PEAK, AREAS));
    FullScore(RiskTheorems.At(EventsOf(SLOW, PEAK, AREAS), LATE));
  }
}
