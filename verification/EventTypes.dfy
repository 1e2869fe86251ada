/** The event vocabulary shared by extraction and scoring (backend/Domain/Enums.cs), and the
    rounding both sides use. */
module EventTypes {
  import opened Wrappers

  datatype AiEventType =
    | HighValueZoneEntry | Dwell | RepeatedHandling | BagOpen | Concealment
    | ExitWithoutCheckout | ShelfPickupNoCheckout | BlindSpotMovement
    | GroupDistraction | HighValueActivity | LowStaffRemoval

  datatype AiEvent = AiEvent(
    trackId: int,
    zoneId: Option<string>,
    eventType: AiEventType,
    value: real,
    confidence: real,
    embedding: seq<real>)

  /** Round half to even (section 4.3.1 of IEEE 754-2019), on exact values. */
  function RoundHalfEven(x: real): int {
    var below := x.Floor;
    var rest := x - below as real;
    if rest < 0.5 then below
    else if rest > 0.5 then below + 1
    else if below % 2 == 0 then below
    else below + 1
  }

  /** Python's `round(x, digits)`, with `scale` the power of ten. */
  function RoundTo(x: real, scale: real): real
    requires scale > 0.0
  {
    RoundHalfEven(x * scale) as real / scale
  }
}
