/** The second pass of `extract_events` (cloud-ai/app/events.py), over the timeline of each
    person track. */
module EventTimelines {
  import opened Wrappers
  import opened Zones
  import opened EventCues
  import opened Streaks

  const SHELF_LIKE: set<ZoneType> := {Shelf, HighValue}

  // ----- a visit and a timeline, read declaratively -----

  function InHighValue(v: Visit): Option<string> {
    ByType(v.zones, HighValue)
  }

  predicate InShelf(v: Visit) {
    TypesOf(v.zones) * SHELF_LIKE != {}
  }

  function HighValueFlags(visits: seq<Visit>): seq<bool> {
    seq(|visits|, i requires 0 <= i < |visits| => InHighValue(visits[i]).Some?)
  }

  function ShelfFlags(visits: seq<Visit>): seq<bool> {
    seq(|visits|, i requires 0 <= i < |visits| => InShelf(visits[i]))
  }

  function LongestStay(visits: seq<Visit>): nat {
    LongestRun(HighValueFlags(visits))
  }

  function LongestStayZone(visits: seq<Visit>): Option<string> {
    var end := LongestRunEnd(HighValueFlags(visits));
    if 0 < end <= |visits| then InHighValue(visits[end - 1]) else None
  }

  function Reentries(visits: seq<Visit>): nat {
    |Rising(ShelfFlags(visits))|
  }

  function Visited(visits: seq<Visit>): set<ZoneType> {
    if visits == [] then {} else Visited(visits[..|visits| - 1]) + TypesOf(visits[|visits| - 1].zones)
  }

  function FirstIdx(visits: seq<Visit>): map<ZoneType, nat> {
    if visits == [] then map[]
    else SetDefaults(FirstIdx(visits[..|visits| - 1]), TypesOf(visits[|visits| - 1].zones), visits[|visits| - 1].idx)
  }

  function SetDefaults(m: map<ZoneType, nat>, types: set<ZoneType>, idx: nat): map<ZoneType, nat> {
    map t | t in m.Keys + types :: if t in m then m[t] else idx
  }

  /** The id of the first zone of the type that has one. */
  function ZoneOf(visits: seq<Visit>, zoneType: ZoneType): Option<string> {
    if visits == [] then None
    else
      var v := visits[|visits| - 1];
      var before := ZoneOf(visits[..|visits| - 1], zoneType);
      if zoneType in TypesOf(v.zones) then Or(before, ByType(v.zones, zoneType)) else before
  }

  /** Where a shelf interaction started, for the re-entry signal. */
  function ShelfId(v: Visit): Option<string> {
    Or(ByType(v.zones, HighValue), ByType(v.zones, Shelf))
  }

  /** Four variables that live across tracks but change inside a timeline. */
  datatype Carried = Carried(
    highValueZone: Option<string>, highValueTrack: int,
    reentryZone: Option<string>, reentryTrack: int)

  function Carry(c: Carried, track: int, v: Visit, enters: bool): Carried {
    var hv := InHighValue(v);
    var seen := if hv.None? then c
                else c.(highValueZone := Or(c.highValueZone, hv),
                        highValueTrack := OrId(c.highValueTrack, track));
    if enters && c.reentryZone.None? then seen.(reentryZone := ShelfId(v), reentryTrack := track) else seen
  }

  function CarryAll(c: Carried, track: int, visits: seq<Visit>): Carried {
    if visits == [] then c
    else
      var n := |visits| - 1;
      Carry(CarryAll(c, track, visits[..n]), track, visits[n], RisesAt(ShelfFlags(visits), n))
  }

  datatype Summary = Summary(
    bestRun: nat, bestZone: Option<string>, reentries: nat, visited: set<ZoneType>,
    firstIdx: map<ZoneType, nat>, exitZone: Option<string>, blindZone: Option<string>)

  function SummaryOf(visits: seq<Visit>): Summary {
    Summary(LongestStay(visits), LongestStayZone(visits), Reentries(visits), Visited(visits),
            FirstIdx(visits), ZoneOf(visits, Exit), ZoneOf(visits, BlindSpot))
  }

  // ----- across the tracks -----

  datatype Across = Across(
    carried: Carried,
    dwell: real, dwellZone: Option<string>, dwellTrack: int,
    reentries: nat,
    exitZone: Option<string>, exitTrack: int,
    blindZone: Option<string>, blindTrack: int)

  const NOTHING := Across(Carried(None, 0, None, 0), 0.0, None, 0, 0, None, 0, None, 0)

  function PerSecond(fps: real): (r: real)
    ensures r > 0.0
  {
    if fps > 0.000001 then fps else 0.000001
  }

  /** How long a run of sightings lasts. */
  function Seconds(run: nat, fps: real): real {
    run as real / PerSecond(fps)
  }

  lemma SecondsGrow(m: nat, n: nat, fps: real)
    ensures m <= n ==> Seconds(m, fps) <= Seconds(n, fps)
    ensures Seconds(n, fps) >= 0.0 && (n > 0 <==> Seconds(n, fps) > 0.0)
  {
  }

  function ShelfFirst(s: Summary): Option<nat> {
    if Shelf in s.firstIdx && HighValue in s.firstIdx then
      Some(if s.firstIdx[Shelf] < s.firstIdx[HighValue] then s.firstIdx[Shelf] else s.firstIdx[HighValue])
    else if Shelf in s.firstIdx then Some(s.firstIdx[Shelf])
    else if HighValue in s.firstIdx then Some(s.firstIdx[HighValue])
    else None
  }

  /** The track reached an exit at or after its first shelf, and never a checkout. */
  predicate LeftUnpaid(s: Summary) {
    && Exit in s.firstIdx && Checkout !in s.visited
    && ShelfFirst(s).Some? && s.firstIdx[Exit] >= ShelfFirst(s).value
  }

  function AddTrack(a: Across, fps: real, tl: Timeline): Across {
    var s := SummaryOf(tl.visits);
    var c := CarryAll(a.carried, tl.track, tl.visits);
    var dwell := Seconds(s.bestRun, fps);
    var carried := if s.reentries > a.reentries then c.(reentryTrack := tl.track) else c;
    var longer := dwell > a.dwell;
    var leaves := LeftUnpaid(s) && a.exitZone.None?;
    var hides := BlindSpot in s.visited && a.blindZone.None?;
    Across(
      carried,
      if longer then dwell else a.dwell,
      if longer then s.bestZone else a.dwellZone,
      if longer then tl.track else a.dwellTrack,
      if s.reentries > a.reentries then s.reentries else a.reentries,
      if leaves then Or(s.exitZone, carried.reentryZone) else a.exitZone,
      if leaves then tl.track else a.exitTrack,
      if hides then s.blindZone else a.blindZone,
      if hides then tl.track else a.blindTrack)
  }

  function AcrossOf(fps: real, tracks: seq<Timeline>): Across {
    if tracks == [] then NOTHING
    else AddTrack(AcrossOf(fps, tracks[..|tracks| - 1]), fps, tracks[|tracks| - 1])
  }

  // ----- the loops -----

  lemma FlagsSnoc(visits: seq<Visit>)
    requires visits != []
    ensures HighValueFlags(visits)
      == HighValueFlags(visits[..|visits| - 1]) + [InHighValue(visits[|visits| - 1]).Some?]
    ensures ShelfFlags(visits) == ShelfFlags(visits[..|visits| - 1]) + [InShelf(visits[|visits| - 1])]
  {
  }

  /** `run`, `best_run` and `best_zone` after one more visit. */
  lemma StaySnoc(visits: seq<Visit>)
    requires visits != []
    ensures var rest, v := visits[..|visits| - 1], visits[|visits| - 1];
      var run := if InHighValue(v).Some? then TrailingRun(HighValueFlags(rest)) + 1 else 0;
      && TrailingRun(HighValueFlags(visits)) == run
      && LongestStay(visits) == (if run > LongestStay(rest) then run else LongestStay(rest))
      && LongestStayZone(visits) == (if run > LongestStay(rest) then InHighValue(v) else LongestStayZone(rest))
  {
    var rest := visits[..|visits| - 1];
    FlagsSnoc(visits);
    var flags := HighValueFlags(visits);
    assert flags[..|flags| - 1] == HighValueFlags(rest);
    LongestRunMeaning(HighValueFlags(rest), 0, 0);
  }

  lemma ReentriesSnoc(visits: seq<Visit>)
    requires visits != []
    ensures var rest, v := visits[..|visits| - 1], visits[|visits| - 1];
      var enters := InShelf(v) && (rest == [] || !InShelf(rest[|rest| - 1]));
      && RisesAt(ShelfFlags(visits), |visits| - 1) == enters
      && Reentries(visits) == Reentries(rest) + if enters then 1 else 0
  {
    FlagsSnoc(visits);
    RisingSnoc(ShelfFlags(visits[..|visits| - 1]), InShelf(visits[|visits| - 1]));
  }

  method AddTypes(visited0: set<ZoneType>, firstIdx0: map<ZoneType, nat>, types: set<ZoneType>, idx: nat)
    returns (visited: set<ZoneType>, firstIdx: map<ZoneType, nat>)
    ensures visited == visited0 + types
    ensures firstIdx == SetDefaults(firstIdx0, types, idx)
  {
    visited, firstIdx := visited0, firstIdx0;
    var todo := types;
    while todo != {}
      invariant todo <= types
      invariant visited == visited0 + (types - todo)
      invariant firstIdx == SetDefaults(firstIdx0, types - todo, idx)
    {
      var t :| t in todo;
      visited := visited + {t};
      if t !in firstIdx {
        firstIdx := firstIdx[t := idx];
      }
      todo := todo - {t};
    }
  }

  /** The variables of the inner loop. */
  datatype Walk = Walk(run: nat, prevIn: bool, s: Summary, c: Carried)

  function WalkOf(tl: Timeline, c: Carried): Walk {
    var n := |tl.visits|;
    Walk(TrailingRun(HighValueFlags(tl.visits)), n > 0 && InShelf(tl.visits[n - 1]),
         SummaryOf(tl.visits), CarryAll(c, tl.track, tl.visits))
  }

  /** One timeline: the inner loop. */
  method WalkTimeline(tl: Timeline, c0: Carried) returns (s: Summary, c: Carried)
    ensures s == SummaryOf(tl.visits)
    ensures c == CarryAll(c0, tl.track, tl.visits)
  {
    var visits := tl.visits;
    var w := Walk(0, false, Summary(0, None, 0, {}, map[], None, None), c0);
    for k := 0 to |visits|
      invariant w == WalkOf(tl.(visits := visits[..k]), c0)
    {
      ghost var upto := visits[..k + 1];
      assert upto[..k] == visits[..k] && upto[k] == visits[k];
      w := WalkVisit(w, tl.track, visits[k], upto, c0);
    }
    assert visits[..|visits|] == visits;
    s, c := w.s, w.c;
  }

  /** What a visit makes of the run and of the best run. */
  function NextStay(w: Walk, hv: Option<string>): Walk {
    if hv.None? then w.(run := 0)
    else if w.run + 1 > w.s.bestRun then w.(run := w.run + 1, s := w.s.(bestRun := w.run + 1, bestZone := hv))
    else w.(run := w.run + 1)
  }

  function NextTypes(s: Summary, v: Visit): Summary {
    var types := TypesOf(v.zones);
    s.(visited := s.visited + types, firstIdx := SetDefaults(s.firstIdx, types, v.idx),
       exitZone := if Exit in types then Or(s.exitZone, ByType(v.zones, Exit)) else s.exitZone,
       blindZone := if BlindSpot in types then Or(s.blindZone, ByType(v.zones, BlindSpot)) else s.blindZone)
  }

  function NextWalk(w: Walk, track: int, v: Visit): Walk {
    var enters := InShelf(v) && !w.prevIn;
    var stay := NextStay(w, InHighValue(v));
    Walk(stay.run, InShelf(v),
         NextTypes(stay.s.(reentries := if enters then w.s.reentries + 1 else w.s.reentries), v),
         Carry(w.c, track, v, enters))
  }

  lemma SummarySnoc(upto: seq<Visit>)
    requires upto != []
    ensures var rest, v := upto[..|upto| - 1], upto[|upto| - 1];
      var s, t := SummaryOf(rest), SummaryOf(upto);
      && NextTypes(s, v).(bestRun := t.bestRun, bestZone := t.bestZone, reentries := t.reentries) == t
  {
  }

  /** The declarative summary follows the loop. */
  lemma WalkSnoc(track: int, upto: seq<Visit>, c0: Carried)
    requires upto != []
    ensures WalkOf(Timeline(track, upto), c0)
      == NextWalk(WalkOf(Timeline(track, upto[..|upto| - 1]), c0), track, upto[|upto| - 1])
  {
    StaySnoc(upto);
    ReentriesSnoc(upto);
    SummarySnoc(upto);
  }

  method WalkVisit(w0: Walk, track: int, v: Visit, ghost upto: seq<Visit>, ghost c0: Carried)
    returns (w: Walk)
    requires upto != [] && upto[|upto| - 1] == v
    requires w0 == WalkOf(Timeline(track, upto[..|upto| - 1]), c0)
    ensures w == WalkOf(Timeline(track, upto), c0)
  {
    WalkSnoc(track, upto, c0);
    w := StepVisit(w0, track, v);
  }

  /** The body of the inner loop. */
  method StepVisit(w0: Walk, track: int, v: Visit) returns (w: Walk)
    ensures w == NextWalk(w0, track, v)
  {
    var s, c, run := w0.s, w0.c, 0;
    var hv := InHighValue(v);
    if hv.Some? {
      c := c.(highValueZone := Or(c.highValueZone, hv), highValueTrack := OrId(c.highValueTrack, track));
      run := w0.run + 1;
      if run > s.bestRun {
        s := s.(bestRun := run, bestZone := hv);
      }
    }
    var inShelf := InShelf(v);
    if inShelf && !w0.prevIn {
      s := s.(reentries := s.reentries + 1);
      if c.reentryZone.None? {
        c := c.(reentryZone := ShelfId(v), reentryTrack := track);
      }
    }
    s := WalkTypes(s, v);
    w := Walk(run, inShelf, s, c);
  }

  method WalkTypes(s0: Summary, v: Visit) returns (s: Summary)
    ensures s == NextTypes(s0, v)
  {
    var types := TypesOf(v.zones);
    var visited, firstIdx := AddTypes(s0.visited, s0.firstIdx, types, v.idx);
    s := s0.(visited := visited, firstIdx := firstIdx);
    if Exit in types {
      s := s.(exitZone := Or(s.exitZone, ByType(v.zones, Exit)));
    }
    if BlindSpot in types {
      s := s.(blindZone := Or(s.blindZone, ByType(v.zones, BlindSpot)));
    }
  }

  /** The outer loop over `per_track`. */
  method DeriveSignals(fps: real, tracks: seq<Timeline>) returns (a: Across)
    ensures a == AcrossOf(fps, tracks)
  {
    a := NOTHING;
    for k := 0 to |tracks|
      invariant a == AcrossOf(fps, tracks[..k])
    {
      assert tracks[..k + 1][..k] == tracks[..k];
      a := DeriveTrack(a, fps, tracks[k]);
    }
    assert tracks[..|tracks|] == tracks;
  }

  lemma KeysAreVisited(visits: seq<Visit>)
    ensures FirstIdx(visits).Keys == Visited(visits)
  {
    if visits != [] {
      KeysAreVisited(visits[..|visits| - 1]);
    }
  }

  lemma ShelfFirstExists(s: Summary)
    requires s.firstIdx.Keys == s.visited
    ensures ShelfFirst(s).Some? <==> s.visited * SHELF_LIKE != {}
    ensures Exit in s.firstIdx <==> Exit in s.visited
  {
    assert Shelf in s.visited <==> Shelf in s.visited * SHELF_LIKE;
    assert HighValue in s.visited <==> HighValue in s.visited * SHELF_LIKE;
    if t :| t in s.visited * SHELF_LIKE {
      assert t == Shelf || t == HighValue;
    }
  }

  method DeriveTrack(a0: Across, fps: real, tl: Timeline) returns (a: Across)
    ensures a == AddTrack(a0, fps, tl)
  {
    var s, c := WalkTimeline(tl, a0.carried);
    a := a0.(carried := c);
    var dwell := s.bestRun as real / PerSecond(fps);
    if dwell > a.dwell {
      a := a.(dwell := dwell, dwellZone := s.bestZone, dwellTrack := tl.track);
    }
    if s.reentries > a.reentries {
      a := a.(reentries := s.reentries, carried := a.carried.(reentryTrack := tl.track));
    }
    KeysAreVisited(tl.visits);
    ShelfFirstExists(s);
    var shelfVisited := s.visited * SHELF_LIKE != {};
    var shelfFirst := ShelfFirst(s);
    if shelfVisited && Exit in s.visited && Checkout !in s.visited {
      if shelfFirst.Some? && s.firstIdx[Exit] >= shelfFirst.value {
        if a.exitZone.None? {
          a := a.(exitZone := Or(s.exitZone, a.carried.reentryZone), exitTrack := tl.track);
        }
      }
    }
    if BlindSpot in s.visited && a.blindZone.None? {
      a := a.(blindZone := s.blindZone, blindTrack := tl.track);
    }
  }
}
