/** Which sighting gives an event its zone and its track (cloud-ai/app/events.py): the first
    one that has something to give. */
module EventSources {
  import opened Wrappers
  import opened Detections
  import opened EventCues
  import opened EventMeaning

  // ----- chains of Python's `or` -----

  function OrAll(ids: seq<Option<string>>): Option<string> {
    if ids == [] then None else Or(OrAll(ids[..|ids| - 1]), ids[|ids| - 1])
  }

  function OrIdAll(ids: seq<int>): int {
    if ids == [] then 0 else OrId(OrIdAll(ids[..|ids| - 1]), ids[|ids| - 1])
  }

  ghost predicate FirstTruthy(ids: seq<Option<string>>, k: nat) {
    k < |ids| && Truthy(ids[k]) && forall j :: 0 <= j < k ==> !Truthy(ids[j])
  }

  ghost predicate FirstNonZero(ids: seq<int>, k: nat) {
    k < |ids| && ids[k] != 0 && forall j :: 0 <= j < k ==> ids[j] == 0
  }

  /** The first real id wins; without one, the last value is left. */
  lemma {:induction false} OrAllMeaning(ids: seq<Option<string>>, k: nat)
    ensures FirstTruthy(ids, k) ==> OrAll(ids) == ids[k]
    ensures (forall j :: 0 <= j < |ids| ==> !Truthy(ids[j])) ==>
      !Truthy(OrAll(ids)) && OrAll(ids) == if ids == [] then None else ids[|ids| - 1]
  {
    if ids != [] {
      var rest := ids[..|ids| - 1];
      OrAllMeaning(rest, k);
      assert FirstTruthy(ids, k) && k < |rest| ==> FirstTruthy(rest, k);
    }
  }

  lemma {:induction false} OrIdAllMeaning(ids: seq<int>, k: nat)
    ensures FirstNonZero(ids, k) ==> OrIdAll(ids) == ids[k]
    ensures (forall j :: 0 <= j < |ids| ==> ids[j] == 0) ==> OrIdAll(ids) == 0
  {
    if ids != [] {
      var rest := ids[..|ids| - 1];
      OrIdAllMeaning(rest, k);
      assert FirstNonZero(ids, k) && k < |rest| ==> FirstNonZero(rest, k);
    }
  }

  // ----- the candidates, in the order of sighting -----

  /** The first shelf around each sighting of the cue at a shelf. */
  function ShelfIds(steps: seq<Step>, cue: Cue): seq<Option<string>> {
    if steps == [] then []
    else ShelfIds(steps[..|steps| - 1], cue) + ShelfIdOf(steps[|steps| - 1], cue)
  }

  function ShelfIdOf(step: Step, cue: Cue): seq<Option<string>> {
    if step.See? && step.view.cue == cue && AtShelf(step.view) then [ShelfZones(step.view.zones)[0].id] else []
  }

  /** The nearest person of each sighting of the cue, everywhere or at a shelf only. */
  function NearIds(steps: seq<Step>, cue: Cue, shelfOnly: bool): seq<int> {
    if steps == [] then []
    else NearIds(steps[..|steps| - 1], cue, shelfOnly) + NearIdOf(steps[|steps| - 1], cue, shelfOnly)
  }

  function NearIdOf(step: Step, cue: Cue, shelfOnly: bool): seq<int> {
    if step.See? && step.view.cue == cue && (shelfOnly ==> AtShelf(step.view)) then [step.view.near] else []
  }

  /** The high-value zone and the track of each person sighting inside one. */
  function HighValueIds(steps: seq<Step>): seq<Option<string>> {
    if steps == [] then []
    else HighValueIds(steps[..|steps| - 1]) + HighValueIdOf(steps[|steps| - 1])
  }

  function HighValueIdOf(step: Step): seq<Option<string>> {
    if EntersHighValue(step) then [HighValueZone(step.view.zones).value.id] else []
  }

  predicate EntersHighValue(step: Step) {
    step.See? && step.view.cue == Person && InHighValueZone(step.view)
  }

  function HighValueTracks(steps: seq<Step>): seq<int> {
    if steps == [] then []
    else HighValueTracks(steps[..|steps| - 1])
         + if EntersHighValue(steps[|steps| - 1]) then [steps[|steps| - 1].view.track] else []
  }

  // ----- the accumulators -----

  lemma OrAllJoin(ids: seq<Option<string>>, more: seq<Option<string>>)
    requires |more| <= 1
    ensures OrAll(ids + more) == if more == [] then OrAll(ids) else Or(OrAll(ids), more[0])
  {
    if more == [] {
      assert ids + more == ids;
    } else {
      assert (ids + more)[..|ids|] == ids;
    }
  }

  lemma OrIdAllJoin(ids: seq<int>, more: seq<int>)
    requires |more| <= 1
    ensures OrIdAll(ids + more) == if more == [] then OrIdAll(ids) else OrId(OrIdAll(ids), more[0])
  {
    if more == [] {
      assert ids + more == ids;
    } else {
      assert (ids + more)[..|ids|] == ids;
    }
  }

  lemma StepHandling(s: Scan, step: Step)
    ensures var h, g := s.cues.handling, Advance(s, step).cues.handling;
      var ids, near := ShelfIdOf(step, ProductInHand), NearIdOf(step, ProductInHand, true);
      && g.zone == (if ids == [] then h.zone else Or(h.zone, ids[0]))
      && g.track == (if near == [] then h.track else OrId(h.track, near[0]))
  {
  }

  /** Handling is reported at the first shelf with an id, under the first person near enough. */
  lemma {:induction false} HandlingSource(steps: seq<Step>)
    ensures var h := Fold(steps).cues.handling;
      && h.zone == OrAll(ShelfIds(steps, ProductInHand))
      && h.track == OrIdAll(NearIds(steps, ProductInHand, true))
  {
    if steps != [] {
      var rest, step := steps[..|steps| - 1], steps[|steps| - 1];
      HandlingSource(rest);
      StepHandling(Fold(rest), step);
      OrAllJoin(ShelfIds(rest, ProductInHand), ShelfIdOf(step, ProductInHand));
      OrIdAllJoin(NearIds(rest, ProductInHand, true), NearIdOf(step, ProductInHand, true));
    }
  }

  lemma StepConceal(s: Scan, step: Step)
    ensures var h, g := s.cues.conceal, Advance(s, step).cues.conceal;
      var ids, near := ShelfIdOf(step, Hiding), NearIdOf(step, Hiding, false);
      && g.zone == (if ids == [] then h.zone else Or(h.zone, ids[0]))
      && g.track == (if near == [] then h.track else OrId(h.track, near[0]))
  {
  }

  /** Direct concealment likewise, but its person may be named away from any shelf. */
  lemma {:induction false} ConcealSource(steps: seq<Step>)
    ensures var k := Fold(steps).cues.conceal;
      && k.zone == OrAll(ShelfIds(steps, Hiding))
      && k.track == OrIdAll(NearIds(steps, Hiding, false))
  {
    if steps != [] {
      var rest, step := steps[..|steps| - 1], steps[|steps| - 1];
      ConcealSource(rest);
      StepConceal(Fold(rest), step);
      OrAllJoin(ShelfIds(rest, Hiding), ShelfIdOf(step, Hiding));
      OrIdAllJoin(NearIds(rest, Hiding, false), NearIdOf(step, Hiding, false));
    }
  }

  lemma StepHighValue(s: Scan, step: Step)
    ensures var h, g := s.cues.highValue, Advance(s, step).cues.highValue;
      && g.zone == (if EntersHighValue(step) then Or(h.zone, HighValueIdOf(step)[0]) else h.zone)
      && g.track == (if EntersHighValue(step) then OrId(h.track, step.view.track) else h.track)
  {
  }

  /** High-value activity is reported for the first person seen in a high-value zone. */
  lemma {:induction false} HighValueSource(steps: seq<Step>)
    ensures var h := Fold(steps).cues.highValue;
      h.zone == OrAll(HighValueIds(steps)) && h.track == OrIdAll(HighValueTracks(steps))
  {
    if steps != [] {
      var rest, step := steps[..|steps| - 1], steps[|steps| - 1];
      HighValueSource(rest);
      StepHighValue(Fold(rest), step);
      OrAllJoin(HighValueIds(rest), HighValueIdOf(step));
      OrIdAllJoin(HighValueTracks(rest), if EntersHighValue(step) then [step.view.track] else []);
    }
  }

  // ----- what counts as an id -----

  /** Neither nothing nor the empty text is an id; a track id other than 0 is. */
  lemma OrExactly(a: Option<string>, b: Option<string>, i: int, j: int)
    ensures a == None || a == Some("") ==> Or(a, b) == b
    ensures a != None && a != Some("") ==> Or(a, b) == a
    ensures i == 0 ==> OrId(i, j) == j
    ensures i != 0 ==> OrId(i, j) == i
  {
  }
}
