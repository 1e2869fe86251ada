/** A clip whose re-entry event names the zone of one person and the track of another
    (cloud-ai/app/events.py). */
module EventMixup {
  import opened Wrappers
  import opened Detections
  import opened Polygons
  import opened Zones
  import opened Streaks
  import opened EventTypes
  import opened EventCues
  import opened EventTimelines
  import opened EventExtraction
  import opened EventMeaning
  import opened EventTheorems
  import opened EventReentry
  import opened EventReports

  // ----- timelines, frame by frame -----

  lemma PersonTracks(before: seq<Step>, v: View)
    requires v.cue == Person
    ensures Fold(before + [See(v)]).cues.tracks == Append(Fold(before).cues.tracks, v.track, Visit(v.idx, v.zones))
  {
    FoldSnoc(before, See(v));
    StepTracks(Fold(before), See(v));
  }

  lemma FrameEndTracks(before: seq<Step>)
    ensures Fold(before + [EndOfFrame]).cues.tracks == Fold(before).cues.tracks
  {
    FoldSnoc(before, EndOfFrame);
    StepTracks(Fold(before), EndOfFrame);
  }

  lemma {:induction false} FrameTracks(before: seq<Step>, steps: seq<Step>, idx: nat, dets: Frame, zones: seq<Zone>)
    requires AreViews(steps, idx, dets, zones) && forall k :: 0 <= k < |dets| ==> dets[k].cue == Person
    ensures Fold(before + steps).cues.tracks == Seen(Fold(before).cues.tracks, idx, dets[..|steps|], zones)
  {
    if steps == [] {
      assert before + steps == before;
    } else {
      var n := |steps| - 1;
      FrameTracks(before, steps[..n], idx, dets, zones);
      JoinNext(before, steps);
      PersonTracks(before + steps[..n], steps[n].view);
      assert dets[..n + 1][..n] == dets[..n];
    }
  }

  /** The timelines after these persons were seen in a frame. */
  ghost function Seen(tracks: seq<Timeline>, idx: nat, persons: Frame, zones: seq<Zone>): seq<Timeline> {
    if persons == [] then tracks
    else
      var d := persons[|persons| - 1];
      Append(Seen(tracks, idx, persons[..|persons| - 1], zones), d.trackId, Visit(idx, Containing(d.at, zones)))
  }

  lemma ClipTracks(frames: seq<Frame>, dets: Frame, zones: seq<Zone>)
    requires forall k :: 0 <= k < |dets| ==> dets[k].cue == Person
    ensures CuesOf(frames + [dets], zones).tracks == Seen(CuesOf(frames, zones).tracks, |frames|, dets, zones)
  {
    var before, steps := StepsOf(frames, zones), FrameSteps(|frames|, dets, zones, |dets|);
    StepsNext(frames, dets, zones);
    FrameStepsAreViews(|frames|, dets, zones, |dets|);
    FrameTracks(before, steps, |frames|, dets, zones);
    FrameEndTracks(before + steps);
    assert dets[..|dets|] == dets;
  }

  // ----- the clip -----

  const LEFT := Zone(Some("a"), Shelf, Rectangle(0.0, 0.0, 0.5, 1.0))
  const RIGHT := Zone(Some("b"), Shelf, Rectangle(0.5, 0.0, 0.9, 1.0))
  const SHELVES: seq<Zone> := [LEFT, RIGHT]

  function At(id: int, x: real): Detection {
    Detection(Person, id, Point(x, 0.5), 0.9, [])
  }

  /** Person 1 stands at the left shelf once; person 2 enters the right one, leaves it and enters
      it again. */
  const TWICE: seq<Frame> := [[At(1, 0.25), At(2, 0.7)], [At(2, 0.95)], [At(2, 0.7)]]

  const ONCE_LEFT := Timeline(1, [Visit(0, [LEFT])])
  const TWICE_RIGHT := Timeline(2, [Visit(0, [RIGHT]), Visit(1, []), Visit(2, [RIGHT])])

  lemma WhereTheyAre()
    ensures Containing(Point(0.25, 0.5), SHELVES) == [LEFT]
    ensures Containing(Point(0.7, 0.5), SHELVES) == [RIGHT]
    ensures Containing(Point(0.95, 0.5), SHELVES) == []
  {
    WhichContain(Point(0.25, 0.5));
    WhichContain(Point(0.7, 0.5));
    WhichContain(Point(0.95, 0.5));
  }

  lemma WhichContain(p: Point)
    requires 0.0 <= p.y < 1.0
    ensures Containing(p, SHELVES)
      == (if 0.0 <= p.x < 0.5 then [LEFT] else []) + if 0.5 <= p.x < 0.9 then [RIGHT] else []
  {
    RectangleExactly(p, 0.0, 0.0, 0.5, 1.0);
    RectangleExactly(p, 0.5, 0.0, 0.9, 1.0);
    assert SHELVES[..1] == [LEFT] && SHELVES[..1][..0] == [];
    assert Containing(p, [LEFT]) == if 0.0 <= p.x < 0.5 then [LEFT] else [];
  }

  lemma FirstFrameTracks()
    ensures CuesOf([TWICE[0]], SHELVES).tracks == [ONCE_LEFT, Timeline(2, [Visit(0, [RIGHT])])]
  {
    WhereTheyAre();
    ClipTracks([], TWICE[0], SHELVES);
    assert [] + [TWICE[0]] == [TWICE[0]];
    assert CuesOf([], SHELVES).tracks == [];
    assert TWICE[0][..1] == [At(1, 0.25)] && TWICE[0][..1][..0] == [];
    assert Seen([], 0, [At(1, 0.25)], SHELVES) == [ONCE_LEFT];
    AppendMeaning([ONCE_LEFT], 2, Visit(0, [RIGHT]));
  }

  lemma NextFrameTracks(frames: seq<Frame>, x: real, visits: seq<Visit>, v: Visit)
    requires CuesOf(frames, SHELVES).tracks == [ONCE_LEFT, Timeline(2, visits)]
    requires v == Visit(|frames|, Containing(Point(x, 0.5), SHELVES))
    ensures CuesOf(frames + [[At(2, x)]], SHELVES).tracks == [ONCE_LEFT, Timeline(2, visits + [v])]
  {
    var tracks := [ONCE_LEFT, Timeline(2, visits)];
    ClipTracks(frames, [At(2, x)], SHELVES);
    assert [At(2, x)][..0] == [];
    AppendMeaning(tracks, 2, v);
    assert tracks[1..] == [Timeline(2, visits)];
  }

  lemma SecondFrameTracks()
    ensures CuesOf([TWICE[0], TWICE[1]], SHELVES).tracks == [ONCE_LEFT, Timeline(2, [Visit(0, [RIGHT]), Visit(1, [])])]
  {
    WhereTheyAre();
    FirstFrameTracks();
    NextFrameTracks([TWICE[0]], 0.95, [Visit(0, [RIGHT])], Visit(1, []));
    assert [TWICE[0]] + [TWICE[1]] == [TWICE[0], TWICE[1]];
    assert [Visit(0, [RIGHT])] + [Visit(1, [])] == [Visit(0, [RIGHT]), Visit(1, [])];
  }

  lemma TwiceTracks()
    ensures CuesOf(TWICE, SHELVES).tracks == [ONCE_LEFT, TWICE_RIGHT]
  {
    WhereTheyAre();
    SecondFrameTracks();
    NextFrameTracks([TWICE[0], TWICE[1]], 0.7, [Visit(0, [RIGHT]), Visit(1, [])], Visit(2, [RIGHT]));
    assert [TWICE[0], TWICE[1]] + [TWICE[2]] == TWICE;
    assert [Visit(0, [RIGHT]), Visit(1, [])] + [Visit(2, [RIGHT])] == TWICE_RIGHT.visits;
  }

  // ----- what is reported -----

  lemma ShelvesAre()
    ensures InShelf(Visit(0, [LEFT])) && InShelf(Visit(0, [RIGHT])) && InShelf(Visit(2, [RIGHT]))
      && !InShelf(Visit(1, []))
    ensures ShelfId(Visit(0, [LEFT])) == Some("a")
  {
    assert [LEFT][0].zoneType in TypesOf([LEFT]) && [RIGHT][0].zoneType in TypesOf([RIGHT]);
    assert Shelf in TypesOf([LEFT]) * SHELF_LIKE && Shelf in TypesOf([RIGHT]) * SHELF_LIKE;
    assert [LEFT][..0] == [] && ByType([], HighValue) == None;
    assert ByType([LEFT], HighValue) == None && ByType([LEFT], Shelf) == Some("a");
  }

  lemma OnceEntersOnce()
    ensures Reentries(ONCE_LEFT.visits) == 1 && NamedEntry(ONCE_LEFT.visits) == Some("a")
  {
    ShelvesAre();
    var one: set<nat> := {0};
    assert RisesAt(ShelfFlags(ONCE_LEFT.visits), 0);
    assert Rising(ShelfFlags(ONCE_LEFT.visits)) == one;
    assert ONCE_LEFT.visits[..0] == [];
  }

  lemma TwiceEntersTwice()
    ensures Reentries(TWICE_RIGHT.visits) == 2
  {
    ShelvesAre();
    var flags, two: set<nat> := ShelfFlags(TWICE_RIGHT.visits), {0, 2};
    assert flags == [true, false, true];
    forall k: nat ensures k in Rising(flags) <==> k in two {
    }
    assert Rising(flags) == two;
  }

  lemma MixedUp(fps: real)
    ensures var c := AcrossOf(fps, [ONCE_LEFT, TWICE_RIGHT]).carried;
      c.reentryZone == Some("a") && c.reentryTrack == 2 && AcrossOf(fps, [ONCE_LEFT, TWICE_RIGHT]).reentries == 2
  {
    OnceEntersOnce();
    TwiceEntersTwice();
    AcrossSnoc(fps, [], ONCE_LEFT);
    AcrossSnoc(fps, [ONCE_LEFT], TWICE_RIGHT);
    assert [] + [ONCE_LEFT] == [ONCE_LEFT] && [ONCE_LEFT] + [TWICE_RIGHT] == [ONCE_LEFT, TWICE_RIGHT];
    AddTrackReentry(AcrossOf(fps, []), fps, ONCE_LEFT);
    AddTrackReentry(AcrossOf(fps, [ONCE_LEFT]), fps, TWICE_RIGHT);
  }

  lemma NobodyHandles()
    ensures !SomethingHandled(TWICE, SHELVES)
  {
    forall i, k: nat | 0 <= i < |TWICE| && k < |TWICE[i]| ensures TWICE[i][k].cue == Person {
    }
    forall i | 0 <= i < |TWICE| ensures !HandledIn(TWICE[i], SHELVES) {
      assert AtShelfUpTo(TWICE[i], SHELVES, ProductInHand, |TWICE[i]|) == {};
    }
  }

  lemma TwiceReport(c: Cues, a: Across)
    requires c.handling.episodes == 0 && c.tracks == [ONCE_LEFT, TWICE_RIGHT]
    requires exists fps :: a == AcrossOf(fps, c.tracks)
    ensures var e := Evidence(c, a, RepeatedHandling); e.Some? && e.value.zoneId == Some("a") && e.value.trackId == 2
  {
    var fps :| a == AcrossOf(fps, c.tracks);
    MixedUp(fps);
    ReentryEvidence(c, a);
  }

  /** The event says that person 2 re-entered the left shelf... */
  lemma ReentryMixesPersonsUp(fps: real)
    ensures var e := Evidence(CuesOf(TWICE, SHELVES), SignalsOf(fps, TWICE, SHELVES), RepeatedHandling);
      e.Some? && e.value.zoneId == Some("a") && e.value.trackId == 2
  {
    TwiceTracks();
    NobodyHandles();
    HandlingIsOneSignal(TWICE, SHELVES);
    TwiceReport(CuesOf(TWICE, SHELVES), SignalsOf(fps, TWICE, SHELVES));
  }

  /** ... where that person never was. */
  lemma NeverAtTheLeftShelf()
    ensures var visits := VisitsIn(TWICE, SHELVES, 2);
      |visits| == 3 && forall k :: 0 <= k < |visits| ==> LEFT !in visits[k].zones
  {
    TwiceTracks();
    TimelineMeaning(StepsOf(TWICE, SHELVES));
    TimelineIs(StepsOf(TWICE, SHELVES), CuesOf(TWICE, SHELVES).tracks, 1);
  }
}
