/** Where a re-entry is said to have happened, and who is said to have done it
    (cloud-ai/app/events.py): the two come from different places. */
module EventReentry {
  import opened Wrappers
  import opened Streaks
  import opened EventCues
  import opened EventTimelines
  import opened EventMeaning
  import opened EventTheorems

  // ----- inside a timeline -----

  /** The first id of a shelf at which the track enters. */
  function NamedEntry(visits: seq<Visit>): Option<string> {
    if visits == [] then None
    else
      var n := |visits| - 1;
      var before := NamedEntry(visits[..n]);
      if before.None? && RisesAt(ShelfFlags(visits), n) then ShelfId(visits[n]) else before
  }

  ghost predicate EntersNamedAt(visits: seq<Visit>, k: nat) {
    k < |visits| && RisesAt(ShelfFlags(visits), k) && ShelfId(visits[k]).Some?
  }

  ghost predicate EntersNamed(visits: seq<Visit>) {
    exists k: nat :: EntersNamedAt(visits, k)
  }

  lemma EntersNamedSnoc(rest: seq<Visit>, v: Visit, k: nat)
    ensures k < |rest| ==> (EntersNamedAt(rest + [v], k) <==> EntersNamedAt(rest, k))
  {
    var all := rest + [v];
    FlagsSnoc(all);
    assert all[..|rest|] == rest;
    assert ShelfFlags(all) == ShelfFlags(rest) + [InShelf(v)];
  }

  lemma {:induction false} NamedEntryMeaning(visits: seq<Visit>)
    ensures NamedEntry(visits).Some? <==> EntersNamed(visits)
  {
    if visits != [] {
      var rest, v := visits[..|visits| - 1], visits[|visits| - 1];
      assert visits == rest + [v];
      NamedEntryMeaning(rest);
      forall k: nat | k < |rest| ensures EntersNamedAt(visits, k) <==> EntersNamedAt(rest, k) {
        EntersNamedSnoc(rest, v, k);
      }
      assert EntersNamed(visits) <==> EntersNamed(rest) || EntersNamedAt(visits, |rest|);
    }
  }

  lemma EntryIsReentry(visits: seq<Visit>)
    requires EntersNamed(visits)
    ensures Reentries(visits) > 0
  {
    var k: nat :| EntersNamedAt(visits, k);
    assert k in Rising(ShelfFlags(visits));
  }

  /** What a timeline does to the two variables: the zone stays once it is known; the track is
      the current one whenever it enters a shelf while no zone is known. */
  lemma {:induction false} CarriedReentry(c: Carried, track: int, visits: seq<Visit>)
    ensures var d := CarryAll(c, track, visits);
      && d.reentryZone == (if c.reentryZone.Some? then c.reentryZone else NamedEntry(visits))
      && d.reentryTrack == if c.reentryZone.None? && Reentries(visits) > 0 then track else c.reentryTrack
  {
    if visits == [] {
      NoStayWithoutVisits(visits);
    } else {
      var rest := visits[..|visits| - 1];
      CarriedReentry(c, track, rest);
      ReentriesSnoc(visits);
      if NamedEntry(rest).Some? {
        NamedEntryMeaning(rest);
        EntryIsReentry(rest);
      }
    }
  }

  // ----- across the tracks -----

  lemma AddTrackReentry(a: Across, fps: real, tl: Timeline)
    ensures var b, r := AddTrack(a, fps, tl), Reentries(tl.visits);
      && b.reentries == (if r > a.reentries then r else a.reentries)
      && b.carried.reentryZone == (if a.carried.reentryZone.Some? then a.carried.reentryZone else NamedEntry(tl.visits))
      && b.carried.reentryTrack
         == if r > a.reentries || (a.carried.reentryZone.None? && r > 0) then tl.track else a.carried.reentryTrack
  {
    CarriedReentry(a.carried, tl.track, tl.visits);
  }

  lemma AcrossSnoc(fps: real, rest: seq<Timeline>, tl: Timeline)
    ensures AcrossOf(fps, rest + [tl]) == AddTrack(AcrossOf(fps, rest), fps, tl)
  {
    assert (rest + [tl])[..|rest|] == rest;
  }

  /** Some track entered a shelf that has an id. */
  ghost predicate SomeoneEntersNamed(tracks: seq<Timeline>) {
    exists j :: 0 <= j < |tracks| && EntersNamed(tracks[j].visits)
  }

  predicate KnowsZone(a: Across) {
    a.carried.reentryZone.Some?
  }

  lemma KnowsZoneNext(fps: real, tracks: seq<Timeline>)
    requires tracks != []
    ensures var n := |tracks| - 1;
      KnowsZone(AcrossOf(fps, tracks)) <==> KnowsZone(AcrossOf(fps, tracks[..n])) || EntersNamed(tracks[n].visits)
  {
    var n := |tracks| - 1;
    AddTrackReentry(AcrossOf(fps, tracks[..n]), fps, tracks[n]);
    NamedEntryMeaning(tracks[n].visits);
  }

  lemma SomeoneEntersNext(tracks: seq<Timeline>)
    requires tracks != []
    ensures var n := |tracks| - 1;
      SomeoneEntersNamed(tracks) <==> SomeoneEntersNamed(tracks[..n]) || EntersNamed(tracks[n].visits)
  {
    var n := |tracks| - 1;
    if j :| 0 <= j < n && EntersNamed(tracks[..n][j].visits) {
      assert EntersNamed(tracks[j].visits);
    }
  }

  lemma {:induction false} ReentryZoneKnown(fps: real, tracks: seq<Timeline>)
    ensures KnowsZone(AcrossOf(fps, tracks)) <==> SomeoneEntersNamed(tracks)
  {
    if tracks != [] {
      ReentryZoneKnown(fps, tracks[..|tracks| - 1]);
      KnowsZoneNext(fps, tracks);
      SomeoneEntersNext(tracks);
    }
  }

  // ----- whose zone, whose re-entries -----

  /** The track whose entry gave the zone: the first to enter a shelf with an id. */
  ghost predicate GivesZone(tracks: seq<Timeline>, f: nat) {
    && f < |tracks| && EntersNamed(tracks[f].visits)
    && forall j :: 0 <= j < f ==> !EntersNamed(tracks[j].visits)
  }

  /** Nobody after track f re-enters more often than everybody up to it. */
  ghost predicate NobodyLaterExceeds(tracks: seq<Timeline>, f: nat) {
    forall k: nat :: f < k < |tracks| ==> ExceedsBy(tracks, f, k)
  }

  ghost predicate ExceedsBy(tracks: seq<Timeline>, f: nat, k: nat)
    requires k < |tracks|
  {
    exists j :: 0 <= j <= f && j < |tracks| && Reentries(tracks[k].visits) <= Reentries(tracks[j].visits)
  }

  /** The greatest re-entry count of the tracks so far. */
  ghost predicate IsMost(tracks: seq<Timeline>, n: nat) {
    && (forall i :: 0 <= i < |tracks| ==> Reentries(tracks[i].visits) <= n)
    && (n == 0 || exists i :: 0 <= i < |tracks| && Reentries(tracks[i].visits) == n)
  }

  lemma AcrossMost(fps: real, tracks: seq<Timeline>)
    ensures IsMost(tracks, AcrossOf(fps, tracks).reentries)
  {
    AcrossIsMaximal(fps, tracks);
  }

  /** Up to track f itself: its zone, its id. */
  lemma ZoneGiven(fps: real, tracks: seq<Timeline>, f: nat)
    requires GivesZone(tracks, f) && |tracks| == f + 1
    ensures var a := AcrossOf(fps, tracks);
      && a.carried.reentryZone == NamedEntry(tracks[f].visits) && a.carried.reentryZone.Some?
      && a.carried.reentryTrack == tracks[f].track
  {
    var rest, tl := tracks[..f], tracks[f];
    assert tracks == rest + [tl];
    ReentryZoneKnown(fps, rest);
    AcrossSnoc(fps, rest, tl);
    AddTrackReentry(AcrossOf(fps, rest), fps, tl);
    NamedEntryMeaning(tl.visits);
    EntryIsReentry(tl.visits);
  }

  /** The reported zone is that of the first track to enter a named shelf. The reported track is
      the same one exactly when no later track re-enters more often than everybody up to it. */
  lemma {:induction false} ZoneAndTrackAgreeExactly(fps: real, tracks: seq<Timeline>, f: nat)
    requires GivesZone(tracks, f) && Distinguished(tracks)
    ensures var c := AcrossOf(fps, tracks).carried;
      && c.reentryZone == NamedEntry(tracks[f].visits) && c.reentryZone.Some?
      && (c.reentryTrack == tracks[f].track <==> NobodyLaterExceeds(tracks, f))
  {
    if |tracks| == f + 1 {
      ZoneGiven(fps, tracks, f);
    } else {
      var rest, tl := tracks[..|tracks| - 1], tracks[|tracks| - 1];
      assert tracks == rest + [tl];
      ZoneAndTrackAgreeExactly(fps, rest, f);
      AcrossSnoc(fps, rest, tl);
      AddTrackReentry(AcrossOf(fps, rest), fps, tl);
      AcrossMost(fps, rest);
      LaterTrack(rest, tl, f, AcrossOf(fps, rest).reentries);
    }
  }

  /** One more track: it takes over exactly when it exceeds all before it, and then it exceeds
      those up to f. */
  lemma LaterTrack(rest: seq<Timeline>, tl: Timeline, f: nat, most: nat)
    requires f < |rest| && IsMost(rest, most)
    ensures var all := rest + [tl];
      NobodyLaterExceeds(all, f) <==> NobodyLaterExceeds(rest, f) && Reentries(tl.visits) <= most
  {
    var all := rest + [tl];
    assert all[|rest|] == tl && forall i :: 0 <= i < |rest| ==> all[i] == rest[i];
    forall k: nat | f < k < |rest| ensures ExceedsBy(all, f, k) <==> ExceedsBy(rest, f, k) {
    }
    if NobodyLaterExceeds(all, f) {
      assert ExceedsBy(all, f, |rest|);
      forall k: nat | f < k < |rest| ensures ExceedsBy(rest, f, k) {
        assert ExceedsBy(all, f, k);
      }
    }
    if NobodyLaterExceeds(rest, f) && Reentries(tl.visits) <= most {
      var j := MostUpTo(rest, f, most);
      assert Reentries(all[|rest|].visits) <= Reentries(all[j].visits);
      assert ExceedsBy(all, f, |rest|);
    }
  }

  lemma MostUpTo(tracks: seq<Timeline>, f: nat, most: nat) returns (j: nat)
    requires f < |tracks| && IsMost(tracks, most) && NobodyLaterExceeds(tracks, f)
    ensures j <= f && Reentries(tracks[j].visits) >= most
  {
    if most == 0 {
      return 0;
    }
    var i: nat :| i < |tracks| && Reentries(tracks[i].visits) == most;
    if i <= f {
      return i;
    }
    assert ExceedsBy(tracks, f, i);
    j :| 0 <= j <= f && Reentries(tracks[i].visits) <= Reentries(tracks[j].visits);
  }
}
