/** The connector's side of camera provisioning (connector/app/provisioning.py): create calls
    that may be lost, checkpoints, crashes that fall back to the last checkpoint, and cameras
    made on the dashboard meanwhile. */
module Provisioning {
  import opened Wrappers
  import opened SetupTables

  /** A configured source with its stable key; `cameraId` is filled in by the backend. */
  datatype Source = Source(key: string, details: Details, cameraId: Option<nat>)

  /** `memory` is what the running process holds, `disk` the last checkpoint. */
  datatype World = World(t: Tables, memory: seq<Source>, disk: seq<Source>)

  /** A create call reaches the backend, and its answer may get lost; one that does not reach it
      changes nothing. */
  datatype Action = Create(answered: bool) | Save | Crash | Dashboard(store: nat, details: Details)

  /** The next source to create: the first without an id. */
  function NextSource(memory: seq<Source>): nat {
    if memory == [] || memory[0].cameraId.None? then 0 else 1 + NextSource(memory[1..])
  }

  lemma {:induction false} NextSourceIs(memory: seq<Source>, m: nat)
    requires m <= |memory|
    requires forall i :: 0 <= i < m ==> memory[i].cameraId.Some?
    requires m < |memory| ==> memory[m].cameraId.None?
    ensures NextSource(memory) == m
  {
    if m > 0 {
      NextSourceIs(memory[1..], m - 1);
    }
  }

  ghost function Dashed(t: Tables, store: nat, details: Details): Tables {
    if store in t.stores then DashboardCamera(t, store, details) else t
  }

  ghost function Next(w: World, me: nat, a: Action): World {
    match a
    case Save => w.(disk := w.memory)
    case Crash => w.(memory := w.disk)
    case Dashboard(store, details) => w.(t := Dashed(w.t, store, details))
    case Create(answered) =>
      var i := NextSource(w.memory);
      if i >= |w.memory| || me !in w.t.connectors then w
      else
        var s := w.memory[i];
        World(Upserted(w.t, me, s.key, s.details),
              if answered then w.memory[i := s.(cameraId := Some(CameraOf(w.t, me, s.key)))] else w.memory,
              w.disk)
  }

  ghost function Run(w: World, me: nat, actions: seq<Action>): World
    decreases |actions|
  {
    if actions == [] then w else Run(Next(w, me, actions[0]), me, actions[1..])
  }

  // ----- a run without incidents -----

  /** What reaches the backend: a source, or a camera from the dashboard. */
  datatype Request = Provide(source: Source) | Meanwhile(store: nat, details: Details)

  ghost function Handled(t: Tables, me: nat, r: Request): Tables
    requires me in t.connectors
  {
    match r
    case Provide(s) => Upserted(t, me, s.key, s.details)
    case Meanwhile(store, details) => Dashed(t, store, details)
  }

  ghost function Served(t: Tables, me: nat, script: seq<Request>): (u: Tables)
    requires me in t.connectors
    ensures u.connectors == t.connectors
  {
    if script == [] then t else Handled(Served(t, me, script[..|script| - 1]), me, script[|script| - 1])
  }

  function SourceOf(r: Request): seq<Source> {
    if r.Provide? then [r.source] else []
  }

  function DashboardOf(a: Action): seq<Request> {
    if a.Dashboard? then [Meanwhile(a.store, a.details)] else []
  }

  function Provided(script: seq<Request>): seq<Source> {
    if script == [] then []
    else Provided(script[..|script| - 1]) + SourceOf(script[|script| - 1])
  }

  function Meanwhiles(script: seq<Request>): seq<Request> {
    if script == [] then []
    else Meanwhiles(script[..|script| - 1]) + if script[|script| - 1].Meanwhile? then [script[|script| - 1]] else []
  }

  function DashboardsIn(actions: seq<Action>): seq<Request> {
    if actions == [] then []
    else DashboardOf(actions[0]) + DashboardsIn(actions[1..])
  }

  /** The sources still without an id, in order. */
  function Todo(sources: seq<Source>): seq<Source> {
    if sources == [] then []
    else (if sources[0].cameraId.None? then [sources[0]] else []) + Todo(sources[1..])
  }

  /** Where the m-th of them stands. */
  function Place(sources: seq<Source>, m: nat): nat {
    if sources == [] then 0
    else if sources[0].cameraId.Some? then 1 + Place(sources[1..], m)
    else if m == 0 then 0
    else 1 + Place(sources[1..], m - 1)
  }

  lemma {:induction false} PlaceMeaning(sources: seq<Source>, m: nat)
    requires m <= |Todo(sources)|
    ensures m < |Todo(sources)| ==> Place(sources, m) < |sources|
    ensures m < |Todo(sources)| ==> sources[Place(sources, m)] == Todo(sources)[m] && Todo(sources)[m].cameraId.None?
    ensures m == |Todo(sources)| ==> Place(sources, m) == |sources|
  {
    if sources != [] {
      if sources[0].cameraId.Some? {
        PlaceMeaning(sources[1..], m);
      } else if m > 0 {
        PlaceMeaning(sources[1..], m - 1);
      }
    }
  }

  lemma {:induction false} BeforeFirstPlace(sources: seq<Source>, i: nat)
    requires i < Place(sources, 0)
    ensures i < |sources| && sources[i].cameraId.Some?
  {
    if i > 0 {
      BeforeFirstPlace(sources[1..], i - 1);
    }
  }

  /** Between two places every source has its id. */
  lemma {:induction false} BetweenPlaces(sources: seq<Source>, m: nat, i: nat)
    requires m < |Todo(sources)|
    ensures Place(sources, m) < Place(sources, m + 1)
    ensures Place(sources, m) < i < Place(sources, m + 1) ==> i < |sources| && sources[i].cameraId.Some?
  {
    if sources[0].cameraId.Some? {
      BetweenPlaces(sources[1..], m, if i > 0 then i - 1 else 0);
    } else if m == 0 {
      if 0 < i < Place(sources, 1) {
        BeforeFirstPlace(sources[1..], i - 1);
      }
    } else {
      BetweenPlaces(sources[1..], m - 1, if i > 0 then i - 1 else 0);
    }
  }

  // ----- one request at a time -----

  ghost predicate Shows(t: Tables, me: nat, key: string, details: Details) {
    && HasCamera(t, me, key) && CameraOf(t, me, key) in t.cameras
    && t.cameras[CameraOf(t, me, key)].details == details
  }

  /** An upsert leaves every other keyed camera as it is. */
  lemma UpsertedElsewhere(t: Tables, me: nat, key: string, details: Details, other: string)
    requires Sound(t) && me in t.connectors && HasCamera(t, me, other)
    ensures var u := Upserted(t, me, key, details);
      && HasCamera(u, me, other) && CameraOf(u, me, other) == CameraOf(t, me, other)
      && (other != key ==> u.cameras[CameraOf(t, me, other)] == t.cameras[CameraOf(t, me, other)])
  {
    var u, c := Upserted(t, me, key, details), CameraOf(t, me, other);
    assert KeyedAs(t, me, other, c);
    UpsertedIsSound(t, me, key, details);
    assert KeyedAs(u, me, other, c);
    CameraIs(u, me, other, c);
  }

  /** Its own camera carries the new details. */
  lemma UpsertedHere(t: Tables, me: nat, key: string, details: Details)
    requires Sound(t) && me in t.connectors
    ensures var u, c := Upserted(t, me, key, details), CameraOf(t, me, key);
      && HasCamera(u, me, key) && CameraOf(u, me, key) == c && c in u.cameras && u.cameras[c].details == details
  {
    var u := Upserted(t, me, key, details);
    UpsertedIsSound(t, me, key, details);
    CameraIs(u, me, key, CameraOf(t, me, key));
  }

  lemma DashedIsSound(t: Tables, store: nat, details: Details)
    requires Sound(t)
    ensures Sound(Dashed(t, store, details))
  {
    if store in t.stores {
      DashboardIsSound(t, store, details);
    }
  }

  /** A dashboard camera leaves every keyed camera as it is. */
  lemma DashedElsewhere(t: Tables, me: nat, store: nat, details: Details, key: string)
    requires Sound(t) && HasCamera(t, me, key)
    ensures var u := Dashed(t, store, details);
      && HasCamera(u, me, key) && CameraOf(u, me, key) == CameraOf(t, me, key)
      && u.cameras[CameraOf(t, me, key)] == t.cameras[CameraOf(t, me, key)]
  {
    var u, c := Dashed(t, store, details), CameraOf(t, me, key);
    assert KeyedAs(t, me, key, c);
    DashedIsSound(t, store, details);
    assert KeyedAs(u, me, key, c);
    CameraIs(u, me, key, c);
  }

  lemma {:induction false} ServedIsSound(t: Tables, me: nat, script: seq<Request>)
    requires Sound(t) && me in t.connectors
    ensures Sound(Served(t, me, script))
  {
    if script != [] {
      var rest := script[..|script| - 1];
      ServedIsSound(t, me, rest);
      match script[|script| - 1]
      case Provide(s) => UpsertedIsSound(Served(t, me, rest), me, s.key, s.details);
      case Meanwhile(store, details) => DashedIsSound(Served(t, me, rest), store, details);
    }
  }

  lemma ServedSnoc(t: Tables, me: nat, script: seq<Request>, r: Request)
    requires me in t.connectors
    ensures Served(t, me, script + [r]) == Handled(Served(t, me, script), me, r)
    ensures Provided(script + [r]) == Provided(script) + SourceOf(r)
    ensures Meanwhiles(script + [r]) == Meanwhiles(script) + if r.Meanwhile? then [r] else []
  {
    assert (script + [r])[..|script|] == script;
  }

  predicate LastWithKey(sources: seq<Source>, i: nat) {
    i < |sources| && forall j :: i < j < |sources| ==> sources[j].key != sources[i].key
  }

  lemma {:induction false} ServedHas(t: Tables, me: nat, script: seq<Request>, key: string)
    requires Sound(t) && me in t.connectors
    requires HasCamera(t, me, key) || exists s :: s in Provided(script) && s.key == key
    ensures HasCamera(Served(t, me, script), me, key)
  {
    if script != [] {
      var rest, r := script[..|script| - 1], script[|script| - 1];
      var before := Served(t, me, rest);
      ServedIsSound(t, me, rest);
      if HasCamera(t, me, key) || exists s :: s in Provided(rest) && s.key == key {
        ServedHas(t, me, rest, key);
        if r.Provide? {
          UpsertedElsewhere(before, me, r.source.key, r.source.details, key);
        } else {
          DashedElsewhere(before, me, r.store, r.details, key);
        }
      } else {
        UpsertedHere(before, me, r.source.key, r.source.details);
      }
    }
  }

  /** Every key has its camera, with the details of the last source that names it. */
  lemma {:induction false} ServedMeaning(t: Tables, me: nat, script: seq<Request>, i: nat)
    requires Sound(t) && me in t.connectors && LastWithKey(Provided(script), i)
    ensures var s := Provided(script)[i]; Shows(Served(t, me, script), me, s.key, s.details)
  {
    var rest, r := script[..|script| - 1], script[|script| - 1];
    var before, s := Served(t, me, rest), Provided(script)[i];
    ServedIsSound(t, me, rest);
    if i < |Provided(rest)| {
      assert forall j :: 0 <= j < |Provided(rest)| ==> Provided(rest)[j] == Provided(script)[j];
      assert LastWithKey(Provided(rest), i);
      ServedMeaning(t, me, rest, i);
      if r.Provide? {
        assert Provided(script)[|Provided(rest)|] == r.source;
        UpsertedElsewhere(before, me, r.source.key, r.source.details, s.key);
      } else {
        DashedElsewhere(before, me, r.store, r.details, s.key);
      }
    } else {
      UpsertedHere(before, me, s.key, s.details);
    }
  }

  // ----- equal up to details -----

  ghost predicate SameButDetails(t: Tables, u: Tables) {
    && t.(cameras := u.cameras) == u && t.cameras.Keys == u.cameras.Keys
    && forall c :: c in t.cameras ==> t.cameras[c].(details := u.cameras[c].details) == u.cameras[c]
  }

  lemma SameCamera(t: Tables, u: Tables, me: nat, key: string)
    requires SameButDetails(t, u) && UniqueKeys(t.cameras) && UniqueKeys(u.cameras)
    ensures HasCamera(t, me, key) <==> HasCamera(u, me, key)
    ensures CameraOf(t, me, key) == CameraOf(u, me, key)
  {
    assert forall c: nat :: KeyedAs(t, me, key, c) <==> KeyedAs(u, me, key, c);
    if c: nat :| KeyedAs(t, me, key, c) {
      CameraIs(t, me, key, c);
      CameraIs(u, me, key, c);
    }
  }

  lemma SameAfterUpsert(t: Tables, u: Tables, me: nat, key: string, details: Details)
    requires SameButDetails(t, u) && Sound(t) && Sound(u) && me in t.connectors
    ensures SameButDetails(Upserted(t, me, key, details), Upserted(u, me, key, details))
    ensures HasCamera(u, me, key) ==> SameButDetails(Upserted(t, me, key, details), u)
  {
    SameCamera(t, u, me, key);
    if c: nat :| KeyedAs(t, me, key, c) {
      CameraIs(t, me, key, c);
    }
  }

  lemma SameConnector(t: Tables, u: Tables, store: nat)
    requires Sound(t) && Sound(u) && t.connectors == u.connectors
    ensures ConnectorOf(t, store) == ConnectorOf(u, store)
  {
    assert forall id: nat :: OwnsStore(t, store, id) <==> OwnsStore(u, store, id);
    if id: nat :| OwnsStore(t, store, id) {
      ConnectorOfIs(t, store, id);
      ConnectorOfIs(u, store, id);
    }
  }

  // ----- the invariant -----

  /** The first m sources that lacked an id have one now; nothing else changed. */
  ghost predicate Configured(sources: seq<Source>, current: seq<Source>, m: nat) {
    && |current| == |sources| && m <= |Todo(sources)|
    && forall i :: 0 <= i < |sources| ==> ConfiguredAt(sources, current[i], m, i)
  }

  predicate ConfiguredAt(sources: seq<Source>, now: Source, m: nat, i: nat)
    requires i < |sources|
  {
    if sources[i].cameraId.Some? then now == sources[i]
    else now.(cameraId := None) == sources[i] && (now.cameraId.Some? <==> i < Place(sources, m))
  }

  predicate GotId(sources: seq<Source>, current: seq<Source>, i: nat) {
    i < |sources| && i < |current| && sources[i].cameraId.None? && current[i].cameraId.Some?
  }

  /** The ids filled in are the backend's. Those that were there before are nobody's concern:
      the client never looks at them again. */
  ghost predicate IdsAgree(t: Tables, me: nat, sources: seq<Source>, current: seq<Source>) {
    forall i: nat :: GotId(sources, current, i) ==>
      HasCamera(t, me, current[i].key) && current[i].cameraId.value == CameraOf(t, me, current[i].key)
  }

  /** The details of a source's camera were written by that source or a later one with its key. */
  ghost predicate Written(t: Tables, me: nat, sources: seq<Source>, i: nat) {
    exists j: nat :: WrittenBy(t, me, sources, i, j)
  }

  ghost predicate WrittenBy(t: Tables, me: nat, sources: seq<Source>, i: nat, j: nat) {
    && i <= j < |sources| && sources[j].key == sources[i].key
    && Shows(t, me, sources[i].key, sources[j].details)
  }

  ghost predicate OfSource(t: Tables, me: nat, sources: seq<Source>, c: nat) {
    exists i :: 0 <= i < |sources| && KeyedAs(t, me, sources[i].key, c)
  }

  ghost predicate OthersEqual(t: Tables, u: Tables, me: nat, sources: seq<Source>) {
    forall c :: c in t.cameras && c in u.cameras && !OfSource(u, me, sources, c) ==> t.cameras[c] == u.cameras[c]
  }

  /** `u` is the backend of a run without incidents after these sources; `t` may differ from it
      in the details of their cameras. */
  ghost predicate Tracks(t: Tables, u: Tables, me: nat, sources: seq<Source>) {
    Sound(t) && Sound(u) && me in t.connectors && SameButDetails(t, u) && OthersEqual(t, u, me, sources)
  }

  /** m of the sources to do have their id in memory and q on disk, and these ids are the
      backend's. */
  ghost predicate Lists(w: World, me: nat, sources: seq<Source>, m: nat, q: nat) {
    && Configured(sources, w.memory, m) && Configured(sources, w.disk, q)
    && IdsAgree(w.t, me, sources, w.memory) && IdsAgree(w.t, me, sources, w.disk)
  }

  ghost predicate AllWritten(t: Tables, me: nat, todo: seq<Source>, m: nat) {
    forall i: nat :: i < m ==> Written(t, me, todo, i)
  }

  /** `script` is the run without incidents that the backend tracks: what ever reached it, each
      source once. */
  ghost predicate Progress(
    w: World, me: nat, start: Tables, sources: seq<Source>, m: nat, q: nat, script: seq<Request>)
  {
    && Sound(start) && me in start.connectors
    && q <= m <= |Provided(script)| <= |Todo(sources)|
    && Provided(script) == Todo(sources)[..|Provided(script)|]
    && Lists(w, me, sources, m, q)
    && Tracks(w.t, Served(start, me, script), me, Provided(script))
    && AllWritten(w.t, me, Todo(sources), m)
  }

  // ----- a create call -----

  lemma TracksAgain(t: Tables, u: Tables, me: nat, sources: seq<Source>, i: nat)
    requires Tracks(t, u, me, sources) && i < |sources| && HasCamera(u, me, sources[i].key)
    ensures Tracks(Upserted(t, me, sources[i].key, sources[i].details), u, me, sources)
  {
    var key, details := sources[i].key, sources[i].details;
    SameAfterUpsert(t, u, me, key, details);
    UpsertedIsSound(t, me, key, details);
    SameCamera(t, u, me, key);
    assert KeyedAs(u, me, key, CameraOf(u, me, key));
    assert OfSource(u, me, sources, CameraOf(u, me, key));
  }

  lemma TracksFurther(t: Tables, u: Tables, me: nat, sources: seq<Source>, s: Source)
    requires Tracks(t, u, me, sources)
    ensures Tracks(Upserted(t, me, s.key, s.details), Upserted(u, me, s.key, s.details), me, sources + [s])
  {
    var t', u' := Upserted(t, me, s.key, s.details), Upserted(u, me, s.key, s.details);
    SameAfterUpsert(t, u, me, s.key, s.details);
    UpsertedIsSound(t, me, s.key, s.details);
    UpsertedIsSound(u, me, s.key, s.details);
    SameCamera(t, u, me, s.key);
    assert (sources + [s])[|sources|] == s;
    assert OfSource(u', me, sources + [s], CameraOf(u, me, s.key));
    forall c | c in t'.cameras && !OfSource(u', me, sources + [s], c) ensures t'.cameras[c] == u'.cameras[c] {
      assert c != CameraOf(u, me, s.key);
      assert c in t.cameras && t'.cameras[c] == t.cameras[c] && u'.cameras[c] == u.cameras[c];
      if i :| 0 <= i < |sources| && KeyedAs(u, me, sources[i].key, c) {
        assert KeyedAs(u', me, (sources + [s])[i].key, c);
      }
    }
  }

  /** What `u` gained over `t` is nothing but rows of its own. */
  ghost predicate Extends(t: Tables, u: Tables) {
    forall c :: c in t.cameras ==> c in u.cameras && u.cameras[c] == t.cameras[c]
  }

  lemma DashedExtends(t: Tables, store: nat, details: Details)
    requires t.nextId !in t.cameras
    ensures Extends(t, Dashed(t, store, details))
  {
  }

  lemma SameAfterDashboard(t: Tables, u: Tables, store: nat, details: Details)
    requires SameButDetails(t, u) && ConnectorOf(t, store) == ConnectorOf(u, store)
    ensures var t', u' := Dashed(t, store, details), Dashed(u, store, details);
      SameButDetails(t', u') && forall c :: c in t'.cameras && c !in t.cameras ==> t'.cameras[c] == u'.cameras[c]
  {
  }

  lemma OthersStayEqual(t: Tables, u: Tables, t': Tables, u': Tables, me: nat, sources: seq<Source>)
    requires OthersEqual(t, u, me, sources) && Extends(t, t') && Extends(u, u') && t.cameras.Keys == u.cameras.Keys
    requires forall c :: c in t'.cameras && c !in t.cameras ==> c in u'.cameras && t'.cameras[c] == u'.cameras[c]
    ensures OthersEqual(t', u', me, sources)
  {
    forall c | c in u.cameras && OfSource(u, me, sources, c) ensures OfSource(u', me, sources, c) {
      var i :| 0 <= i < |sources| && KeyedAs(u, me, sources[i].key, c);
      assert KeyedAs(u', me, sources[i].key, c);
    }
  }

  lemma TracksDashboard(t: Tables, u: Tables, me: nat, sources: seq<Source>, store: nat, details: Details)
    requires Tracks(t, u, me, sources)
    ensures Tracks(Dashed(t, store, details), Dashed(u, store, details), me, sources)
  {
    DashedIsSound(t, store, details);
    DashedIsSound(u, store, details);
    SameConnector(t, u, store);
    SameAfterDashboard(t, u, store, details);
    DashedExtends(t, store, details);
    DashedExtends(u, store, details);
    OthersStayEqual(t, u, Dashed(t, store, details), Dashed(u, store, details), me, sources);
  }

  lemma WrittenAfter(t: Tables, me: nat, sources: seq<Source>, m: nat, i: nat)
    requires Sound(t) && me in t.connectors && i <= m < |sources|
    requires i < m ==> Written(t, me, sources, i)
    ensures Written(Upserted(t, me, sources[m].key, sources[m].details), me, sources, i)
  {
    var key, details := sources[m].key, sources[m].details;
    var u := Upserted(t, me, key, details);
    if sources[i].key == key {
      UpsertedHere(t, me, key, details);
      assert WrittenBy(u, me, sources, i, m);
    } else {
      var j: nat :| WrittenBy(t, me, sources, i, j);
      UpsertedElsewhere(t, me, key, details, sources[i].key);
      assert WrittenBy(u, me, sources, i, j);
    }
  }

  lemma WrittenDashboard(t: Tables, me: nat, sources: seq<Source>, store: nat, details: Details, i: nat)
    requires Sound(t) && Written(t, me, sources, i)
    ensures Written(Dashed(t, store, details), me, sources, i)
  {
    var j: nat :| WrittenBy(t, me, sources, i, j);
    DashedElsewhere(t, me, store, details, sources[i].key);
    assert WrittenBy(Dashed(t, store, details), me, sources, i, j);
  }

  lemma IdsStillAgree(t: Tables, me: nat, key: string, details: Details, sources: seq<Source>, current: seq<Source>)
    requires Sound(t) && me in t.connectors && IdsAgree(t, me, sources, current)
    ensures IdsAgree(Upserted(t, me, key, details), me, sources, current)
  {
    forall i: nat | GotId(sources, current, i)
      ensures HasCamera(Upserted(t, me, key, details), me, current[i].key)
      ensures current[i].cameraId.value == CameraOf(Upserted(t, me, key, details), me, current[i].key)
    {
      UpsertedElsewhere(t, me, key, details, current[i].key);
    }
  }

  lemma IdsAgreeDashboard(t: Tables, me: nat, store: nat, details: Details, sources: seq<Source>, current: seq<Source>)
    requires Sound(t) && IdsAgree(t, me, sources, current)
    ensures IdsAgree(Dashed(t, store, details), me, sources, current)
  {
    forall i: nat | GotId(sources, current, i)
      ensures HasCamera(Dashed(t, store, details), me, current[i].key)
      ensures current[i].cameraId.value == CameraOf(Dashed(t, store, details), me, current[i].key)
    {
      DashedElsewhere(t, me, store, details, current[i].key);
    }
  }

  /** The first source without an id is the m-th to do. */
  lemma NextIsPlace(sources: seq<Source>, current: seq<Source>, m: nat)
    requires Configured(sources, current, m)
    ensures NextSource(current) == Place(sources, m) <= |current|
    ensures m < |Todo(sources)| ==> Place(sources, m) < |current| && current[Place(sources, m)] == Todo(sources)[m]
    ensures m == |Todo(sources)| <==> Place(sources, m) == |current|
  {
    PlaceMeaning(sources, m);
    forall i | 0 <= i < Place(sources, m) && i < |current| ensures current[i].cameraId.Some? {
      assert ConfiguredAt(sources, current[i], m, i);
    }
    if m < |Todo(sources)| {
      assert ConfiguredAt(sources, current[Place(sources, m)], m, Place(sources, m));
    }
    NextSourceIs(current, Place(sources, m));
  }

  lemma ConfiguredNext(sources: seq<Source>, current: seq<Source>, m: nat, id: nat)
    requires Configured(sources, current, m) && m < |Todo(sources)|
    requires Place(sources, m) < |current|
    ensures var p := Place(sources, m);
      Configured(sources, current[p := current[p].(cameraId := Some(id))], m + 1)
  {
    var p := Place(sources, m);
    NextIsPlace(sources, current, m);
    PlaceMeaning(sources, m);
    var next := current[p := current[p].(cameraId := Some(id))];
    forall i | 0 <= i < |sources| ensures ConfiguredAt(sources, next[i], m + 1, i) {
      assert ConfiguredAt(sources, current[i], m, i);
      BetweenPlaces(sources, m, i);
    }
  }

  lemma CreateLists(w: World, me: nat, sources: seq<Source>, m: nat, q: nat, answered: bool)
    requires Lists(w, me, sources, m, q) && Sound(w.t) && me in w.t.connectors && m < |Todo(sources)|
    ensures var s, v := Todo(sources)[m], Next(w, me, Create(answered));
      v.t == Upserted(w.t, me, s.key, s.details) && Lists(v, me, sources, if answered then m + 1 else m, q)
  {
    var s, p := Todo(sources)[m], Place(sources, m);
    NextIsPlace(sources, w.memory, m);
    ConfiguredNext(sources, w.memory, m, CameraOf(w.t, me, s.key));
    IdsStillAgree(w.t, me, s.key, s.details, sources, w.memory);
    IdsStillAgree(w.t, me, s.key, s.details, sources, w.disk);
    UpsertedHere(w.t, me, s.key, s.details);
  }

  /** The run without incidents after one more create call: a repeated one adds nothing. */
  function CreateScript(script: seq<Request>, todo: seq<Source>, m: nat): seq<Request>
    requires m < |todo|
  {
    if m < |Provided(script)| then script else script + [Provide(todo[m])]
  }

  lemma CreateTracks(t: Tables, me: nat, start: Tables, script: seq<Request>, todo: seq<Source>, m: nat)
    requires Sound(start) && me in start.connectors && m < |todo| && m <= |Provided(script)| <= |todo|
    requires Provided(script) == todo[..|Provided(script)|]
    requires Tracks(t, Served(start, me, script), me, Provided(script))
    ensures var now := CreateScript(script, todo, m);
      && |Provided(now)| <= |todo| && Provided(now) == todo[..|Provided(now)|] && m < |Provided(now)|
      && Meanwhiles(now) == Meanwhiles(script)
      && Tracks(Upserted(t, me, todo[m].key, todo[m].details), Served(start, me, now), me, Provided(now))
  {
    var ref := Served(start, me, script);
    if m < |Provided(script)| {
      assert Provided(script)[m] == todo[m] && todo[m] in Provided(script);
      ServedHas(start, me, script, todo[m].key);
      TracksAgain(t, ref, me, Provided(script), m);
    } else {
      TracksFurther(t, ref, me, Provided(script), todo[m]);
      ServedSnoc(start, me, script, Provide(todo[m]));
      assert todo[..m + 1] == todo[..m] + [todo[m]];
    }
  }

  lemma CreateKeeps(
    w: World, me: nat, start: Tables, sources: seq<Source>, m: nat, q: nat, script: seq<Request>, answered: bool)
    returns (m': nat, script': seq<Request>)
    requires Progress(w, me, start, sources, m, q, script)
    ensures Progress(Next(w, me, Create(answered)), me, start, sources, m', q, script')
    ensures Meanwhiles(script') == Meanwhiles(script)
  {
    var todo := Todo(sources);
    if m == |todo| {
      NextIsPlace(sources, w.memory, m);
      return m, script;
    }
    m', script' := if answered then m + 1 else m, CreateScript(script, todo, m);
    CreateTracks(w.t, me, start, script, todo, m);
    CreateLists(w, me, sources, m, q, answered);
    forall i: nat | i <= m ensures Written(Upserted(w.t, me, todo[m].key, todo[m].details), me, todo, i) {
      WrittenAfter(w.t, me, todo, m, i);
    }
  }

  lemma DashboardLists(w: World, me: nat, sources: seq<Source>, m: nat, q: nat, store: nat, details: Details)
    requires Lists(w, me, sources, m, q) && Sound(w.t)
    ensures Lists(Next(w, me, Dashboard(store, details)), me, sources, m, q)
  {
    IdsAgreeDashboard(w.t, me, store, details, sources, w.memory);
    IdsAgreeDashboard(w.t, me, store, details, sources, w.disk);
  }

  lemma AllWrittenDashboard(t: Tables, me: nat, todo: seq<Source>, m: nat, store: nat, details: Details)
    requires Sound(t) && AllWritten(t, me, todo, m)
    ensures AllWritten(Dashed(t, store, details), me, todo, m)
  {
    forall i: nat | i < m ensures Written(Dashed(t, store, details), me, todo, i) {
      WrittenDashboard(t, me, todo, store, details, i);
    }
  }

  lemma DashboardKeeps(w: World, me: nat, start: Tables, sources: seq<Source>, m: nat, q: nat, script: seq<Request>,
                       store: nat, details: Details)
    requires Progress(w, me, start, sources, m, q, script)
    ensures Progress(Next(w, me, Dashboard(store, details)), me, start, sources, m, q,
                     script + [Meanwhile(store, details)])
  {
    ServedSnoc(start, me, script, Meanwhile(store, details));
    assert Provided(script + [Meanwhile(store, details)]) == Provided(script);
    TracksDashboard(w.t, Served(start, me, script), me, Provided(script), store, details);
    DashboardLists(w, me, sources, m, q, store, details);
    AllWrittenDashboard(w.t, me, Todo(sources), m, store, details);
  }

  lemma NextKeeps(
    w: World, me: nat, start: Tables, sources: seq<Source>, m: nat, q: nat, script: seq<Request>, a: Action)
    returns (m': nat, q': nat, script': seq<Request>)
    requires Progress(w, me, start, sources, m, q, script)
    ensures Progress(Next(w, me, a), me, start, sources, m', q', script')
    ensures Meanwhiles(script') == Meanwhiles(script) + DashboardOf(a)
  {
    m', q', script' := m, q, script;
    match a
    case Create(answered) => m', script' := CreateKeeps(w, me, start, sources, m, q, script, answered);
    case Save => q' := m;
    case Crash => m' := q;
    case Dashboard(store, details) =>
      DashboardKeeps(w, me, start, sources, m, q, script, store, details);
      ServedSnoc(start, me, script, Meanwhile(store, details));
      script' := script + [Meanwhile(store, details)];
  }

  lemma {:induction false} RunKeeps(
    w: World, me: nat, start: Tables, sources: seq<Source>, m: nat, q: nat, script: seq<Request>, actions: seq<Action>)
    returns (m': nat, q': nat, script': seq<Request>)
    requires Progress(w, me, start, sources, m, q, script)
    ensures Progress(Run(w, me, actions), me, start, sources, m', q', script')
    ensures Meanwhiles(script') == Meanwhiles(script) + DashboardsIn(actions)
    decreases |actions|
  {
    if actions == [] {
      return m, q, script;
    }
    var m1, q1, script1 := NextKeeps(w, me, start, sources, m, q, script, actions[0]);
    m', q', script' := RunKeeps(Next(w, me, actions[0]), me, start, sources, m1, q1, script1, actions[1..]);
    Associates(Meanwhiles(script), DashboardOf(actions[0]), DashboardsIn(actions[1..]));
  }

  lemma Associates(a: seq<Request>, b: seq<Request>, c: seq<Request>)
    ensures (a + b) + c == a + (b + c)
  {
  }

  // ----- the end of any run -----

  predicate AllIdentified(sources: seq<Source>) {
    forall i :: 0 <= i < |sources| ==> sources[i].cameraId.Some?
  }

  lemma LastSource(sources: seq<Source>, i: nat) returns (l: nat)
    requires i < |sources|
    ensures LastWithKey(sources, l) && i <= l && sources[l].key == sources[i].key
    decreases |sources| - i
  {
    l := i;
    if j :| i < j < |sources| && sources[j].key == sources[i].key {
      l := LastSource(sources, j);
    }
  }

  lemma SourceCameraIs(t: Tables, me: nat, start: Tables, script: seq<Request>, c: nat)
    requires Sound(start) && me in start.connectors && Sound(t)
    requires SameButDetails(t, Served(start, me, script)) && AllWritten(t, me, Provided(script), |Provided(script)|)
    requires c in t.cameras && OfSource(Served(start, me, script), me, Provided(script), c)
    ensures t.cameras[c] == Served(start, me, script).cameras[c]
  {
    var ref, sources := Served(start, me, script), Provided(script);
    ServedIsSound(start, me, script);
    var i: nat :| i < |sources| && KeyedAs(ref, me, sources[i].key, c);
    var l := LastSource(sources, i);
    ServedMeaning(start, me, script, l);
    CameraIs(ref, me, sources[l].key, c);
    SameCamera(t, ref, me, sources[l].key);
    assert Written(t, me, sources, l);
    var j: nat :| WrittenBy(t, me, sources, l, j);
    assert j == l;
  }

  lemma CompleteIsServed(t: Tables, me: nat, start: Tables, script: seq<Request>)
    requires Sound(start) && me in start.connectors
    requires Tracks(t, Served(start, me, script), me, Provided(script))
    requires AllWritten(t, me, Provided(script), |Provided(script)|)
    ensures t == Served(start, me, script)
  {
    var ref := Served(start, me, script);
    forall c | c in t.cameras ensures t.cameras[c] == ref.cameras[c] {
      if OfSource(ref, me, Provided(script), c) {
        SourceCameraIs(t, me, start, script, c);
      }
    }
    assert t.cameras == ref.cameras;
  }

  /** A complete list: every source, with the id it had or else the one the backend has for its
      key. */
  ghost predicate Complete(t: Tables, me: nat, sources: seq<Source>, current: seq<Source>) {
    |current| == |sources| && forall i :: 0 <= i < |sources| ==> current[i] == Identified(t, me, sources[i])
  }

  ghost function Identified(t: Tables, me: nat, s: Source): Source {
    if s.cameraId.Some? then s else s.(cameraId := Some(CameraOf(t, me, s.key)))
  }

  lemma IdentifiedIsComplete(w: World, me: nat, sources: seq<Source>, m: nat, q: nat)
    requires Lists(w, me, sources, m, q) && AllIdentified(w.memory)
    ensures m == |Todo(sources)| && Complete(w.t, me, sources, w.memory)
  {
    NextIsPlace(sources, w.memory, m);
    NextSourceIs(w.memory, |w.memory|);
    forall i | 0 <= i < |sources|
      ensures w.memory[i] == Identified(w.t, me, sources[i])
    {
      assert ConfiguredAt(sources, w.memory[i], m, i) && w.memory[i].cameraId.Some?;
      assert sources[i].cameraId.None? ==> GotId(sources, w.memory, i);
    }
  }

  lemma StartProgress(start: Tables, me: nat, sources: seq<Source>)
    requires Sound(start) && me in start.connectors
    ensures Progress(World(start, sources, sources), me, start, sources, 0, 0, [])
  {
    forall i | 0 <= i < |sources| ensures ConfiguredAt(sources, sources[i], 0, i) {
      if i < Place(sources, 0) {
        BeforeFirstPlace(sources, i);
      }
    }
  }

  /** Whatever calls were lost, however often the process crashed, and whatever cameras the
      dashboard made meanwhile: once every source has its id, the backend is that of a run
      without incidents, in which each source that lacked an id was created once, in order, among
      the same dashboard cameras. And each new id is the backend's for its key. */
  lemma ProvisioningSurvivesCrashes(start: Tables, me: nat, sources: seq<Source>, actions: seq<Action>)
    returns (script: seq<Request>)
    requires Sound(start) && me in start.connectors
    requires AllIdentified(Run(World(start, sources, sources), me, actions).memory)
    ensures Provided(script) == Todo(sources) && Meanwhiles(script) == DashboardsIn(actions)
    ensures var w := Run(World(start, sources, sources), me, actions);
      w.t == Served(start, me, script) && Complete(w.t, me, sources, w.memory)
  {
    StartProgress(start, me, sources);
    var m, q;
    m, q, script := RunKeeps(World(start, sources, sources), me, start, sources, 0, 0, [], actions);
    EndOfRun(Run(World(start, sources, sources), me, actions), me, start, sources, m, q, script);
  }

  lemma WholeScript(todo: seq<Source>, script: seq<Request>)
    requires |Provided(script)| == |todo| && Provided(script) == todo[..|Provided(script)|]
    ensures Provided(script) == todo
  {
  }

  lemma EndOfRun(w: World, me: nat, start: Tables, sources: seq<Source>, m: nat, q: nat, script: seq<Request>)
    requires Progress(w, me, start, sources, m, q, script) && AllIdentified(w.memory)
    ensures Provided(script) == Todo(sources)
    ensures w.t == Served(start, me, script) && Complete(w.t, me, sources, w.memory)
  {
    IdentifiedIsComplete(w, me, sources, m, q);
    WholeScript(Todo(sources), script);
    CompleteIsServed(w.t, me, start, script);
  }

  // ----- finalize -----

  function KeySet(sources: seq<Source>): set<string> {
    set i | 0 <= i < |sources| :: sources[i].key
  }

  lemma {:induction false} TodoOrIdentified(sources: seq<Source>, i: nat)
    requires i < |sources| && sources[i].cameraId.None?
    ensures sources[i] in Todo(sources)
  {
    if i > 0 {
      TodoOrIdentified(sources[1..], i - 1);
    }
  }

  /** A camera under a key was there before, or a source with that key was provided. */
  lemma {:induction false} ServedHasOnly(t: Tables, me: nat, script: seq<Request>, key: string)
    requires Sound(t) && me in t.connectors && HasCamera(Served(t, me, script), me, key)
    ensures HasCamera(t, me, key) || exists s :: s in Provided(script) && s.key == key
  {
    if script != [] {
      var rest, r := script[..|script| - 1], script[|script| - 1];
      var before, after := Served(t, me, rest), Served(t, me, script);
      ServedIsSound(t, me, rest);
      var c: nat :| KeyedAs(after, me, key, c);
      if r.Provide? && r.source.key == key {
        assert r.source in Provided(script);
      } else {
        assert KeyedAs(before, me, key, c);
        ServedHasOnly(t, me, rest, key);
      }
    }
  }

  /** An id that was in the list before stands for nothing: the backend has no camera under the
      source's key, and no other source brings one. */
  ghost predicate Stale(start: Tables, me: nat, sources: seq<Source>, i: nat) {
    && i < |sources| && sources[i].cameraId.Some? && !HasCamera(start, me, sources[i].key)
    && forall s :: s in Todo(sources) ==> s.key != sources[i].key
  }

  lemma ServedHasAllExactly(start: Tables, me: nat, sources: seq<Source>, script: seq<Request>)
    requires Sound(start) && me in start.connectors && Provided(script) == Todo(sources)
    ensures AllProvisioned(Served(start, me, script), me, KeySet(sources))
      <==> forall i: nat :: !Stale(start, me, sources, i)
  {
    forall i: nat | i < |sources|
      ensures HasCamera(Served(start, me, script), me, sources[i].key) <==> !Stale(start, me, sources, i)
    {
      if sources[i].cameraId.None? {
        TodoOrIdentified(sources, i);
      }
      if !Stale(start, me, sources, i) {
        ServedHas(start, me, script, sources[i].key);
      } else if HasCamera(Served(start, me, script), me, sources[i].key) {
        ServedHasOnly(start, me, script, sources[i].key);
      }
    }
    forall i: nat | i < |sources| ensures sources[i].key in KeySet(sources) {
    }
  }

  /** Finalizing then succeeds exactly when no id in the original list was stale, and leaves one
      attached camera for each distinct key: just what a run without incidents leaves. */
  lemma SetupEndsAsIfNothingHappened(start: Tables, me: nat, sources: seq<Source>, actions: seq<Action>)
    returns (script: seq<Request>)
    requires Sound(start) && me in start.connectors
    requires AllIdentified(Run(World(start, sources, sources), me, actions).memory)
    ensures Provided(script) == Todo(sources) && Meanwhiles(script) == DashboardsIn(actions)
    ensures var t, keys := Run(World(start, sources, sources), me, actions).t, KeySet(sources);
      && (AllProvisioned(t, me, keys) <==> forall i: nat :: !Stale(start, me, sources, i))
      && Finalized(t, me, keys) == Finalized(Served(start, me, script), me, keys)
      && (|Provisioned(t, me, keys)| == |keys| <==> AllProvisioned(t, me, keys))
      && forall c :: c in t.cameras ==>
           (Finalized(t, me, keys).cameras[c].connector == Some(me) <==> c in Provisioned(t, me, keys))
  {
    script := ProvisioningSurvivesCrashes(start, me, sources, actions);
    ServedIsSound(start, me, script);
    ServedHasAllExactly(start, me, sources, script);
    CountTellsAll(Served(start, me, script), me, KeySet(sources));
  }
}
