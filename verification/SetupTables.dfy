/** The backend rows behind pairing and provisioning, and what each request does to them
    (backend/Controllers/ConnectorsController.cs, backend/Controllers/CamerasController.cs,
    backend/Services/ConnectorPairingService.cs, backend/Services/CameraProvisioningService.cs). */
module SetupTables {
  import opened Wrappers
  import opened SetFacts

  datatype Connector = Connector(store: nat, heartbeat: Option<int>, running: bool, apiKey: nat)

  datatype Details = Details(name: string, url: string)

  datatype Camera = Camera(store: nat, connector: Option<nat>, sourceKey: Option<string>, details: Details)

  datatype SetupCode = SetupCode(store: nat, expiresAt: int, usedAt: Option<int>)

  /** `nextId` is above every id in use: a new row takes it as its id. Times are in seconds. */
  datatype Tables = Tables(
    stores: set<nat>, connectors: map<nat, Connector>, cameras: map<nat, Camera>,
    codes: map<nat, SetupCode>, nextId: nat, now: int)

  const CODE_LIFETIME := 1800
  const ACTIVE_SECONDS := 120
  const MAX_KEY_LENGTH := 128

  // ----- pairing -----

  ghost predicate OwnsStore(t: Tables, store: nat, id: nat) {
    id in t.connectors && t.connectors[id].store == store
  }

  ghost predicate HasConnector(t: Tables, store: nat) {
    exists id: nat :: OwnsStore(t, store, id)
  }

  ghost function ConnectorOf(t: Tables, store: nat): Option<nat> {
    if HasConnector(t, store) then
      var id: nat :| OwnsStore(t, store, id);
      Some(id)
    else None
  }

  /** The connector row of the store, new or overwritten, with a new key and a heartbeat. */
  ghost function Paired(t: Tables, store: nat, apiKey: nat): Tables {
    var row := Connector(store, Some(t.now), true, apiKey);
    match ConnectorOf(t, store)
    case Some(id) => t.(connectors := t.connectors[id := row])
    case None => t.(connectors := t.connectors[t.nextId := row], nextId := t.nextId + 1)
  }

  /** UPDATE: the unattached cameras of the store go to the connector. */
  function Adopting(t: Tables, store: nat, id: nat): map<nat, Camera> {
    map c | c in t.cameras ::
      if t.cameras[c].store == store && t.cameras[c].connector == None
      then t.cameras[c].(connector := Some(id)) else t.cameras[c]
  }

  predicate SameKey(a: Camera, b: Camera) {
    a.connector.Some? && a.connector == b.connector && a.sourceKey.Some? && a.sourceKey == b.sourceKey
  }

  /** The partial unique index on ("ConnectorId", "SourceKey"). */
  predicate UniqueKeys(cameras: map<nat, Camera>) {
    forall c, d :: c in cameras && d in cameras && c != d ==> !SameKey(cameras[c], cameras[d])
  }

  /** The update fails, and changes nothing, where it would break the index. */
  ghost function Adopted(t: Tables, id: nat): Tables {
    if id !in t.connectors then t
    else
      var cameras := Adopting(t, t.connectors[id].store, id);
      if UniqueKeys(cameras) then t.(cameras := cameras) else t
  }

  // ----- setup codes -----

  predicate Claimable(t: Tables, code: nat) {
    code in t.codes && t.codes[code].usedAt.None? && t.codes[code].expiresAt >= t.now
  }

  ghost predicate Active(c: Connector, now: int) {
    c.running && c.heartbeat.Some? && c.heartbeat.value >= now - ACTIVE_SECONDS
  }

  ghost predicate HasActiveConnector(t: Tables, store: nat) {
    exists id: nat :: OwnsStore(t, store, id) && Active(t.connectors[id], t.now)
  }

  /** The part before the transaction: the code is good and no connector is active. */
  ghost predicate MayClaim(t: Tables, code: nat) {
    Claimable(t, code) && !HasActiveConnector(t, t.codes[code].store)
  }

  /** The transaction: consume the code, pair, and adopt when the connector is new. */
  ghost function Claimed(t: Tables, code: nat, apiKey: nat): Tables
    requires code in t.codes
  {
    var store := t.codes[code].store;
    var consumed := t.(codes := t.codes[code := t.codes[code].(usedAt := Some(t.now))]);
    var paired := Paired(consumed, store, apiKey);
    if HasConnector(t, store) then paired else Adopted(paired, t.nextId)
  }

  // ----- cameras -----

  ghost predicate KeyedAs(t: Tables, connector: nat, key: string, c: nat) {
    c in t.cameras && t.cameras[c].connector == Some(connector) && t.cameras[c].sourceKey == Some(key)
  }

  ghost predicate HasCamera(t: Tables, connector: nat, key: string) {
    exists c: nat :: KeyedAs(t, connector, key, c)
  }

  ghost function CameraOf(t: Tables, connector: nat, key: string): nat {
    if HasCamera(t, connector, key) then
      var c: nat :| KeyedAs(t, connector, key, c);
      c
    else t.nextId
  }

  lemma CameraIs(t: Tables, connector: nat, key: string, c: nat)
    requires UniqueKeys(t.cameras) && KeyedAs(t, connector, key, c)
    ensures HasCamera(t, connector, key) && CameraOf(t, connector, key) == c
  {
    var d := CameraOf(t, connector, key);
    assert KeyedAs(t, connector, key, d);
    assert c != d ==> SameKey(t.cameras[c], t.cameras[d]);
  }

  /** INSERT .. ON CONFLICT ("ConnectorId", "SourceKey") DO UPDATE. */
  ghost function Upserted(t: Tables, connector: nat, key: string, details: Details): Tables
    requires connector in t.connectors
  {
    var c := CameraOf(t, connector, key);
    if HasCamera(t, connector, key) && c in t.cameras then
      t.(cameras := t.cameras[c := t.cameras[c].(details := details)])
    else
      t.(cameras := t.cameras[c := Camera(t.connectors[connector].store, Some(connector), Some(key), details)],
         nextId := t.nextId + 1)
  }

  /** A camera made on the dashboard has no source key. */
  ghost function DashboardCamera(t: Tables, store: nat, details: Details): Tables {
    t.(cameras := t.cameras[t.nextId := Camera(store, ConnectorOf(t, store), None, details)], nextId := t.nextId + 1)
  }

  // ----- finalize -----

  predicate InSet(c: Camera, connector: nat, keys: set<string>) {
    c.connector == Some(connector) && c.sourceKey.Some? && c.sourceKey.value in keys
  }

  function Provisioned(t: Tables, connector: nat, keys: set<string>): set<nat> {
    set c | c in t.cameras && InSet(t.cameras[c], connector, keys)
  }

  function Finalized(t: Tables, connector: nat, keys: set<string>): Tables {
    t.(cameras := map c | c in t.cameras ::
      if t.cameras[c].connector == Some(connector) && !InSet(t.cameras[c], connector, keys)
      then t.cameras[c].(connector := None) else t.cameras[c])
  }

  // ----- what every request keeps -----

  ghost predicate OneConnectorPerStore(t: Tables) {
    && (forall a: nat, b: nat, s: nat :: OwnsStore(t, s, a) && OwnsStore(t, s, b) ==> a == b)
    && forall id :: id in t.connectors ==> t.connectors[id].store in t.stores
  }

  /** An attached camera is in its connector's store. */
  ghost predicate CamerasAtHome(t: Tables) {
    forall c :: c in t.cameras && t.cameras[c].connector.Some? ==>
      OwnsStore(t, t.cameras[c].store, t.cameras[c].connector.value)
  }

  /** In a store that never had a connector no camera has a source key yet. */
  ghost predicate KeysNeedConnector(t: Tables) {
    forall c :: c in t.cameras && t.cameras[c].sourceKey.Some? ==> HasConnector(t, t.cameras[c].store)
  }

  ghost predicate BelowFresh(t: Tables) {
    && (forall id :: id in t.connectors ==> id < t.nextId)
    && (forall c :: c in t.cameras ==> c < t.nextId)
    && (forall k :: k in t.codes ==> k < t.nextId)
  }

  ghost predicate Sound(t: Tables) {
    OneConnectorPerStore(t) && CamerasAtHome(t) && UniqueKeys(t.cameras) && KeysNeedConnector(t) && BelowFresh(t)
  }

  lemma ConnectorOfIs(t: Tables, store: nat, id: nat)
    requires OneConnectorPerStore(t) && OwnsStore(t, store, id)
    ensures ConnectorOf(t, store) == Some(id)
  {
  }

  lemma PairedIsSound(t: Tables, store: nat, apiKey: nat)
    requires Sound(t) && store in t.stores
    ensures Sound(Paired(t, store, apiKey))
    ensures HasConnector(Paired(t, store, apiKey), store)
    ensures !HasConnector(t, store) ==> OwnsStore(Paired(t, store, apiKey), store, t.nextId)
  {
    var u := Paired(t, store, apiKey);
    assert forall s: nat, id: nat :: OwnsStore(t, s, id) ==> OwnsStore(u, s, id);
    assert forall s: nat :: HasConnector(t, s) ==> HasConnector(u, s);
    if HasConnector(t, store) {
      assert forall s: nat, id: nat :: OwnsStore(u, s, id) ==> OwnsStore(t, s, id);
    } else {
      assert OwnsStore(u, store, t.nextId);
      forall s: nat, id: nat | OwnsStore(u, s, id) && id != t.nextId ensures OwnsStore(t, s, id) && s != store {
        assert OwnsStore(t, s, id);
      }
    }
  }

  /** Adopting the cameras of a store keeps the index whenever none of them has a key. */
  lemma AdoptionOfKeyless(t: Tables, id: nat)
    requires UniqueKeys(t.cameras) && id in t.connectors
    requires forall c ::
      c in t.cameras && t.cameras[c].store == t.connectors[id].store && t.cameras[c].connector.None? ==>
      t.cameras[c].sourceKey.None?
    ensures UniqueKeys(Adopting(t, t.connectors[id].store, id))
    ensures Adopted(t, id).cameras == Adopting(t, t.connectors[id].store, id)
  {
  }

  /** In sound tables a store's first connector can always adopt what waits there. */
  lemma FirstAdoptionFits(t: Tables, store: nat, apiKey: nat)
    requires Sound(t) && store in t.stores && !HasConnector(t, store)
    ensures var u := Paired(t, store, apiKey);
      UniqueKeys(Adopting(u, store, t.nextId)) && Adopted(u, t.nextId).cameras == Adopting(u, store, t.nextId)
  {
    var u := Paired(t, store, apiKey);
    assert forall id: nat :: !OwnsStore(t, store, id);
    assert forall c :: c in t.cameras && t.cameras[c].store == store ==>
      t.cameras[c].sourceKey.None? && t.cameras[c].connector.None?;
    AdoptionOfKeyless(u, t.nextId);
  }

  lemma AdoptedIsSound(t: Tables, id: nat)
    requires Sound(t)
    ensures Sound(Adopted(t, id))
  {
    var u := Adopted(t, id);
    assert forall s: nat, k: nat :: OwnsStore(t, s, k) <==> OwnsStore(u, s, k);
    assert forall s: nat :: HasConnector(t, s) ==> HasConnector(u, s);
  }

  lemma ClaimedIsSound(t: Tables, code: nat, apiKey: nat)
    requires Sound(t) && code in t.codes && t.codes[code].store in t.stores
    ensures Sound(Claimed(t, code, apiKey))
  {
    var consumed := t.(codes := t.codes[code := t.codes[code].(usedAt := Some(t.now))]);
    SameRowsSound(t, consumed);
    PairedIsSound(consumed, t.codes[code].store, apiKey);
    AdoptedIsSound(Paired(consumed, t.codes[code].store, apiKey), t.nextId);
  }

  lemma SameRowsSound(t: Tables, u: Tables)
    requires Sound(t) && u.connectors == t.connectors && u.cameras == t.cameras && t.stores <= u.stores
    requires t.nextId <= u.nextId && forall k :: k in u.codes ==> k < u.nextId
    ensures Sound(u)
  {
    assert forall s: nat, k: nat :: OwnsStore(t, s, k) <==> OwnsStore(u, s, k);
    assert forall s: nat :: HasConnector(t, s) ==> HasConnector(u, s);
  }

  lemma UpsertedIsSound(t: Tables, connector: nat, key: string, details: Details)
    requires Sound(t) && connector in t.connectors
    ensures Sound(Upserted(t, connector, key, details))
    ensures KeyedAs(Upserted(t, connector, key, details), connector, key, CameraOf(t, connector, key))
  {
    var u := Upserted(t, connector, key, details);
    assert OwnsStore(t, t.connectors[connector].store, connector);
    assert forall s: nat, k: nat :: OwnsStore(t, s, k) <==> OwnsStore(u, s, k);
    assert forall s: nat :: HasConnector(t, s) ==> HasConnector(u, s);
    if !HasCamera(t, connector, key) {
      forall c | c in t.cameras ensures !SameKey(t.cameras[c], u.cameras[t.nextId]) {
        assert !KeyedAs(t, connector, key, c);
      }
    }
  }

  lemma DashboardIsSound(t: Tables, store: nat, details: Details)
    requires Sound(t)
    ensures Sound(DashboardCamera(t, store, details))
  {
    var u := DashboardCamera(t, store, details);
    assert forall s: nat, k: nat :: OwnsStore(t, s, k) <==> OwnsStore(u, s, k);
    assert forall s: nat :: HasConnector(t, s) ==> HasConnector(u, s);
  }

  /** It goes to the connector of its store, if there is one, and moves no other camera. */
  lemma DashboardCameraExactly(t: Tables, store: nat, details: Details, id: nat)
    requires Sound(t)
    ensures var u := DashboardCamera(t, store, details);
      && u.cameras.Keys == t.cameras.Keys + {t.nextId}
      && (forall c :: c in t.cameras ==> u.cameras[c] == t.cameras[c])
      && var camera := u.cameras[t.nextId];
         camera.store == store && camera.details == details && camera.sourceKey == None
         && (camera.connector == Some(id) <==> OwnsStore(t, store, id))
  {
  }

  lemma FinalizedIsSound(t: Tables, connector: nat, keys: set<string>)
    requires Sound(t)
    ensures Sound(Finalized(t, connector, keys))
  {
    var u := Finalized(t, connector, keys);
    assert forall s: nat, k: nat :: OwnsStore(t, s, k) <==> OwnsStore(u, s, k);
    assert forall s: nat :: HasConnector(t, s) ==> HasConnector(u, s);
  }

  // ----- finalize, in its own terms -----

  ghost predicate AllProvisioned(t: Tables, connector: nat, keys: set<string>) {
    forall k :: k in keys ==> HasCamera(t, connector, k)
  }

  function KeysOf(t: Tables, cameras: set<nat>): set<string>
    requires forall c :: c in cameras ==> c in t.cameras && t.cameras[c].sourceKey.Some?
  {
    set c | c in cameras :: t.cameras[c].sourceKey.value
  }

  /** Among the cameras of one connector, keys and cameras correspond one to one. */
  lemma {:induction false} AsManyKeysAsCameras(t: Tables, connector: nat, cameras: set<nat>)
    requires UniqueKeys(t.cameras)
    requires forall c :: c in cameras ==>
      c in t.cameras && t.cameras[c].sourceKey.Some? && t.cameras[c].connector == Some(connector)
    ensures |KeysOf(t, cameras)| == |cameras|
    decreases cameras
  {
    if cameras != {} {
      var c :| c in cameras;
      var rest := cameras - {c};
      AsManyKeysAsCameras(t, connector, rest);
      var key := t.cameras[c].sourceKey.value;
      forall d | d in rest ensures t.cameras[d].sourceKey.value != key {
        assert !SameKey(t.cameras[c], t.cameras[d]);
      }
      assert key !in KeysOf(t, rest);
      assert KeysOf(t, cameras) == KeysOf(t, rest) + {key};
    }
  }

  /** Comparing two counts tells whether every key of the set has its camera. */
  lemma CountTellsAll(t: Tables, connector: nat, keys: set<string>)
    requires UniqueKeys(t.cameras)
    ensures |Provisioned(t, connector, keys)| == |keys| <==> AllProvisioned(t, connector, keys)
  {
    var found := Provisioned(t, connector, keys);
    AsManyKeysAsCameras(t, connector, found);
    var have := KeysOf(t, found);
    assert have <= keys;
    forall k | k in keys ensures k in have <==> HasCamera(t, connector, k) {
      if c: nat :| KeyedAs(t, connector, k, c) {
        assert c in found;
      }
      if k in have {
        var c :| c in found && t.cameras[c].sourceKey.value == k;
        assert KeyedAs(t, connector, k, c);
      }
    }
    if AllProvisioned(t, connector, keys) {
      assert have == keys;
    } else {
      var k :| k in keys && !HasCamera(t, connector, k);
      SmallerSubset(have, keys, k);
    }
  }

  /** After finalize exactly the cameras of the set are attached, one for each key; other
      cameras are untouched. */
  lemma FinalizeLeavesExactlyTheSet(t: Tables, connector: nat, keys: set<string>)
    requires Sound(t) && AllProvisioned(t, connector, keys)
    ensures var u := Finalized(t, connector, keys);
      && (forall c :: c in u.cameras ==>
            (u.cameras[c].connector == Some(connector) <==> c in Provisioned(t, connector, keys)))
      && |Provisioned(t, connector, keys)| == |keys|
      && (forall c :: c in t.cameras && t.cameras[c].connector != Some(connector) ==> u.cameras[c] == t.cameras[c])
  {
    CountTellsAll(t, connector, keys);
  }

  /** A second finalize with the same set succeeds and changes nothing. */
  lemma FinalizeIsIdempotent(t: Tables, connector: nat, keys: set<string>)
    requires AllProvisioned(t, connector, keys)
    ensures var u := Finalized(t, connector, keys);
      AllProvisioned(u, connector, keys) && Finalized(u, connector, keys) == u
  {
    var u := Finalized(t, connector, keys);
    forall k | k in keys ensures HasCamera(u, connector, k) {
      var c: nat :| KeyedAs(t, connector, k, c);
      assert KeyedAs(u, connector, k, c);
    }
    assert Finalized(u, connector, keys).cameras == u.cameras;
  }
}
