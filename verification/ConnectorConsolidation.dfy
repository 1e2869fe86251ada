/** The start-up SQL that leaves each store one connector (backend/Data/DbSeeder.cs). */
module ConnectorConsolidation {
  import opened Wrappers

  datatype ConnectorRow = ConnectorRow(store: nat, lastHeartbeat: Option<int>, createdAt: int)

  datatype CameraRow = CameraRow(store: nat, connector: Option<nat>, sourceKey: Option<string>)

  /** Row ids are numbers in the order in which the database compares them. */
  datatype Tables = Tables(
    stores: set<nat>, connectors: map<nat, ConnectorRow>, cameras: map<nat, CameraRow>,
    clips: map<nat, Option<nat>>)

  // ----- the keeper of a store -----

  /** ORDER BY "LastHeartbeat" DESC NULLS LAST, "CreatedAt" DESC, "Id". */
  predicate Precedes(a: nat, r: ConnectorRow, b: nat, s: ConnectorRow) {
    if r.lastHeartbeat != s.lastHeartbeat then
      r.lastHeartbeat.Some? && (s.lastHeartbeat.None? || r.lastHeartbeat.value > s.lastHeartbeat.value)
    else if r.createdAt != s.createdAt then r.createdAt > s.createdAt
    else a < b
  }

  /** Row number one of its store. */
  ghost predicate IsKeeper(connectors: map<nat, ConnectorRow>, id: nat) {
    id in connectors && forall k :: k in connectors && SameStore(connectors, id, k) && k != id ==>
      Precedes(id, connectors[id], k, connectors[k])
  }

  predicate SameStore(connectors: map<nat, ConnectorRow>, a: nat, b: nat) {
    a in connectors && b in connectors && connectors[a].store == connectors[b].store
  }

  ghost predicate Keeps(connectors: map<nat, ConnectorRow>, id: nat, keeper: nat) {
    IsKeeper(connectors, keeper) && SameStore(connectors, id, keeper)
  }

  lemma KeeperIsUnique(connectors: map<nat, ConnectorRow>, id: nat, a: nat, b: nat)
    requires Keeps(connectors, id, a) && Keeps(connectors, id, b)
    ensures a == b
  {
    assert SameStore(connectors, a, b) && SameStore(connectors, b, a);
  }

  /** FIRST_VALUE over the partition of `id`. */
  method FirstValue(connectors: map<nat, ConnectorRow>, id: nat) returns (keeper: nat)
    requires id in connectors
    ensures Keeps(connectors, id, keeper)
  {
    keeper := id;
    var todo := connectors.Keys;
    while todo != {}
      invariant todo <= connectors.Keys && SameStore(connectors, id, keeper)
      invariant forall k :: k in connectors && k !in todo && SameStore(connectors, keeper, k) && k != keeper ==>
        Precedes(keeper, connectors[keeper], k, connectors[k])
    {
      var k :| k in todo;
      if SameStore(connectors, id, k) && Precedes(k, connectors[k], keeper, connectors[keeper]) {
        keeper := k;
      }
      todo := todo - {k};
    }
  }

  /** `b` comes first among the rows of its store in `todo`. */
  ghost predicate LeadsIn(connectors: map<nat, ConnectorRow>, todo: set<nat>, b: nat) {
    && b in connectors && b in todo
    && forall k :: k in todo && SameStore(connectors, b, k) && k != b ==>
         Precedes(b, connectors[b], k, connectors[k])
  }

  lemma PrecedesIsTotalOrder(a: nat, r: ConnectorRow, b: nat, s: ConnectorRow, c: nat, t: ConnectorRow)
    ensures Precedes(a, r, b, s) && Precedes(b, s, c, t) ==> Precedes(a, r, c, t)
    ensures a != b ==> (Precedes(a, r, b, s) <==> !Precedes(b, s, a, r))
  {
  }

  lemma {:induction false} LeadExists(connectors: map<nat, ConnectorRow>, id: nat, todo: set<nat>) returns (b: nat)
    requires id in todo && todo <= connectors.Keys
    ensures LeadsIn(connectors, todo, b) && SameStore(connectors, id, b)
    decreases todo
  {
    if d: nat :| d in todo && d != id {
      b := LeadExists(connectors, id, todo - {d});
      forall k: nat | k in todo {
        PrecedesIsTotalOrder(d, connectors[d], b, connectors[b], k, connectors[k]);
      }
      if SameStore(connectors, id, d) && Precedes(d, connectors[d], b, connectors[b]) {
        b := d;
      }
    } else {
      assert todo == {id};
      b := id;
    }
  }

  lemma KeeperExists(connectors: map<nat, ConnectorRow>, id: nat)
    requires id in connectors
    ensures exists k: nat :: Keeps(connectors, id, k)
  {
    var b := LeadExists(connectors, id, connectors.Keys);
    assert Keeps(connectors, id, b);
  }

  ghost function Keeper(connectors: map<nat, ConnectorRow>, id: nat): nat
    requires id in connectors
  {
    KeeperExists(connectors, id);
    var k: nat :| Keeps(connectors, id, k);
    k
  }

  // ----- what the script makes of the tables -----

  predicate Live(t: Tables, id: nat) {
    id in t.connectors && t.connectors[id].store in t.stores
  }

  ghost function SettledCamera(t: Tables, connector: Option<nat>): Option<nat> {
    if connector.Some? && Live(t, connector.value) then Some(Keeper(t.connectors, connector.value)) else None
  }

  /** A clip whose connector is in no table keeps its reference. */
  ghost function SettledClip(t: Tables, connector: Option<nat>): Option<nat> {
    if connector.Some? && connector.value !in t.connectors then connector else SettledCamera(t, connector)
  }

  ghost function Consolidated(t: Tables): Tables {
    Tables(
      t.stores,
      map id | id in t.connectors && Live(t, id) && IsKeeper(t.connectors, id) :: t.connectors[id],
      map c | c in t.cameras :: t.cameras[c].(connector := SettledCamera(t, t.cameras[c].connector)),
      map c | c in t.clips :: SettledClip(t, t.clips[c]))
  }

  /** The index on ("ConnectorId", "SourceKey") where the key is not null. */
  predicate SameKey(r: CameraRow, s: CameraRow) {
    r.connector.Some? && r.connector == s.connector && r.sourceKey.Some? && r.sourceKey == s.sourceKey
  }

  predicate UniqueKeys(cameras: map<nat, CameraRow>) {
    forall c, d :: c in cameras && d in cameras && c != d ==> !SameKey(cameras[c], cameras[d])
  }

  /** Two cameras whose connectors belong to one store share a key. */
  predicate Clash(connectors: map<nat, ConnectorRow>, r: CameraRow, s: CameraRow) {
    && r.connector.Some? && s.connector.Some? && SameStore(connectors, r.connector.value, s.connector.value)
    && r.sourceKey.Some? && r.sourceKey == s.sourceKey
  }

  predicate NoClash(t: Tables) {
    forall c, d :: c in t.cameras && d in t.cameras && c != d ==> !Clash(t.connectors, t.cameras[c], t.cameras[d])
  }

  /** The unique index and the foreign keys the script installs. */
  predicate OnePerStore(connectors: map<nat, ConnectorRow>) {
    forall a, b :: a in connectors && b in connectors && a != b ==> connectors[a].store != connectors[b].store
  }

  predicate ConnectorsHaveStores(t: Tables) {
    forall id :: id in t.connectors ==> t.connectors[id].store in t.stores
  }

  predicate CamerasHaveConnectors(t: Tables) {
    forall c :: c in t.cameras && t.cameras[c].connector.Some? ==> t.cameras[c].connector.value in t.connectors
  }

  // ----- the first half: every reference to its keeper -----

  ghost function Moved(connectors: map<nat, ConnectorRow>, connector: Option<nat>): Option<nat> {
    if connector.Some? && connector.value in connectors then Some(Keeper(connectors, connector.value)) else connector
  }

  ghost function MovedRow(connectors: map<nat, ConnectorRow>, r: CameraRow): CameraRow {
    r.(connector := Moved(connectors, r.connector))
  }

  ghost function Merged(t: Tables): Tables {
    Tables(
      t.stores,
      map id | id in t.connectors && IsKeeper(t.connectors, id) :: t.connectors[id],
      map c | c in t.cameras :: MovedRow(t.connectors, t.cameras[c]),
      map c | c in t.clips :: Moved(t.connectors, t.clips[c]))
  }

  lemma KeeperIs(connectors: map<nat, ConnectorRow>, id: nat, k: nat)
    requires Keeps(connectors, id, k)
    ensures id in connectors && Keeper(connectors, id) == k
    ensures IsKeeper(connectors, id) <==> k == id
  {
    KeeperIsUnique(connectors, id, k, Keeper(connectors, id));
    if IsKeeper(connectors, id) {
      KeeperIsUnique(connectors, id, k, id);
    }
  }

  lemma KeepersOfOneStore(connectors: map<nat, ConnectorRow>, a: nat, b: nat)
    requires a in connectors && b in connectors
    ensures Keeper(connectors, a) == Keeper(connectors, b) <==> SameStore(connectors, a, b)
    ensures Keeps(connectors, a, Keeper(connectors, a))
  {
    if SameStore(connectors, a, b) {
      KeeperIsUnique(connectors, a, Keeper(connectors, a), Keeper(connectors, b));
    }
  }

  /** Moving a row onto a key in use is a clash of the original rows, whether or not the other
      row has been moved yet. */
  lemma CollisionIsClash(connectors: map<nat, ConnectorRow>, r: CameraRow, s: CameraRow)
    requires r.connector.Some? && r.connector.value in connectors
    ensures SameKey(MovedRow(connectors, s), MovedRow(connectors, r)) <==> Clash(connectors, s, r)
    ensures SameKey(s, MovedRow(connectors, r)) ==> Clash(connectors, s, r)
  {
    KeepersOfOneStore(connectors, r.connector.value, r.connector.value);
    if s.connector.Some? && s.connector.value in connectors {
      KeepersOfOneStore(connectors, s.connector.value, r.connector.value);
    }
  }

  /** The index survives the move exactly when the rows did not clash. */
  lemma UniqueAfterMove(t: Tables)
    requires UniqueKeys(t.cameras)
    ensures UniqueKeys(Merged(t).cameras) <==> NoClash(t)
  {
    forall c, d | c in t.cameras && d in t.cameras && c != d
      ensures SameKey(Merged(t).cameras[c], Merged(t).cameras[d]) <==> Clash(t.connectors, t.cameras[c], t.cameras[d])
    {
      var r, s := t.cameras[c], t.cameras[d];
      if s.connector.Some? && s.connector.value in t.connectors {
        CollisionIsClash(t.connectors, s, r);
      } else if r.connector.Some? && r.connector.value in t.connectors {
        CollisionIsClash(t.connectors, r, s);
      } else {
        assert !SameKey(r, s);
      }
    }
  }

  // ----- the script -----

  class Database {
    var tables: Tables

    constructor (t: Tables)
      ensures tables == t
    {
      tables := t;
    }

    /** UPDATE "Cameras": row by row in any order, the index checked at every row. */
    method MoveCameras() returns (ok: bool)
      requires UniqueKeys(tables.cameras)
      modifies this
      ensures ok <==> NoClash(old(tables))
      ensures ok ==> tables == old(tables).(cameras := Merged(old(tables)).cameras)
    {
      ghost var t := tables;
      var connectors, cameras, todo := tables.connectors, tables.cameras, tables.cameras.Keys;
      while todo != {}
        invariant tables == t && todo <= cameras.Keys == t.cameras.Keys && UniqueKeys(cameras)
        invariant forall c :: c in t.cameras ==>
          cameras[c] == if c in todo then t.cameras[c] else MovedRow(connectors, t.cameras[c])
      {
        var c :| c in todo;
        var row := cameras[c];
        if row.connector.Some? && row.connector.value in connectors {
          var keeper := FirstValue(connectors, row.connector.value);
          KeeperIs(connectors, row.connector.value, keeper);
          if keeper != row.connector.value {
            var next := row.(connector := Some(keeper));
            assert next == MovedRow(connectors, row);
            if d :| d in cameras && d != c && SameKey(cameras[d], next) {
              CollisionIsClash(connectors, row, t.cameras[d]);
              return false;
            }
            cameras := cameras[c := next];
          }
        }
        todo := todo - {c};
      }
      assert cameras == Merged(t).cameras;
      UniqueAfterMove(t);
      tables := tables.(cameras := cameras);
      return true;
    }

    /** UPDATE "Clips". */
    method MoveClips()
      modifies this
      ensures tables == old(tables).(clips := Merged(old(tables)).clips)
    {
      ghost var t := tables;
      var connectors, clips, todo := tables.connectors, tables.clips, tables.clips.Keys;
      while todo != {}
        invariant tables == t && todo <= clips.Keys == t.clips.Keys
        invariant forall c :: c in t.clips ==>
          clips[c] == if c in todo then t.clips[c] else Moved(connectors, t.clips[c])
      {
        var c :| c in todo;
        if clips[c].Some? && clips[c].value in connectors {
          var keeper := FirstValue(connectors, clips[c].value);
          KeeperIs(connectors, clips[c].value, keeper);
          if keeper != clips[c].value {
            clips := clips[c := Some(keeper)];
          }
        }
        todo := todo - {c};
      }
      assert clips == Merged(t).clips;
      tables := tables.(clips := clips);
    }

    /** DELETE FROM "Connectors" WHERE row_number > 1. */
    method DeleteDuplicates()
      modifies this
      ensures tables == old(tables).(connectors := Merged(old(tables)).connectors)
    {
      ghost var t := tables;
      var connectors, todo := tables.connectors, tables.connectors.Keys;
      while todo != {}
        invariant tables == t && todo <= connectors.Keys <= t.connectors.Keys
        invariant forall id :: id in t.connectors ==> (id in connectors <==> id in todo || IsKeeper(t.connectors, id))
        invariant forall id :: id in connectors ==> connectors[id] == t.connectors[id]
      {
        var id :| id in todo;
        var keeper := FirstValue(tables.connectors, id);
        KeeperIs(t.connectors, id, keeper);
        if keeper != id {
          connectors := connectors - {id};
        }
        todo := todo - {id};
      }
      assert connectors == Merged(t).connectors;
      tables := tables.(connectors := connectors);
    }

    /** The rest of the updates and deletes, each over whole tables. */
    method RemoveOrphans()
      modifies this
      ensures tables == Settled(old(tables))
    {
      var t := tables;
      var orphans := set id | id in t.connectors && t.connectors[id].store !in t.stores;
      tables := tables.(cameras := Detached(t.cameras, orphans));
      tables := tables.(clips := map c | c in t.clips ::
        if t.clips[c].Some? && t.clips[c].value in orphans then None else t.clips[c]);
      tables := tables.(connectors := map id | id in t.connectors && id !in orphans :: t.connectors[id]);
      var dangling := set c | c in tables.cameras && tables.cameras[c].connector.Some?
        && tables.cameras[c].connector.value !in tables.connectors :: tables.cameras[c].connector.value;
      DetachingSettles(t, orphans, tables.connectors, dangling);
      tables := tables.(cameras := Detached(tables.cameras, dangling));
    }

    /** The whole batch is one transaction: a violated constraint undoes all of it. It goes
        through exactly when no key is used twice among the cameras of one store's connectors
        (nor under one connector id); the later constraints never fail. */
    method Consolidate() returns (ok: bool)
      modifies this
      ensures ok <==> UniqueKeys(old(tables).cameras) && NoClash(old(tables))
      ensures tables == if ok then Consolidated(old(tables)) else old(tables)
    {
      var before := tables;
      if !UniqueKeys(before.cameras) {
        return false;
      }
      ok := MoveCameras();
      if ok {
        MoveClips();
        DeleteDuplicates();
        assert tables == Merged(before);
        OneKeeperPerStore(before);
        var indexed := OnePerStore(tables.connectors);
        RemoveOrphans();
        SettledIsConsolidated(before);
        ConsolidatedIsSound(before);
        ok := indexed && ConnectorsHaveStores(tables) && CamerasHaveConnectors(tables);
      }
      if !ok {
        tables := before;
      }
    }
  }

  function Detached(cameras: map<nat, CameraRow>, connectors: set<nat>): map<nat, CameraRow> {
    map c | c in cameras ::
      if cameras[c].connector.Some? && cameras[c].connector.value in connectors
      then cameras[c].(connector := None) else cameras[c]
  }

  ghost predicate Orphan(t: Tables, id: nat) {
    id in t.connectors && t.connectors[id].store !in t.stores
  }

  ghost function Settled(t: Tables): Tables {
    Tables(
      t.stores,
      map id | id in t.connectors && Live(t, id) :: t.connectors[id],
      map c | c in t.cameras ::
        t.cameras[c].(connector := if t.cameras[c].connector.Some? && Live(t, t.cameras[c].connector.value)
                                   then t.cameras[c].connector else None),
      map c | c in t.clips :: if t.clips[c].Some? && Orphan(t, t.clips[c].value) then None else t.clips[c])
  }

  ghost predicate Dangles(cameras: map<nat, CameraRow>, connectors: map<nat, ConnectorRow>, id: nat) {
    id !in connectors && exists c :: c in cameras && cameras[c].connector == Some(id)
  }

  /** Detaching from the orphans and then from whatever does not exist leaves the live ones. */
  lemma DetachingSettles(t: Tables, orphans: set<nat>, live: map<nat, ConnectorRow>, dangling: set<nat>)
    requires forall id :: id in orphans <==> Orphan(t, id)
    requires forall id :: id in live <==> Live(t, id)
    requires forall id :: id in dangling <==> Dangles(Detached(t.cameras, orphans), live, id)
    ensures Detached(Detached(t.cameras, orphans), dangling) == Settled(t).cameras
  {
    var once := Detached(t.cameras, orphans);
    forall c | c in t.cameras ensures Detached(once, dangling)[c] == Settled(t).cameras[c] {
      var camera := t.cameras[c];
      if camera.connector.Some? && !Live(t, camera.connector.value) && !Orphan(t, camera.connector.value) {
        assert once[c] == camera && Dangles(once, live, camera.connector.value);
      }
    }
  }

  lemma OneKeeperPerStore(t: Tables)
    ensures OnePerStore(Merged(t).connectors)
  {
    forall a, b | a in Merged(t).connectors && b in Merged(t).connectors && a != b
      ensures t.connectors[a].store != t.connectors[b].store
    {
      if SameStore(t.connectors, a, b) {
        KeeperIsUnique(t.connectors, a, a, b);
      }
    }
  }

  lemma MovedLiveness(t: Tables, connector: Option<nat>)
    requires connector.Some?
    ensures var m := Moved(t.connectors, connector);
      && m.Some?
      && (Live(Merged(t), m.value) <==> Live(t, connector.value))
      && (Orphan(Merged(t), m.value) <==> Orphan(t, connector.value))
      && (Live(t, connector.value) ==> m == Some(Keeper(t.connectors, connector.value)))
      && (connector.value !in t.connectors ==> m == connector)
  {
    var id := connector.value;
    if id in t.connectors {
      KeepersOfOneStore(t.connectors, id, id);
    }
  }

  lemma SettledIsConsolidated(t: Tables)
    ensures Settled(Merged(t)) == Consolidated(t)
  {
    forall c | c in t.cameras ensures Settled(Merged(t)).cameras[c] == Consolidated(t).cameras[c] {
      if t.cameras[c].connector.Some? {
        MovedLiveness(t, t.cameras[c].connector);
      }
    }
    forall c | c in t.clips ensures Settled(Merged(t)).clips[c] == Consolidated(t).clips[c] {
      if t.clips[c].Some? {
        MovedLiveness(t, t.clips[c]);
      }
    }
    assert Settled(Merged(t)).cameras == Consolidated(t).cameras;
    assert Settled(Merged(t)).clips == Consolidated(t).clips;
    assert Settled(Merged(t)).connectors == Consolidated(t).connectors;
  }

  /** Every constraint holds of the result. */
  lemma ConsolidatedIsSound(t: Tables)
    ensures var u := Consolidated(t);
      ConnectorsHaveStores(u) && CamerasHaveConnectors(u) && OnePerStore(u.connectors)
  {
    OneKeeperPerStore(t);
    forall c | c in t.cameras && SettledCamera(t, t.cameras[c].connector).Some?
      ensures SettledCamera(t, t.cameras[c].connector).value in Consolidated(t).connectors
    {
      MovedLiveness(t, t.cameras[c].connector);
      KeepersOfOneStore(t.connectors, t.cameras[c].connector.value, t.cameras[c].connector.value);
    }
    forall a, b | a in Consolidated(t).connectors && b in Consolidated(t).connectors && a != b
      ensures t.connectors[a].store != t.connectors[b].store
    {
      assert a in Merged(t).connectors && b in Merged(t).connectors;
    }
  }

  // ----- what the result keeps -----

  /** No row of a camera or clip is lost, and nothing of it but its connector changes. */
  lemma RowsAreKept(t: Tables)
    ensures var u := Consolidated(t);
      && u.stores == t.stores && u.cameras.Keys == t.cameras.Keys && u.clips.Keys == t.clips.Keys
      && u.connectors.Keys <= t.connectors.Keys
      && forall c :: c in t.cameras ==>
           u.cameras[c].store == t.cameras[c].store && u.cameras[c].sourceKey == t.cameras[c].sourceKey
  {
  }

  /** The store a connector reference belongs to, if any. */
  function OwningStore(t: Tables, connector: Option<nat>): Option<nat> {
    if connector.Some? && Live(t, connector.value) then Some(t.connectors[connector.value].store) else None
  }

  /** Every camera and clip stays with the store that owned it through a connector; references
      to connectors of vanished stores are dropped, and so are a camera's references to no
      connector at all, while a clip keeps those. */
  lemma OwnershipIsKept(t: Tables, connector: Option<nat>)
    ensures OwningStore(Consolidated(t), SettledCamera(t, connector)) == OwningStore(t, connector)
    ensures OwningStore(Consolidated(t), SettledClip(t, connector)) == OwningStore(t, connector)
    ensures OwningStore(t, connector).None? ==> SettledCamera(t, connector) == None
    ensures OwningStore(t, connector).None? ==>
      SettledClip(t, connector) == if connector.Some? && connector.value in t.connectors then None else connector
  {
    if connector.Some? && connector.value in t.connectors {
      KeepersOfOneStore(t.connectors, connector.value, connector.value);
    }
  }

  /** A store has a connector afterwards exactly when it exists and had one, and that one was
      the most recently active of all it had. */
  lemma OneConnectorPerStore(t: Tables, store: nat)
    ensures (exists id: nat :: Live(t, id) && t.connectors[id].store == store)
      <==> exists id: nat :: RemainsFor(t, store, id)
    ensures forall a: nat, b: nat :: RemainsFor(t, store, a) && RemainsFor(t, store, b) ==> a == b
    ensures forall a: nat, b: nat ::
      RemainsFor(t, store, a) && Live(t, b) && t.connectors[b].store == store && a != b ==>
      Precedes(a, t.connectors[a], b, t.connectors[b])
  {
    if id: nat :| Live(t, id) && t.connectors[id].store == store {
      KeepersOfOneStore(t.connectors, id, id);
      assert RemainsFor(t, store, Keeper(t.connectors, id));
    }
    ConsolidatedIsSound(t);
    forall a: nat, b: nat | RemainsFor(t, store, a) && Live(t, b) && t.connectors[b].store == store && a != b
      ensures Precedes(a, t.connectors[a], b, t.connectors[b])
    {
      assert SameStore(t.connectors, a, b);
    }
  }

  /** In dates: no other connector of the store was heard of later; among those heard of as late
      none was created later; and among these none has a lower id. */
  lemma MostRecentlyHeardOf(t: Tables, store: nat, kept: nat, other: nat)
    requires RemainsFor(t, store, kept) && other != kept
    requires Live(t, other) && t.connectors[other].store == store
    ensures var a, b := t.connectors[kept], t.connectors[other];
      && (b.lastHeartbeat.Some? ==> a.lastHeartbeat.Some? && a.lastHeartbeat.value >= b.lastHeartbeat.value)
      && (a.lastHeartbeat == b.lastHeartbeat ==> a.createdAt >= b.createdAt)
      && (a.lastHeartbeat == b.lastHeartbeat && a.createdAt == b.createdAt ==> kept < other)
  {
    OneConnectorPerStore(t, store);
  }

  ghost predicate RemainsFor(t: Tables, store: nat, id: nat) {
    id in Consolidated(t).connectors && t.connectors[id].store == store
  }

  // ----- a second run -----

  /** Tables in the shape the script leaves behind. */
  ghost predicate IsConsolidated(t: Tables) {
    OnePerStore(t.connectors) && ConnectorsHaveStores(t) && CamerasHaveConnectors(t)
  }

  lemma LoneConnectorIsKeeper(t: Tables, id: nat)
    requires IsConsolidated(t) && id in t.connectors
    ensures Live(t, id) && Keeper(t.connectors, id) == id
  {
    KeepersOfOneStore(t.connectors, id, id);
    assert Keeper(t.connectors, id) in t.connectors;
  }

  lemma NothingLeftToDo(t: Tables)
    requires IsConsolidated(t)
    ensures Consolidated(t) == t
    ensures UniqueKeys(t.cameras) ==> NoClash(t)
  {
    forall id | id in t.connectors ensures Live(t, id) && Keeper(t.connectors, id) == id && IsKeeper(t.connectors, id) {
      LoneConnectorIsKeeper(t, id);
      KeepersOfOneStore(t.connectors, id, id);
    }
    assert Consolidated(t).connectors == t.connectors;
    forall c | c in t.cameras ensures SettledCamera(t, t.cameras[c].connector) == t.cameras[c].connector {
    }
    assert Consolidated(t).cameras == t.cameras;
    forall c | c in t.clips ensures SettledClip(t, t.clips[c]) == t.clips[c] {
    }
    assert Consolidated(t).clips == t.clips;
  }

  lemma KeysStayUnique(t: Tables)
    requires UniqueKeys(t.cameras) && NoClash(t)
    ensures UniqueKeys(Consolidated(t).cameras)
  {
    UniqueAfterMove(t);
    forall c | c in t.cameras && SettledCamera(t, t.cameras[c].connector).Some?
      ensures Consolidated(t).cameras[c] == Merged(t).cameras[c]
    {
      MovedLiveness(t, t.cameras[c].connector);
    }
  }

  /** Running the script again succeeds and changes nothing. */
  lemma SecondRunChangesNothing(t: Tables)
    requires UniqueKeys(t.cameras) && NoClash(t)
    ensures var u := Consolidated(t);
      UniqueKeys(u.cameras) && NoClash(u) && Consolidated(u) == u
  {
    KeysStayUnique(t);
    ConsolidatedIsSound(t);
    NothingLeftToDo(Consolidated(t));
  }
}
