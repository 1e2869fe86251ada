/** The requests of the setup protocol as methods on the backend, and every run of them. */
module StoreSetup {
  import opened Wrappers
  import opened SetupTables

  datatype SetupError =
    | Forbidden | UnknownStore | BadCode | StoreActive | BadKey | NoKeys | NotProvisioned | AdoptionFailed

  datatype FinalizeReport = FinalizeReport(active: nat, detached: nat)

  class Backend {
    var t: Tables

    constructor (t: Tables)
      ensures this.t == t
    {
      this.t := t;
    }

    /** The one connector row of a store, if there is one. */
    method FindConnector(store: nat) returns (id: Option<nat>)
      requires OneConnectorPerStore(t)
      ensures id == ConnectorOf(t, store)
    {
      var todo := t.connectors.Keys;
      while todo != {}
        invariant todo <= t.connectors.Keys
        invariant forall k: nat :: OwnsStore(t, store, k) ==> k in todo
      {
        var k :| k in todo;
        if t.connectors[k].store == store {
          ConnectorOfIs(t, store, k);
          return Some(k);
        }
        todo := todo - {k};
      }
      return None;
    }

    /** `PairAsync` up to its first save: `isNew` says whether the row was added. */
    method Pair(store: nat, apiKey: nat) returns (id: nat, isNew: bool)
      requires OneConnectorPerStore(t)
      modifies this
      ensures t == Paired(old(t), store, apiKey)
      ensures isNew == !HasConnector(old(t), store)
      ensures id == if isNew then old(t).nextId else ConnectorOf(old(t), store).value
    {
      var connector := FindConnector(store);
      var row := Connector(store, Some(t.now), true, apiKey);
      isNew := connector.None?;
      if isNew {
        id := t.nextId;
        t := t.(nextId := t.nextId + 1);
      } else {
        id := connector.value;
      }
      t := t.(connectors := t.connectors[id := row]);
    }

    /** Its bulk update, for a new connector only; a broken index fails it. */
    method Adopt(id: nat) returns (ok: bool)
      modifies this
      ensures t == Adopted(old(t), id)
      ensures id in t.connectors ==> (ok <==> UniqueKeys(Adopting(old(t), t.connectors[id].store, id)))
    {
      if id !in t.connectors {
        return false;
      }
      var cameras := Adopting(t, t.connectors[id].store, id);
      ok := UniqueKeys(cameras);
      if ok {
        t := t.(cameras := cameras);
      }
    }

    /** `Register`, with the shared key already checked. There is no transaction around it: when
        the index refuses the adoption the request fails, and the pairing stays. In sound tables
        that cannot happen. */
    method Register(store: nat, apiKey: nat) returns (r: Result<nat, SetupError>)
      requires OneConnectorPerStore(t)
      modifies this
      ensures var paired, isNew := Paired(old(t), store, apiKey), !HasConnector(old(t), store);
        var refused := isNew && !UniqueKeys(Adopting(paired, store, old(t).nextId));
        && (r.Ok? <==> store in old(t).stores && !refused)
        && (r == Err(AdoptionFailed) <==> store in old(t).stores && refused)
        && t == (if store !in old(t).stores then old(t)
                 else if isNew then Adopted(paired, old(t).nextId) else paired)
        && (refused ==> Adopted(paired, old(t).nextId) == paired)
      ensures Sound(old(t)) ==> (r.Ok? <==> store in old(t).stores)
    {
      if store !in t.stores {
        return Err(UnknownStore);
      }
      ghost var before := t;
      var id, isNew := Pair(store, apiKey);
      if isNew {
        if Sound(before) {
          FirstAdoptionFits(before, store, apiKey);
        }
        var adopted := Adopt(id);
        if !adopted {
          return Err(AdoptionFailed);
        }
      }
      return Ok(id);
    }

    method CreateSetupCode(store: nat, permitted: bool) returns (r: Result<nat, SetupError>)
      modifies this
      ensures r.Ok? <==> permitted && store in old(t).stores
      ensures r.Ok? ==> r.value == old(t).nextId && t == old(t).(
        codes := old(t).codes[old(t).nextId := SetupCode(store, old(t).now + CODE_LIFETIME, None)],
        nextId := old(t).nextId + 1)
      ensures r.Err? ==> t == old(t)
    {
      if !permitted {
        return Err(Forbidden);
      }
      if store !in t.stores {
        return Err(UnknownStore);
      }
      r := Ok(t.nextId);
      t := t.(codes := t.codes[t.nextId := SetupCode(store, t.now + CODE_LIFETIME, None)], nextId := t.nextId + 1);
    }

    /** The checks of `Claim` that come before its transaction. */
    method CheckClaim(code: nat) returns (r: Result<nat, SetupError>)
      ensures r.Ok? <==> MayClaim(t, code)
      ensures r.Ok? ==> r.value == t.codes[code].store
      ensures r == Err(StoreActive) <==> Claimable(t, code) && !MayClaim(t, code)
    {
      if code !in t.codes || t.codes[code].usedAt.Some? || t.codes[code].expiresAt < t.now {
        return Err(BadCode);
      }
      var store := t.codes[code].store;
      var todo := t.connectors.Keys;
      while todo != {}
        invariant todo <= t.connectors.Keys
        invariant forall k: nat :: OwnsStore(t, store, k) && Active(t.connectors[k], t.now) ==> k in todo
      {
        var k :| k in todo;
        var c := t.connectors[k];
        if c.store == store && c.running && c.heartbeat.Some? && c.heartbeat.value >= t.now - ACTIVE_SECONDS {
          assert OwnsStore(t, store, k);
          return Err(StoreActive);
        }
        todo := todo - {k};
      }
      return Ok(store);
    }

    /** Its transaction; the code is looked at again there, the connector is not. */
    method CommitClaim(code: nat, store: nat, apiKey: nat) returns (r: Result<nat, SetupError>)
      requires Sound(t)
      requires code in t.codes && t.codes[code].store == store
      modifies this
      ensures r.Ok? <==> Claimable(old(t), code)
      ensures t == if r.Ok? then Claimed(old(t), code, apiKey) else old(t)
    {
      if t.codes[code].usedAt.Some? || t.codes[code].expiresAt < t.now {
        return Err(BadCode);
      }
      ghost var before := t;
      t := t.(codes := t.codes[code := t.codes[code].(usedAt := Some(t.now))]);
      SameRowsSound(before, t);
      assert forall k: nat :: OwnsStore(before, store, k) <==> OwnsStore(t, store, k);
      var id, isNew := Pair(store, apiKey);
      if isNew {
        var adopted := Adopt(id);
      }
      return Ok(id);
    }

    /** Dashboard `Create`. */
    method CreateCamera(store: nat, details: Details, permitted: bool) returns (r: Result<nat, SetupError>)
      requires OneConnectorPerStore(t)
      modifies this
      ensures r.Ok? <==> permitted && store in old(t).stores
      ensures r.Ok? ==> r.value == old(t).nextId && t == DashboardCamera(old(t), store, details)
      ensures r.Err? ==> t == old(t)
    {
      if !permitted {
        return Err(Forbidden);
      }
      if store !in t.stores {
        return Err(UnknownStore);
      }
      var connector := FindConnector(store);
      r := Ok(t.nextId);
      t := t.(cameras := t.cameras[t.nextId := Camera(store, connector, None, details)], nextId := t.nextId + 1);
    }

    /** `ProvisionConnectorCameraAsync`, on a trimmed key. */
    method Provision(connector: nat, key: string, details: Details) returns (r: Result<nat, SetupError>)
      requires connector in t.connectors && UniqueKeys(t.cameras)
      modifies this
      ensures r.Ok? <==> 0 < |key| <= 128
      ensures r.Ok? ==> r.value == CameraOf(old(t), connector, key) && t == Upserted(old(t), connector, key, details)
      ensures r.Err? ==> t == old(t)
    {
      if key == "" || |key| > MAX_KEY_LENGTH {
        return Err(BadKey);
      }
      var todo := t.cameras.Keys;
      while todo != {}
        invariant t == old(t) && todo <= t.cameras.Keys
        invariant forall c: nat :: KeyedAs(t, connector, key, c) ==> c in todo
      {
        var c :| c in todo;
        if t.cameras[c].connector == Some(connector) && t.cameras[c].sourceKey == Some(key) {
          CameraIs(t, connector, key, c);
          t := t.(cameras := t.cameras[c := t.cameras[c].(details := details)]);
          return Ok(c);
        }
        todo := todo - {c};
      }
      r := Ok(t.nextId);
      var row := Camera(t.connectors[connector].store, Some(connector), Some(key), details);
      t := t.(cameras := t.cameras[t.nextId := row],
              nextId := t.nextId + 1);
    }

    /** `FinalizeSetup`, on trimmed keys. */
    method FinalizeSetup(connector: nat, sourceKeys: seq<string>) returns (r: Result<FinalizeReport, SetupError>)
      requires connector in t.connectors && UniqueKeys(t.cameras)
      modifies this
      ensures var keys := set k | k in sourceKeys && k != "";
        && (r.Ok? <==> keys != {} && AllProvisioned(old(t), connector, keys))
        && t == (if r.Ok? then Finalized(old(t), connector, keys) else old(t))
        && (r.Ok? ==> r.value == FinalizeReport(|keys|, |Outside(old(t), connector, keys)|))
    {
      var keys := set k | k in sourceKeys && k != "";
      if keys == {} {
        return Err(NoKeys);
      }
      CountTellsAll(t, connector, keys);
      if |Provisioned(t, connector, keys)| != |keys| {
        return Err(NotProvisioned);
      }
      var outside := Outside(t, connector, keys);
      t := t.(cameras := map c | c in t.cameras ::
        if c in outside then t.cameras[c].(connector := None) else t.cameras[c]);
      return Ok(FinalizeReport(|keys|, |outside|));
    }
  }

  /** The attached cameras without a key of the set. */
  function Outside(t: Tables, connector: nat, keys: set<string>): set<nat> {
    set c | c in t.cameras && t.cameras[c].connector == Some(connector)
      && (t.cameras[c].sourceKey.None? || t.cameras[c].sourceKey.value !in keys)
  }

  // ----- every run -----

  /** `pending` lists the claims that passed their checks, `consumed` the codes whose claim was
      committed, `adopting` the new connectors whose bulk update is still to come. */
  datatype World = World(t: Tables, pending: seq<nat>, consumed: seq<nat>, adopting: set<nat>)

  datatype Action =
    | AddStore(store: nat)
    | Tick(seconds: nat)
    | Issue(store: nat)
    | BeginClaim(code: nat)
    | CommitClaim(claim: nat, apiKey: nat)
    | Register(store: nat, apiKey: nat)
    | Adopt(id: nat)
    | Report(id: nat, heartbeat: Option<int>, running: bool)
    | Dashboard(store: nat, details: Details)
    | Provision(id: nat, key: string, details: Details)
    | Finalize(id: nat, keys: set<string>)

  ghost function Next(w: World, a: Action): World {
    var t := w.t;
    match a
    case AddStore(store) => w.(t := t.(stores := t.stores + {store}))
    case Tick(seconds) => w.(t := t.(now := t.now + seconds))
    case Issue(store) =>
      if store !in t.stores then w
      else
        w.(t := t.(codes := t.codes[t.nextId := SetupCode(store, t.now + CODE_LIFETIME, None)], nextId := t.nextId + 1))
    case BeginClaim(code) => if MayClaim(t, code) then w.(pending := w.pending + [code]) else w
    case CommitClaim(claim, apiKey) =>
      if claim < |w.pending| && Claimable(t, w.pending[claim]) then
        w.(t := Claimed(t, w.pending[claim], apiKey), consumed := w.consumed + [w.pending[claim]])
      else w
    case Register(store, apiKey) =>
      if store !in t.stores then w
      else w.(t := Paired(t, store, apiKey),
              adopting := if HasConnector(t, store) then w.adopting else w.adopting + {t.nextId})
    case Adopt(id) => if id in w.adopting then w.(t := Adopted(t, id), adopting := w.adopting - {id}) else w
    case Report(id, heartbeat, running) =>
      if id in t.connectors then
        w.(t := t.(connectors := t.connectors[id := t.connectors[id].(heartbeat := heartbeat, running := running)]))
      else w
    case Dashboard(store, details) => if store in t.stores then w.(t := DashboardCamera(t, store, details)) else w
    case Provision(id, key, details) => if id in t.connectors then w.(t := Upserted(t, id, key, details)) else w
    case Finalize(id, keys) =>
      if keys != {} && AllProvisioned(t, id, keys) then w.(t := Finalized(t, id, keys)) else w
  }

  ghost function Run(w: World, actions: seq<Action>): World
    decreases |actions|
  {
    if actions == [] then w else Run(Next(w, actions[0]), actions[1..])
  }

  const START := World(Tables({}, map[], map[], map[], 0, 0), [], [], {})

  ghost predicate CodesOnce(w: World) {
    && (forall i, j :: 0 <= i < j < |w.consumed| ==> w.consumed[i] != w.consumed[j])
    && (forall i :: 0 <= i < |w.pending| ==> w.pending[i] in w.t.codes)
    && (forall i :: 0 <= i < |w.consumed| ==> w.consumed[i] in w.t.codes)
    && (forall k :: k in w.t.codes ==> (w.t.codes[k].usedAt.Some? <==> k in w.consumed))
    && (forall k :: k in w.t.codes ==> w.t.codes[k].store in w.t.stores)
  }

  ghost predicate Invariant(w: World) {
    Sound(w.t) && CodesOnce(w)
  }

  lemma ReportIsSound(t: Tables, id: nat, row: Connector)
    requires Sound(t) && id in t.connectors && row.store == t.connectors[id].store
    ensures Sound(t.(connectors := t.connectors[id := row]))
  {
    var u := t.(connectors := t.connectors[id := row]);
    assert forall s: nat, k: nat :: OwnsStore(t, s, k) <==> OwnsStore(u, s, k);
    assert forall s: nat :: HasConnector(t, s) ==> HasConnector(u, s);
  }

  lemma NextIsSound(w: World, a: Action)
    requires Invariant(w)
    ensures Sound(Next(w, a).t)
  {
    var t := w.t;
    match a
    case AddStore(_) => SameRowsSound(t, Next(w, a).t);
    case Tick(_) => SameRowsSound(t, Next(w, a).t);
    case Issue(_) => SameRowsSound(t, Next(w, a).t);
    case BeginClaim(_) =>
    case CommitClaim(claim, apiKey) =>
      if claim < |w.pending| && Claimable(t, w.pending[claim]) {
        ClaimedIsSound(t, w.pending[claim], apiKey);
      }
    case Register(store, apiKey) => if store in t.stores { PairedIsSound(t, store, apiKey); }
    case Adopt(id) => AdoptedIsSound(t, id);
    case Report(id, heartbeat, running) =>
      if id in t.connectors {
        ReportIsSound(t, id, t.connectors[id].(heartbeat := heartbeat, running := running));
      }
    case Dashboard(store, details) => DashboardIsSound(t, store, details);
    case Provision(id, key, details) => if id in t.connectors { UpsertedIsSound(t, id, key, details); }
    case Finalize(id, keys) => FinalizedIsSound(t, id, keys);
  }

  lemma NextConsumesOnce(w: World, a: Action)
    requires Invariant(w)
    ensures CodesOnce(Next(w, a))
  {
    match a
    case CommitClaim(claim, apiKey) =>
      if claim < |w.pending| && Claimable(w.t, w.pending[claim]) {
        CommitConsumesOnce(w, w.pending[claim], apiKey);
      }
    case _ =>
  }

  lemma CommitConsumesOnce(w: World, code: nat, apiKey: nat)
    requires CodesOnce(w) && Claimable(w.t, code)
    ensures CodesOnce(w.(t := Claimed(w.t, code, apiKey), consumed := w.consumed + [code]))
  {
    assert code !in w.consumed;
  }

  /** Every reachable state: one connector per store, every attached camera at home, no source
      key twice under a connector, and no code consumed twice. */
  lemma {:induction false} Safety(w: World, actions: seq<Action>)
    requires Invariant(w)
    ensures Invariant(Run(w, actions))
    decreases |actions|
  {
    if actions != [] {
      NextIsSound(w, actions[0]);
      NextConsumesOnce(w, actions[0]);
      Safety(Next(w, actions[0]), actions[1..]);
    }
  }

  lemma StartIsSafe(actions: seq<Action>)
    ensures Invariant(Run(START, actions))
  {
    Safety(START, actions);
  }

  // ----- what follows about claims -----

  /** A claim for a store without a connector takes over every camera waiting there: since none
      of them can have a source key yet, the update never breaks the index. */
  lemma FirstClaimAdoptsEveryCamera(w: World, code: nat, apiKey: nat)
    requires Invariant(w) && code in w.t.codes && !HasConnector(w.t, w.t.codes[code].store)
    ensures var store, u := w.t.codes[code].store, Claimed(w.t, code, apiKey);
      && OwnsStore(u, store, w.t.nextId)
      && u.cameras.Keys == w.t.cameras.Keys
      && forall c :: c in w.t.cameras ==>
           u.cameras[c] == if w.t.cameras[c].store == store
                           then w.t.cameras[c].(connector := Some(w.t.nextId)) else w.t.cameras[c]
  {
    var t, store := w.t, w.t.codes[code].store;
    var consumed := t.(codes := t.codes[code := t.codes[code].(usedAt := Some(t.now))]);
    assert forall k: nat :: OwnsStore(t, store, k) <==> OwnsStore(consumed, store, k);
    SameRowsSound(t, consumed);
    FirstAdoptionFits(consumed, store, apiKey);
  }

  /** Pairing a store again leaves every camera as it is: what finalize detached stays detached. */
  lemma LaterClaimMovesNoCamera(w: World, code: nat, apiKey: nat)
    requires Invariant(w) && code in w.t.codes && HasConnector(w.t, w.t.codes[code].store)
    ensures Claimed(w.t, code, apiKey).cameras == w.t.cameras
    ensures Claimed(w.t, code, apiKey).connectors.Keys == w.t.connectors.Keys
  {
    var t, store := w.t, w.t.codes[code].store;
    var consumed := t.(codes := t.codes[code := t.codes[code].(usedAt := Some(t.now))]);
    assert forall k: nat :: OwnsStore(t, store, k) <==> OwnsStore(consumed, store, k);
  }

  /** The guard against a second PC is checked before the transaction only: with two good codes
      both claims pass it, and the second replaces the key of the connector the first has just
      made active. */
  lemma SecondClaimTakesOver(w: World, a: nat, b: nat, first: nat, second: nat)
    requires Invariant(w) && a != b && MayClaim(w.t, a) && MayClaim(w.t, b)
    requires w.t.codes[a].store == w.t.codes[b].store
    ensures var n, store := |w.pending|, w.t.codes[a].store;
      var mid := Next(Next(Next(w, BeginClaim(a)), BeginClaim(b)), CommitClaim(n, first));
      var end := Next(mid, CommitClaim(n + 1, second));
      && HasActiveConnector(mid.t, store)
      && end.consumed == mid.consumed + [b]
      && exists id: nat :: OwnsStore(end.t, store, id)
           && id in mid.t.connectors && mid.t.connectors[id].apiKey == first && end.t.connectors[id].apiKey == second
  {
    var n, store := |w.pending|, w.t.codes[a].store;
    var begun := Next(Next(w, BeginClaim(a)), BeginClaim(b));
    assert begun.t == w.t && begun.pending[n] == a && begun.pending[n + 1] == b;
    var mid := Next(begun, CommitClaim(n, first));
    NextIsSound(w, BeginClaim(a));
    NextConsumesOnce(w, BeginClaim(a));
    NextIsSound(Next(w, BeginClaim(a)), BeginClaim(b));
    NextConsumesOnce(Next(w, BeginClaim(a)), BeginClaim(b));
    var id := ClaimPairs(begun, a, first);
    assert mid.t == Claimed(w.t, a, first);
    assert Active(mid.t.connectors[id], mid.t.now);
    NextIsSound(begun, CommitClaim(n, first));
    NextConsumesOnce(begun, CommitClaim(n, first));
    var other := ClaimPairs(mid, b, second);
    assert OwnsStore(mid.t, store, id);
    ClaimKeepsOwner(mid, b, second, id);
    var end := Next(mid, CommitClaim(n + 1, second));
    assert end.t == Claimed(mid.t, b, second);
    assert OwnsStore(end.t, store, id) && OwnsStore(end.t, store, other);
  }

  /** The case arises: a store that was just added, and two codes issued for it. */
  const TWO_CODES: seq<Action> := [AddStore(0), Issue(0), Issue(0)]

  lemma TwoCodesIssued()
    ensures var w := Run(START, TWO_CODES);
      && MayClaim(w.t, 0) && MayClaim(w.t, 1) && w.t.codes[0].store == w.t.codes[1].store == 0
      && Invariant(w) && w.pending == []
  {
    StartIsSafe(TWO_CODES);
    var one := Next(START, AddStore(0));
    var two := Next(one, Issue(0));
    assert two.t.codes == map[0 := SetupCode(0, CODE_LIFETIME, None)];
    var w := Next(two, Issue(0));
    assert w.t.codes == two.t.codes[1 := SetupCode(0, CODE_LIFETIME, None)];
    assert TWO_CODES[1..] == [Issue(0), Issue(0)] && TWO_CODES[1..][1..] == [Issue(0)]
      && TWO_CODES[1..][1..][1..] == [];
    assert Run(START, TWO_CODES) == w;
  }

  lemma TwoClaimsOfANewStore(first: nat, second: nat)
    ensures var w := Run(START, TWO_CODES);
      var mid := Next(Next(Next(w, BeginClaim(0)), BeginClaim(1)), CommitClaim(0, first));
      var end := Next(mid, CommitClaim(1, second));
      && HasActiveConnector(mid.t, 0)
      && exists id: nat :: OwnsStore(end.t, 0, id)
           && id in mid.t.connectors && mid.t.connectors[id].apiKey == first && end.t.connectors[id].apiKey == second
  {
    TwoCodesIssued();
    SecondClaimTakesOver(Run(START, TWO_CODES), 0, 1, first, second);
  }

  lemma ClaimPairs(w: World, code: nat, apiKey: nat) returns (id: nat)
    requires Invariant(w) && code in w.t.codes
    ensures var u := Claimed(w.t, code, apiKey);
      && OwnsStore(u, w.t.codes[code].store, id)
      && u.connectors[id] == Connector(w.t.codes[code].store, Some(w.t.now), true, apiKey)
    ensures Sound(Claimed(w.t, code, apiKey)) && Claimed(w.t, code, apiKey).now == w.t.now
    ensures var codes := Claimed(w.t, code, apiKey).codes;
      forall k :: k in w.t.codes && k != code ==> k in codes && codes[k] == w.t.codes[k]
  {
    var t, store := w.t, w.t.codes[code].store;
    var consumed := t.(codes := t.codes[code := t.codes[code].(usedAt := Some(t.now))]);
    ClaimedIsSound(t, code, apiKey);
    assert forall k: nat :: OwnsStore(t, store, k) <==> OwnsStore(consumed, store, k);
    if HasConnector(t, store) {
      id := ConnectorOf(consumed, store).value;
    } else {
      id := t.nextId;
    }
  }

  lemma ClaimKeepsOwner(w: World, code: nat, apiKey: nat, id: nat)
    requires Invariant(w) && code in w.t.codes && OwnsStore(w.t, w.t.codes[code].store, id)
    ensures OwnsStore(Claimed(w.t, code, apiKey), w.t.codes[code].store, id)
  {
    LaterClaimMovesNoCamera(w, code, apiKey);
    var consumed := w.t.(codes := w.t.codes[code := w.t.codes[code].(usedAt := Some(w.t.now))]);
    assert OwnsStore(consumed, w.t.codes[code].store, id);
  }
}
