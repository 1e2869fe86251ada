/** When the guard against a second PC holds (`Claim` and `Register` of
    backend/Controllers/ConnectorsController.cs): it is checked once, before the transaction of
    a claim, and not at all by a registration. */
module ClaimGuard {
  import opened Wrappers
  import opened SetupTables
  import opened StoreSetup

  /** What decides whether a connector counts as active. */
  datatype Beat = Beat(heartbeat: Option<int>, running: bool)

  predicate Fresh(b: Beat, now: int) {
    b.running && b.heartbeat.Some? && b.heartbeat.value >= now - ACTIVE_SECONDS
  }

  ghost function BeatOf(t: Tables, store: nat): Option<Beat> {
    match ConnectorOf(t, store)
    case Some(id) =>
      if id in t.connectors then Some(Beat(t.connectors[id].heartbeat, t.connectors[id].running)) else None
    case None => None
  }

  lemma BeatIs(t: Tables, store: nat, id: nat)
    requires OneConnectorPerStore(t) && OwnsStore(t, store, id)
    ensures BeatOf(t, store) == Some(Beat(t.connectors[id].heartbeat, t.connectors[id].running))
  {
    ConnectorOfIs(t, store, id);
  }

  lemma ActiveIsFresh(t: Tables, store: nat)
    requires OneConnectorPerStore(t)
    ensures HasActiveConnector(t, store) <==> BeatOf(t, store).Some? && Fresh(BeatOf(t, store).value, t.now)
  {
    if id: nat :| OwnsStore(t, store, id) {
      BeatIs(t, store, id);
    }
  }

  // ----- the three requests that touch the connector of a store -----

  ghost predicate Commits(w: World, a: Action, store: nat) {
    && a.CommitClaim? && a.claim < |w.pending| && Claimable(w.t, w.pending[a.claim])
    && w.t.codes[w.pending[a.claim]].store == store
  }

  ghost predicate Registers(w: World, a: Action, store: nat) {
    a.Register? && a.store == store && store in w.t.stores
  }

  ghost predicate Reports(w: World, a: Action, store: nat) {
    a.Report? && OwnsStore(w.t, store, a.id)
  }

  /** What the request leaves on the store's connector, None when it does not touch it. */
  ghost function Written(w: World, a: Action, store: nat): Option<Beat> {
    if Commits(w, a, store) || Registers(w, a, store) then Some(Beat(Some(w.t.now), true))
    else if Reports(w, a, store) then Some(Beat(a.heartbeat, a.running))
    else None
  }

  lemma PairedBeat(t: Tables, store: nat, apiKey: nat, s: nat)
    requires Sound(t) && store in t.stores
    ensures BeatOf(Paired(t, store, apiKey), s) == if s == store then Some(Beat(Some(t.now), true)) else BeatOf(t, s)
    ensures forall id: nat :: OwnsStore(t, s, id) ==> OwnsStore(Paired(t, store, apiKey), s, id)
  {
    var u := Paired(t, store, apiKey);
    PairedIsSound(t, store, apiKey);
    if id: nat :| OwnsStore(t, s, id) {
      BeatIs(t, s, id);
      assert OwnsStore(u, s, id);
      BeatIs(u, s, id);
    } else if s == store {
      assert OwnsStore(u, s, t.nextId);
      BeatIs(u, s, t.nextId);
    } else {
      assert forall id: nat :: OwnsStore(u, s, id) ==> OwnsStore(t, s, id);
    }
  }

  lemma SameBeat(t: Tables, u: Tables, store: nat)
    requires OneConnectorPerStore(t) && OneConnectorPerStore(u) && u.connectors == t.connectors
    ensures BeatOf(u, store) == BeatOf(t, store)
  {
    assert forall id: nat :: OwnsStore(u, store, id) <==> OwnsStore(t, store, id);
    if id: nat :| OwnsStore(t, store, id) {
      BeatIs(t, store, id);
      BeatIs(u, store, id);
    }
  }

  lemma ClaimedBeat(w: World, code: nat, apiKey: nat, store: nat)
    requires Invariant(w) && code in w.t.codes
    ensures BeatOf(Claimed(w.t, code, apiKey), store)
      == if w.t.codes[code].store == store then Some(Beat(Some(w.t.now), true)) else BeatOf(w.t, store)
  {
    var t := w.t;
    var consumed := t.(codes := t.codes[code := t.codes[code].(usedAt := Some(t.now))]);
    SameRowsSound(t, consumed);
    SameBeat(t, consumed, store);
    PairedBeat(consumed, t.codes[code].store, apiKey, store);
    PairedIsSound(consumed, t.codes[code].store, apiKey);
    ClaimedIsSound(t, code, apiKey);
    SameBeat(Paired(consumed, t.codes[code].store, apiKey), Claimed(t, code, apiKey), store);
  }

  lemma ReportedBeat(w: World, a: Action, store: nat)
    requires Invariant(w) && a.Report?
    ensures BeatOf(Next(w, a).t, store)
      == if Reports(w, a, store) then Some(Beat(a.heartbeat, a.running)) else BeatOf(w.t, store)
  {
    var t, u := w.t, Next(w, a).t;
    NextIsSound(w, a);
    assert forall id: nat :: OwnsStore(u, store, id) <==> OwnsStore(t, store, id);
    if id: nat :| OwnsStore(t, store, id) {
      BeatIs(t, store, id);
      BeatIs(u, store, id);
      assert Reports(w, a, store) ==> a.id == id;
    }
  }

  /** One request: the store's connector carries what was written, or what it carried. */
  lemma BeatNext(w: World, a: Action, store: nat)
    requires Invariant(w)
    ensures BeatOf(Next(w, a).t, store)
      == if Written(w, a, store).Some? then Written(w, a, store) else BeatOf(w.t, store)
  {
    NextIsSound(w, a);
    match a
    case CommitClaim(claim, apiKey) =>
      if claim < |w.pending| && Claimable(w.t, w.pending[claim]) {
        ClaimedBeat(w, w.pending[claim], apiKey, store);
      }
    case Register(s, apiKey) =>
      if s in w.t.stores {
        PairedBeat(w.t, s, apiKey, store);
      }
    case Report(_, _, _) => ReportedBeat(w, a, store);
    case AddStore(_) => SameBeat(w.t, Next(w, a).t, store);
    case Tick(_) => SameBeat(w.t, Next(w, a).t, store);
    case Issue(_) => SameBeat(w.t, Next(w, a).t, store);
    case BeginClaim(_) => SameBeat(w.t, Next(w, a).t, store);
    case Adopt(_) => SameBeat(w.t, Next(w, a).t, store);
    case Dashboard(_, _) => SameBeat(w.t, Next(w, a).t, store);
    case Provision(_, _, _) => SameBeat(w.t, Next(w, a).t, store);
    case Finalize(_, _) => SameBeat(w.t, Next(w, a).t, store);
  }

  // ----- over a run -----

  lemma {:induction false} RunSnoc(w: World, actions: seq<Action>, a: Action)
    ensures Run(w, actions + [a]) == Next(Run(w, actions), a)
    decreases |actions|
  {
    if actions == [] {
      assert [] + [a] == [a];
    } else {
      assert (actions + [a])[1..] == actions[1..] + [a];
      RunSnoc(Next(w, actions[0]), actions[1..], a);
    }
  }

  /** What the k-th request of a run writes on the store's connector. */
  ghost function WrittenAt(w: World, actions: seq<Action>, k: nat, store: nat): Option<Beat>
    requires k < |actions|
  {
    Written(Run(w, actions[..k]), actions[k], store)
  }

  /** The k-th request is the last one to touch the store's connector. */
  ghost predicate LastTouch(w: World, actions: seq<Action>, k: nat, store: nat) {
    && k < |actions| && WrittenAt(w, actions, k, store).Some?
    && forall j: nat :: k < j < |actions| ==> WrittenAt(w, actions, j, store).None?
  }

  ghost predicate Untouched(w: World, actions: seq<Action>, store: nat) {
    forall j: nat :: j < |actions| ==> WrittenAt(w, actions, j, store).None?
  }

  lemma WrittenSnoc(w: World, rest: seq<Action>, a: Action, store: nat, k: nat)
    requires k <= |rest|
    ensures WrittenAt(w, rest + [a], k, store)
      == if k < |rest| then WrittenAt(w, rest, k, store) else Written(Run(w, rest), a, store)
  {
    assert (rest + [a])[..k] == rest[..k];
    assert rest[..|rest|] == rest;
  }

  lemma {:induction false} BeatAfter(w: World, actions: seq<Action>, store: nat) returns (k: nat)
    requires Invariant(w)
    ensures var end := BeatOf(Run(w, actions).t, store);
      if k < |actions| then LastTouch(w, actions, k, store) && end == WrittenAt(w, actions, k, store)
      else Untouched(w, actions, store) && end == BeatOf(w.t, store)
    decreases |actions|
  {
    if actions == [] {
      return 0;
    }
    var rest, a := actions[..|actions| - 1], actions[|actions| - 1];
    assert actions == rest + [a];
    k := BeatAfter(w, rest, store);
    RunSnoc(w, rest, a);
    Safety(w, rest);
    BeatNext(Run(w, rest), a, store);
    forall j: nat | j <= |rest|
      ensures WrittenAt(w, actions, j, store)
        == if j < |rest| then WrittenAt(w, rest, j, store) else Written(Run(w, rest), a, store)
    {
      WrittenSnoc(w, rest, a, store, j);
    }
    if Written(Run(w, rest), a, store).Some? {
      k := |rest|;
    } else if k >= |rest| {
      k := |actions|;
    }
  }

  lemma {:induction false} TimePasses(w: World, actions: seq<Action>)
    ensures Run(w, actions).t.now >= w.t.now
    decreases |actions|
  {
    if actions != [] {
      TimePasses(Next(w, actions[0]), actions[1..]);
    }
  }

  lemma LastTouchIsUnique(w: World, actions: seq<Action>, store: nat, j: nat, k: nat)
    requires LastTouch(w, actions, j, store) && LastTouch(w, actions, k, store)
    ensures j == k
  {
  }

  /** A claim passed the guard, then anything else happened. The store has an active connector
      again if and only if the last request to touch its connector since (another claim's
      commit, a registration, or a report of the connector itself) left it running with a
      heartbeat that is still recent. Only then does the commit hit an active connector. */
  lemma GuardFailsExactly(w: World, code: nat, between: seq<Action>)
    requires Invariant(w) && MayClaim(w.t, code)
    ensures var store, begun := w.t.codes[code].store, Next(w, BeginClaim(code));
      var end := Run(begun, between).t;
      HasActiveConnector(end, store)
      <==> exists k: nat :: LastTouch(begun, between, k, store)
             && Fresh(WrittenAt(begun, between, k, store).value, end.now)
  {
    var store, begun := w.t.codes[code].store, Next(w, BeginClaim(code));
    NextIsSound(w, BeginClaim(code));
    NextConsumesOnce(w, BeginClaim(code));
    Safety(begun, between);
    var end := Run(begun, between).t;
    ActiveIsFresh(w.t, store);
    ActiveIsFresh(end, store);
    TimePasses(begun, between);
    var k := BeatAfter(begun, between, store);
    if j: nat :| LastTouch(begun, between, j, store) && k < |between| {
      LastTouchIsUnique(begun, between, store, j, k);
    }
  }

  /** As long as nobody touches the store's connector the guard is as good at the commit as it
      was before the transaction. */
  lemma GuardHoldsUntouched(w: World, code: nat, between: seq<Action>)
    requires Invariant(w) && MayClaim(w.t, code)
    requires Untouched(Next(w, BeginClaim(code)), between, w.t.codes[code].store)
    ensures !HasActiveConnector(Run(Next(w, BeginClaim(code)), between).t, w.t.codes[code].store)
  {
    GuardFailsExactly(w, code, between);
  }

  // ----- whose key is replaced -----

  lemma PairedKey(t: Tables, store: nat, apiKey: nat, s: nat, id: nat)
    requires Sound(t) && store in t.stores && OwnsStore(t, s, id)
    ensures var u := Paired(t, store, apiKey);
      OwnsStore(u, s, id) && u.connectors[id].apiKey == if s == store then apiKey else t.connectors[id].apiKey
  {
    if s == store {
      ConnectorOfIs(t, store, id);
    }
  }

  /** A connector's key changes hands by a committed claim or by a registration of its store,
      active or not, and by nothing else. */
  lemma KeyIsReplacedExactly(w: World, a: Action, store: nat, id: nat)
    requires Invariant(w) && OwnsStore(w.t, store, id)
    ensures var u := Next(w, a).t;
      && OwnsStore(u, store, id)
      && u.connectors[id].apiKey ==
           if Commits(w, a, store) || Registers(w, a, store) then a.apiKey else w.t.connectors[id].apiKey
  {
    var t := w.t;
    if a.Register? && a.store in t.stores {
      PairedKey(t, a.store, a.apiKey, store, id);
    } else if a.CommitClaim? && a.claim < |w.pending| && Claimable(t, w.pending[a.claim]) {
      var code := w.pending[a.claim];
      var consumed := t.(codes := t.codes[code := t.codes[code].(usedAt := Some(t.now))]);
      SameRowsSound(t, consumed);
      PairedKey(consumed, t.codes[code].store, a.apiKey, store, id);
    }
  }

  /** A registration replaces the key of an active connector in every state. */
  lemma RegistrationTakesOver(w: World, store: nat, apiKey: nat)
    requires Invariant(w) && HasActiveConnector(w.t, store)
    ensures var u := Next(w, Register(store, apiKey)).t;
      exists id: nat :: OwnsStore(w.t, store, id) && Active(w.t.connectors[id], w.t.now)
        && OwnsStore(u, store, id) && u.connectors[id].apiKey == apiKey
  {
    var id: nat :| OwnsStore(w.t, store, id) && Active(w.t.connectors[id], w.t.now);
    KeyIsReplacedExactly(w, Register(store, apiKey), store, id);
  }
}
