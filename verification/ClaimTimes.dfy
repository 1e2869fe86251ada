/** How long a setup code is good for (backend/Controllers/ConnectorsController.cs). */
module ClaimTimes {
  import opened Wrappers
  import opened SetupTables
  import opened StoreSetup

  /** The code is on record for this store until then. */
  predicate IssuedUntil(t: Tables, code: nat, store: nat, until: int) {
    code in t.codes && t.codes[code].store == store && t.codes[code].expiresAt == until
  }

  /** No request moves a code to another store or extends it. */
  lemma NextKeepsExpiry(w: World, a: Action, code: nat, store: nat, until: int)
    requires Invariant(w) && IssuedUntil(w.t, code, store, until)
    ensures IssuedUntil(Next(w, a).t, code, store, until) && w.t.now <= Next(w, a).t.now
  {
    match a
    case CommitClaim(claim, apiKey) =>
      if claim < |w.pending| && Claimable(w.t, w.pending[claim]) {
        ClaimKeepsExpiry(w.t, w.pending[claim], apiKey, code, store, until);
      }
    case _ =>
  }

  lemma ClaimKeepsExpiry(t: Tables, claimed: nat, apiKey: nat, code: nat, store: nat, until: int)
    requires claimed in t.codes && IssuedUntil(t, code, store, until)
    ensures IssuedUntil(Claimed(t, claimed, apiKey), code, store, until) && Claimed(t, claimed, apiKey).now == t.now
  {
  }

  lemma {:induction false} RunKeepsExpiry(w: World, actions: seq<Action>, code: nat, store: nat, until: int)
    requires Invariant(w) && IssuedUntil(w.t, code, store, until)
    ensures IssuedUntil(Run(w, actions).t, code, store, until)
    decreases |actions|
  {
    if actions != [] {
      NextKeepsExpiry(w, actions[0], code, store, until);
      NextIsSound(w, actions[0]);
      NextConsumesOnce(w, actions[0]);
      RunKeepsExpiry(Next(w, actions[0]), actions[1..], code, store, until);
    }
  }

  lemma IssuedForThirtyMinutes(w: World, store: nat)
    requires Invariant(w) && store in w.t.stores
    ensures IssuedUntil(Next(w, Issue(store)).t, w.t.nextId, store, w.t.now + 30 * 60)
    ensures Invariant(Next(w, Issue(store)))
  {
    NextIsSound(w, Issue(store));
    NextConsumesOnce(w, Issue(store));
  }

  /** In every run a claim with a code goes through at most thirty minutes after the code was
      issued, and for the store it was issued for; and it goes through whenever it passed its
      checks, is not later than that, and no claim with the code has gone through. */
  lemma ClaimsInTimeExactly(w: World, store: nat, between: seq<Action>, claim: nat, apiKey: nat)
    requires Invariant(w) && store in w.t.stores
    requires var u := Run(Next(w, Issue(store)), between);
      claim < |u.pending| && u.pending[claim] == w.t.nextId
    ensures var code, u := w.t.nextId, Run(Next(w, Issue(store)), between);
      var v := Next(u, CommitClaim(claim, apiKey));
      if u.t.now <= w.t.now + 30 * 60 && code !in u.consumed
      then v.consumed == u.consumed + [code] && v.t == Claimed(u.t, code, apiKey) && u.t.codes[code].store == store
      else v == u
  {
    var issued := Next(w, Issue(store));
    IssuedForThirtyMinutes(w, store);
    RunKeepsExpiry(issued, between, w.t.nextId, store, w.t.now + 30 * 60);
    Safety(issued, between);
  }

  /** A connector counts as active if it said it was running within the last two minutes. */
  lemma ActiveExactly(t: Tables, store: nat)
    ensures HasActiveConnector(t, store) <==> exists id: nat :: OwnsStore(t, store, id) && HeardOf(t, id)
  {
    forall id: nat | OwnsStore(t, store, id) ensures Active(t.connectors[id], t.now) <==> HeardOf(t, id) {
    }
  }

  predicate HeardOf(t: Tables, id: nat) {
    && id in t.connectors && t.connectors[id].running && t.connectors[id].heartbeat.Some?
    && t.now - t.connectors[id].heartbeat.value <= 120
  }

  /** A claim passes its checks exactly with a code that is on record, unused and not expired, for
      a store without an active connector. */
  lemma MayClaimExactly(t: Tables, code: nat)
    ensures MayClaim(t, code) <==>
      && code in t.codes && t.codes[code].usedAt == None && t.now <= t.codes[code].expiresAt
      && !HasActiveConnector(t, t.codes[code].store)
  {
  }
}
