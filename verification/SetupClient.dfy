/** `provision_sources` (connector/app/provisioning.py), call by call. */
module SetupClient {
  import opened Wrappers
  import opened SetupTables
  import opened StoreSetup
  import P = Provisioning

  lemma {:induction false} RunSnoc(w: P.World, me: nat, actions: seq<P.Action>, a: P.Action)
    ensures P.Run(w, me, actions + [a]) == P.Next(P.Run(w, me, actions), me, a)
    decreases |actions|
  {
    if actions == [] {
      assert [] + [a] == [a];
    } else {
      assert (actions + [a])[1..] == actions[1..] + [a];
      RunSnoc(P.Next(w, me, actions[0]), me, actions[1..], a);
    }
  }

  class Client {
    const backend: Backend
    const me: nat
    var memory: seq<P.Source>
    var disk: seq<P.Source>

    constructor (backend: Backend, me: nat, sources: seq<P.Source>)
      ensures this.backend == backend && this.me == me && memory == sources && disk == sources
    {
      this.backend, this.me, memory, disk := backend, me, sources, sources;
    }

    ghost function State(): P.World
      reads this, backend
    {
      P.World(backend.t, memory, disk)
    }

    /** Source keys are hex digests of fixed length. */
    predicate ValidKeys()
      reads this`memory
    {
      forall i :: 0 <= i < |memory| ==> 0 < |memory[i].key| <= MAX_KEY_LENGTH
    }

    /** The loop over the sources. Call number `breaksAt` raises, after the backend served it
        or before. Whatever happens is a run of the machine, and without a raise every source has
        its id at the end. */
    method ProvisionSources(breaksAt: nat, served: bool) returns (ok: bool, ghost actions: seq<P.Action>)
      requires me in backend.t.connectors && Sound(backend.t) && ValidKeys()
      modifies this`memory, this`disk, backend
      ensures State() == P.Run(old(State()), me, actions)
      ensures ok ==> P.AllIdentified(memory)
      ensures Sound(backend.t)
    {
      actions := [];
      var calls := 0;
      for i := 0 to |memory|
        invariant |memory| == |old(memory)| && ValidKeys()
        invariant State() == P.Run(old(State()), me, actions)
        invariant Sound(backend.t) && me in backend.t.connectors
        invariant forall k :: 0 <= k < i ==> memory[k].cameraId.Some?
      {
        if memory[i].cameraId.Some? {
          continue;
        }
        P.NextSourceIs(memory, i);
        UpsertedIsSound(backend.t, me, memory[i].key, memory[i].details);
        if calls == breaksAt {
          if served {
            RunSnoc(old(State()), me, actions, P.Create(false));
            actions := actions + [P.Create(false)];
            var lost := backend.Provision(me, memory[i].key, memory[i].details);
          }
          return false, actions;
        }
        RunSnoc(old(State()), me, actions, P.Create(true));
        actions := actions + [P.Create(true)];
        CreateAndKeep(i);
        RunSnoc(old(State()), me, actions, P.Save);
        actions := actions + [P.Save];
        disk := memory;
        calls := calls + 1;
      }
      return true, actions;
    }

    method CreateAndKeep(i: nat)
      requires i < |memory| && i == P.NextSource(memory) && 0 < |memory[i].key| <= MAX_KEY_LENGTH
      requires me in backend.t.connectors && Sound(backend.t)
      modifies this`memory, backend
      ensures State() == P.Next(old(State()), me, P.Create(true))
    {
      var r := backend.Provision(me, memory[i].key, memory[i].details);
      if r.Ok? {
        memory := memory[i := memory[i].(cameraId := Some(r.value))];
      }
    }
  }
}
