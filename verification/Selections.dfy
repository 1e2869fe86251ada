/** What it means that a sequence holds just the wanted elements of another, in their order. */
module Selections {
  /** `at` lists the places of the wanted elements, from left to right, and `kept` holds the
      elements at these places. */
  ghost predicate Selects<T>(all: seq<T>, wanted: nat -> bool, at: seq<nat>, kept: seq<T>) {
    && |at| == |kept|
    && (forall i, j :: 0 <= i < j < |at| ==> at[i] < at[j])
    && (forall i :: 0 <= i < |at| ==> at[i] < |all| && kept[i] == all[at[i]])
    && forall k: nat :: k in at <==> k < |all| && wanted(k)
  }

  /** One more element, wanted or not. */
  lemma SelectsNext<T>(all: seq<T>, wanted: nat -> bool, at: seq<nat>, kept: seq<T>) returns (now: seq<nat>)
    requires all != [] && Selects(all[..|all| - 1], wanted, at, kept)
    ensures var n := |all| - 1; Selects(all, wanted, now, kept + if wanted(n) then [all[n]] else [])
  {
    var n: nat := |all| - 1;
    now := at + if wanted(n) then [n] else [];
    assert forall k: nat :: k in now <==> k in at || (k == n && wanted(n));
    assert forall i :: 0 <= i < |at| ==> at[i] in at;
  }

  /** What is kept are the wanted elements, and no others. */
  lemma SelectsMembers<T>(all: seq<T>, wanted: nat -> bool, at: seq<nat>, kept: seq<T>, x: T)
    requires Selects(all, wanted, at, kept)
    ensures x in kept <==> exists k: nat :: k < |all| && wanted(k) && all[k] == x
  {
    if x in kept {
      var i :| 0 <= i < |kept| && kept[i] == x;
      assert at[i] in at;
    }
    if k: nat :| k < |all| && wanted(k) && all[k] == x {
      assert k in at;
      var i :| 0 <= i < |at| && at[i] == k;
      assert kept[i] == x;
    }
  }
}
