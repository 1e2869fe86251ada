/** Runs and rising edges in a sequence of yes/no observations. */
module Streaks {
  /** How many hits in a row end the sequence. */
  function TrailingRun(flags: seq<bool>): nat {
    if flags == [] || !flags[|flags| - 1] then 0 else TrailingRun(flags[..|flags| - 1]) + 1
  }

  function LongestRun(flags: seq<bool>): nat {
    if flags == [] then 0
    else
      var before, now := LongestRun(flags[..|flags| - 1]), TrailingRun(flags);
      if now > before then now else before
  }

  /** Where the first of the longest runs ends. */
  function LongestRunEnd(flags: seq<bool>): nat {
    if flags == [] then 0
    else if TrailingRun(flags) > LongestRun(flags[..|flags| - 1]) then |flags|
    else LongestRunEnd(flags[..|flags| - 1])
  }

  ghost predicate Unbroken(flags: seq<bool>, from: nat, to: nat) {
    from <= to <= |flags| && forall k :: from <= k < to ==> flags[k]
  }

  lemma {:induction false} TrailingRunMeaning(flags: seq<bool>, from: nat)
    ensures TrailingRun(flags) <= |flags|
    ensures Unbroken(flags, from, |flags|) <==> |flags| - TrailingRun(flags) <= from <= |flags|
  {
    if flags != [] && flags[|flags| - 1] {
      var rest := flags[..|flags| - 1];
      TrailingRunMeaning(rest, if from < |rest| then from else |rest|);
      if from <= |rest| {
        assert Unbroken(flags, from, |flags|) ==> Unbroken(rest, from, |rest|);
        assert Unbroken(rest, from, |rest|) ==> Unbroken(flags, from, |flags|);
      }
    }
  }

  /** No run is longer than the longest, and it is a run. */
  lemma {:induction false} LongestRunMeaning(flags: seq<bool>, from: nat, to: nat)
    ensures LongestRun(flags) <= LongestRunEnd(flags) <= |flags|
    ensures Unbroken(flags, LongestRunEnd(flags) - LongestRun(flags), LongestRunEnd(flags))
    ensures Unbroken(flags, from, to) ==> to - from <= LongestRun(flags)
  {
    if flags != [] {
      var rest := flags[..|flags| - 1];
      LongestRunMeaning(rest, from, if to <= |rest| then to else from);
      TrailingRunMeaning(flags, |flags| - TrailingRun(flags));
      TrailingRunMeaning(flags, from);
      assert Unbroken(rest, LongestRunEnd(rest) - LongestRun(rest), LongestRunEnd(rest));
      if to <= |rest| {
        assert Unbroken(flags, from, to) ==> Unbroken(rest, from, to);
      }
    }
  }

  /** A hit follows a miss or starts the sequence. */
  predicate RisesAt(flags: seq<bool>, k: nat) {
    k < |flags| && flags[k] && (k == 0 || !flags[k - 1])
  }

  function Rising(flags: seq<bool>): set<nat> {
    set k: nat | k < |flags| && RisesAt(flags, k)
  }

  lemma RisingSnoc(flags: seq<bool>, now: bool)
    ensures |Rising(flags + [now])|
      == |Rising(flags)| + if now && (flags == [] || !flags[|flags| - 1]) then 1 else 0
  {
    var n: nat := |flags|;
    if now && (flags == [] || !flags[|flags| - 1]) {
      assert forall k: nat | k < n :: RisesAt(flags + [now], k) == RisesAt(flags, k);
      assert Rising(flags + [now]) == Rising(flags) + {n};
    } else {
      assert forall k: nat | k < n :: RisesAt(flags + [now], k) == RisesAt(flags, k);
      assert Rising(flags + [now]) == Rising(flags);
    }
  }

  lemma RisingSomewhere(flags: seq<bool>, k: nat)
    requires k < |flags| && flags[k]
    ensures |Rising(flags)| > 0
  {
    if k == 0 || !flags[k - 1] {
      assert k in Rising(flags);
    } else {
      RisingSomewhere(flags, k - 1);
    }
  }

  /** There is an edge exactly when there is a hit. */
  lemma RisingPositive(flags: seq<bool>)
    ensures |Rising(flags)| > 0 <==> true in flags
  {
    if k: nat :| k < |flags| && flags[k] {
      RisingSomewhere(flags, k);
    } else {
      assert Rising(flags) == {};
    }
  }
}
