/** The `parent` dict of `build_person_id_remap` and its inner `find`
    (cloud-ai/app/track_merge.py). A rank, here the first frame of a track, strictly falls
    along every link; it is what makes `find` terminate. */
module UnionFind {
  type Table = map<nat, nat>

  function Up(parent: Table, t: nat): nat
    requires t in parent
  {
    parent[t]
  }

  ghost predicate Ranked(parent: Table, rank: Table) {
    && parent.Keys == rank.Keys
    && forall t {:trigger Up(parent, t)} :: t in parent ==>
         Up(parent, t) in parent && (Up(parent, t) == t || rank[Up(parent, t)] < rank[t])
  }

  /** The end of the chain of parents. */
  ghost function Top(parent: Table, rank: Table, t: nat): nat
    requires Ranked(parent, rank) && t in parent
    decreases rank[t]
  {
    if Up(parent, t) == t then t else Top(parent, rank, Up(parent, t))
  }

  ghost predicate IsTop(parent: Table, t: nat) {
    t in parent && Up(parent, t) == t
  }

  /** Depth at most one: every parent is a top. */
  ghost predicate Flat(parent: Table) {
    forall t {:trigger IsTop(parent, Up(parent, t))} :: t in parent ==> IsTop(parent, Up(parent, t))
  }

  /** Every track hangs below the same top in both tables. */
  ghost predicate SameTops(a: Table, b: Table, rank: Table)
    requires Ranked(a, rank) && Ranked(b, rank)
  {
    forall x {:trigger Top(b, rank, x)} :: x in b ==> Top(a, rank, x) == Top(b, rank, x)
  }

  lemma HalvingStaysRanked(parent: Table, rank: Table, t: nat)
    requires Ranked(parent, rank) && t in parent && Up(parent, t) in parent
    ensures Ranked(parent[t := Up(parent, Up(parent, t))], rank)
  {
    var next := parent[t := Up(parent, Up(parent, t))];
    assert next.Keys == parent.Keys;
    forall x | x in next
      ensures Up(next, x) in next && (Up(next, x) == x || rank[Up(next, x)] < rank[x])
    {
      assert Up(parent, x) in parent;
      assert Up(next, x) == if x == t then Up(parent, Up(parent, t)) else Up(parent, x);
    }
  }

  lemma {:induction false} HalvingKeepsTop(parent: Table, next: Table, rank: Table, t: nat, x: nat)
    requires Ranked(parent, rank) && t in parent && x in parent && Up(parent, t) in parent
    requires next == parent[t := Up(parent, Up(parent, t))] && Ranked(next, rank)
    ensures Top(next, rank, x) == Top(parent, rank, x)
    decreases rank[x]
  {
    if Up(next, x) != x {
      HalvingKeepsTop(parent, next, rank, t, Up(next, x));
    }
  }

  /** One turn of the loop in `find`: path halving moves no track to another top. */
  lemma HalvingStep(start: Table, cur: Table, next: Table, rank: Table, r: nat)
    requires Ranked(start, rank) && Ranked(cur, rank) && r in cur && Up(cur, r) in cur
    requires SameTops(start, cur, rank)
    requires next == cur[r := Up(cur, Up(cur, r))]
    ensures Ranked(next, rank) && SameTops(start, next, rank)
    ensures Up(next, r) in next && Top(start, rank, Up(next, r)) == Top(start, rank, r)
    ensures Up(cur, r) != r ==> rank[Up(next, r)] < rank[r]
    ensures Flat(cur) ==> next == cur
  {
    HalvingStaysRanked(cur, rank, r);
    assert Up(next, r) == Up(cur, Up(cur, r));
    assert Top(cur, rank, Up(next, r)) == Top(cur, rank, r);
    if Flat(cur) {
      assert IsTop(cur, Up(cur, r));
      assert next == cur;
    }
    forall x | x in next ensures Top(start, rank, x) == Top(next, rank, x) {
      HalvingKeepsTop(cur, next, rank, r, x);
    }
  }

  class ParentTable {
    var parent: Table
    ghost const rank: Table

    ghost predicate Valid()
      reads this
    {
      Ranked(parent, rank)
    }

    ghost function TopOf(t: nat): nat
      requires Valid() && t in parent
      reads this
    {
      Top(parent, rank, t)
    }

    /** Every track starts as its own parent. */
    constructor (keys: seq<nat>, ghost rank: Table)
      requires forall t :: t in keys <==> t in rank
      ensures Valid() && this.rank == rank
      ensures parent == map t | t in keys :: t
    {
      parent := map t | t in keys :: t;
      this.rank := rank;
      new;
      assert parent.Keys == rank.Keys;
    }

    /** `find`: it reports the top of the chain, moves no track to another top, and leaves a
        flat table as it was. */
    method Find(tid: nat) returns (r: nat)
      requires Valid() && tid in parent
      modifies this
      ensures Valid() && SameTops(old(parent), parent, rank)
      ensures r == old(TopOf(tid))
      ensures old(Flat(parent)) ==> parent == old(parent) && r == Up(parent, tid)
    {
      r := tid;
      while Up(parent, r) != r
        invariant Valid() && r in parent
        invariant SameTops(old(parent), parent, rank)
        invariant Top(old(parent), rank, r) == old(TopOf(tid))
        invariant old(Flat(parent)) ==> parent == old(parent)
        decreases rank[r]
      {
        assert Up(parent, Up(parent, r)) in parent;
        ghost var was := parent;
        parent := parent[r := parent[parent[r]]];
        HalvingStep(old(parent), was, parent, rank, r);
        r := parent[r];
      }
      assert Top(old(parent), rank, r) == Top(parent, rank, r) == r;
      assert Flat(parent) ==> IsTop(parent, Up(parent, tid));
    }

    /** `parent[child] = to`, for a child that is its own parent and was seen later. */
    method Link(child: nat, to: nat)
      requires Valid() && IsTop(parent, child) && IsTop(parent, to) && rank[to] < rank[child]
      modifies this
      ensures Valid() && parent == old(parent)[child := to]
    {
      ghost var was := parent;
      parent := parent[child := to];
      assert parent.Keys == was.Keys;
      forall x | x in parent
        ensures Up(parent, x) in parent && (Up(parent, x) == x || rank[Up(parent, x)] < rank[x])
      {
        assert Up(was, x) in was;
        assert Up(parent, x) == if x == child then to else Up(was, x);
      }
    }
  }
}
