/** The durable upload queue (connector/app/store.py). */
module UploadQueue {
  import opened Wrappers

  datatype JobState = Pending | Uploading | Done | Failed

  datatype Row = Row(
    clipPath: string, cameraId: nat, duration: real, trigger: string,
    retries: nat, lastError: Option<string>, state: JobState)

  predicate Unfinished(r: Row) {
    r.state == Pending || r.state == Uploading
  }

  /** ORDER BY id LIMIT 1 over the unfinished rows: the row's position, |rows| when there is none. */
  function FirstUnfinished(rows: seq<Row>): nat {
    if rows == [] || Unfinished(rows[0]) then 0 else 1 + FirstUnfinished(rows[1..])
  }

  lemma {:induction false} FirstUnfinishedMeaning(rows: seq<Row>, i: nat)
    ensures FirstUnfinished(rows) <= |rows|
    ensures FirstUnfinished(rows) < |rows| ==> Unfinished(rows[FirstUnfinished(rows)])
    ensures i < FirstUnfinished(rows) ==> !Unfinished(rows[i])
    ensures i < |rows| && Unfinished(rows[i]) ==> FirstUnfinished(rows) <= i
  {
    if rows != [] && !Unfinished(rows[0]) {
      FirstUnfinishedMeaning(rows[1..], if i > 0 then i - 1 else 0);
    }
  }

  lemma FirstUnfinishedIs(rows: seq<Row>, n: nat)
    requires n <= |rows|
    requires n < |rows| ==> Unfinished(rows[n])
    requires forall i :: 0 <= i < n ==> !Unfinished(rows[i])
    ensures FirstUnfinished(rows) == n
  {
    FirstUnfinishedMeaning(rows, n);
    FirstUnfinishedMeaning(rows, FirstUnfinished(rows));
  }

  function UnfinishedCount(rows: seq<Row>): nat {
    if rows == [] then 0
    else UnfinishedCount(rows[..|rows| - 1]) + if Unfinished(rows[|rows| - 1]) then 1 else 0
  }

  function NewRow(clipPath: string, cameraId: nat, duration: real, trigger: string): Row {
    Row(clipPath, cameraId, duration, trigger, 0, None, Pending)
  }

  function Marked(r: Row, state: JobState, error: Option<string>, incRetry: bool): Row {
    r.(state := state, lastError := error, retries := if incRetry then r.retries + 1 else r.retries)
  }

  /** Rows in the order of their ids: AUTOINCREMENT numbers them from 1 and, clearing the queue
      aside, none is ever deleted, so the id of a row is its position plus one. */
  class LocalStore {
    var rows: seq<Row>

    constructor ()
      ensures rows == []
    {
      rows := [];
    }

    method Enqueue(clipPath: string, cameraId: nat, duration: real, trigger: string) returns (id: nat)
      modifies this
      ensures rows == old(rows) + [NewRow(clipPath, cameraId, duration, trigger)]
      ensures id == |rows|
    {
      rows := rows + [NewRow(clipPath, cameraId, duration, trigger)];
      id := |rows|;
    }

    method NextPending() returns (id: Option<nat>)
      ensures id == if FirstUnfinished(rows) < |rows| then Some(FirstUnfinished(rows) + 1) else None
    {
      for i := 0 to |rows|
        invariant forall k :: 0 <= k < i ==> !Unfinished(rows[k])
      {
        if Unfinished(rows[i]) {
          FirstUnfinishedIs(rows, i);
          return Some(i + 1);
        }
      }
      FirstUnfinishedIs(rows, |rows|);
      return None;
    }

    /** An UPDATE by id: an unknown id changes no row. */
    method Mark(id: nat, state: JobState, error: Option<string>, incRetry: bool)
      modifies this
      ensures rows == if 1 <= id <= |old(rows)|
                      then old(rows)[id - 1 := Marked(old(rows)[id - 1], state, error, incRetry)] else old(rows)
    {
      if 1 <= id <= |rows| {
        rows := rows[id - 1 := Marked(rows[id - 1], state, error, incRetry)];
      }
    }

    method PendingCount() returns (n: nat)
      ensures n == UnfinishedCount(rows)
    {
      n := 0;
      for i := 0 to |rows|
        invariant n == UnfinishedCount(rows[..i])
      {
        assert rows[..i + 1][..i] == rows[..i];
        if Unfinished(rows[i]) {
          n := n + 1;
        }
      }
      assert rows[..|rows|] == rows;
    }
  }
}
