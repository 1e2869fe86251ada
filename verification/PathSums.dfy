/** Sums over the edges of a path or a closed polygon, for any weight on single edges: the shape
    of the shoelace formula in backend/Services/ZonePolygonValidator.cs. */
module PathSums {
  import opened Detections
  import opened Polygons

  type Weight = (Point, Point) -> real

  ghost predicate Antisymmetric(f: Weight) {
    forall a, b :: f(a, b) == -f(b, a)
  }

  ghost function PathSum(f: Weight, path: seq<Point>): real {
    if |path| < 2 then 0.0
    else PathSum(f, path[..|path| - 1]) + f(path[|path| - 2], path[|path| - 1])
  }

  /** Around the polygon and back to its first vertex. */
  ghost function LoopSum(f: Weight, points: seq<Point>): real
    requires points != []
  {
    PathSum(f, points + [points[0]])
  }

  lemma SumStep(f: Weight, path: seq<Point>, k: nat)
    requires 1 <= k < |path|
    ensures PathSum(f, path[..k + 1]) == PathSum(f, path[..k]) + f(path[k - 1], path[k])
  {
    assert path[..k + 1][..k] == path[..k];
  }

  lemma {:induction false} SumSplit(f: Weight, path: seq<Point>, k: nat)
    requires k < |path|
    ensures PathSum(f, path) == PathSum(f, path[..k + 1]) + PathSum(f, path[k..])
    decreases |path|
  {
    var n := |path|;
    if k == n - 1 {
      assert path[..n] == path;
    } else {
      SumSplit(f, path[..n - 1], k);
      assert path[..n - 1][..k + 1] == path[..k + 1];
      assert path[..n - 1][k..] == path[k..][..n - 1 - k];
      assert path[k..][n - 1 - k] == path[n - 1] && path[k..][n - 2 - k] == path[n - 2];
    }
  }

  lemma SumOfTwo(f: Weight, a: Point, b: Point)
    ensures PathSum(f, [a, b]) == f(a, b)
  {
    assert [a, b][..1] == [a];
  }

  /** Closing a path from its first to its last vertex. */
  lemma ClosedSum(f: Weight, path: seq<Point>)
    requires path != []
    ensures LoopSum(f, path) == PathSum(f, path) + f(path[|path| - 1], path[0])
  {
    var n, closed := |path|, path + [path[0]];
    SumSplit(f, closed, n - 1);
    assert closed[..n] == path && closed[n - 1..] == [path[n - 1], path[0]];
    SumOfTwo(f, path[n - 1], path[0]);
  }

  function Rotated(points: seq<Point>): seq<Point>
    requires points != []
  {
    points[1..] + [points[0]]
  }

  lemma LoopSumRotated(f: Weight, points: seq<Point>)
    requires points != []
    ensures LoopSum(f, Rotated(points)) == LoopSum(f, points)
  {
    var n, loop := |points|, points + [points[0]];
    if n == 1 {
      assert Rotated(points) == points;
    } else {
      SumSplit(f, loop, 1);
      assert loop[..2] == [points[0], points[1]] && loop[1..] == Rotated(points);
      SumOfTwo(f, points[0], points[1]);
      ClosedSum(f, Rotated(points));
    }
  }

  lemma {:induction false} PathSumReversed(f: Weight, path: seq<Point>)
    requires Antisymmetric(f)
    ensures PathSum(f, Reversed(path)) == -PathSum(f, path)
  {
    if |path| >= 2 {
      var n := |path|;
      var front, back := path[..n - 1], Reversed(path);
      PathSumReversed(f, front);
      SumSplit(f, back, 1);
      assert back[..2] == [path[n - 1], path[n - 2]] && back[1..] == Reversed(front);
      SumOfTwo(f, path[n - 1], path[n - 2]);
      assert f(path[n - 1], path[n - 2]) == -f(path[n - 2], path[n - 1]);
    }
  }

  lemma LoopSumReversed(f: Weight, points: seq<Point>)
    requires Antisymmetric(f) && points != []
    ensures LoopSum(f, Reversed(points)) == -LoopSum(f, points)
  {
    var n := |points|;
    PathSumReversed(f, points);
    ClosedSum(f, points);
    ClosedSum(f, Reversed(points));
    assert f(points[0], points[n - 1]) == -f(points[n - 1], points[0]);
  }

  /** The closed path in three pieces. */
  lemma LoopPieces(f: Weight, points: seq<Point>, i: nat, j: nat)
    requires i < j < |points|
    ensures LoopSum(f, points)
      == PathSum(f, points[..i + 1]) + PathSum(f, points[i..j + 1]) + PathSum(f, points[j..] + [points[0]])
  {
    var loop := points + [points[0]];
    SumSplit(f, loop, j);
    SumSplit(f, loop[..j + 1], i);
    assert loop[..j + 1][..i + 1] == points[..i + 1] && loop[..j + 1][i..] == points[i..j + 1];
    assert loop[j..] == points[j..] + [points[0]];
  }

  lemma OuterPieces(f: Weight, points: seq<Point>, i: nat, j: nat)
    requires i < j < |points|
    ensures PathSum(f, points[j..] + points[..i + 1])
      == PathSum(f, points[j..] + [points[0]]) + PathSum(f, points[..i + 1])
  {
    var outer, k := points[j..] + points[..i + 1], |points| - j;
    SumSplit(f, outer, k);
    assert outer[..k + 1] == points[j..] + [points[0]] && outer[k..] == points[..i + 1];
  }

  /** Cutting along a chord splits the sum: the two passes over the chord cancel. */
  lemma ChordSum(f: Weight, points: seq<Point>, i: nat, j: nat)
    requires Antisymmetric(f) && i < j < |points|
    ensures LoopSum(f, points)
      == LoopSum(f, points[i..j + 1]) + LoopSum(f, points[j..] + points[..i + 1])
  {
    LoopPieces(f, points, i, j);
    OuterPieces(f, points, i, j);
    ClosedSum(f, points[i..j + 1]);
    ClosedSum(f, points[j..] + points[..i + 1]);
    assert f(points[j], points[i]) == -f(points[i], points[j]);
  }

  /** A weight that is a difference along the path telescopes. */
  lemma {:induction false} Telescoping(f: Weight, path: seq<Point>, level: seq<real>)
    requires path != [] && |level| == |path|
    requires forall i :: 0 <= i < |path| - 1 ==> f(path[i], path[i + 1]) == level[i + 1] - level[i]
    ensures PathSum(f, path) == level[|level| - 1] - level[0]
  {
    var n := |path|;
    if n >= 2 {
      Telescoping(f, path[..n - 1], level[..n - 1]);
      assert f(path[n - 2], path[n - 2 + 1]) == level[n - 1] - level[n - 2];
    }
  }
}
