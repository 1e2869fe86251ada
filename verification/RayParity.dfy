/** The parity of edges met around a polygon, for any test on single edges: what ray casting in
    cloud-ai/app/zones.py counts, before any geometry enters. */
module RayParity {
  import opened Detections
  import opened Polygons

  /** The test for the edge to the first point from the second. */
  type EdgeTest = (Point, Point) -> bool

  ghost predicate Symmetric(edge: EdgeTest) {
    forall a, b :: edge(a, b) == edge(b, a)
  }

  /** The parity of the crossings along an open path of vertices. */
  ghost function PathParity(edge: EdgeTest, path: seq<Point>): bool {
    if |path| < 2 then false
    else PathParity(edge, path[..|path| - 1]) != edge(path[|path| - 1], path[|path| - 2])
  }

  /** The parity of the crossings around a polygon, from its last vertex back to it. */
  ghost function Parity(edge: EdgeTest, poly: Polygon): bool
    requires poly != []
  {
    PathParity(edge, [poly[|poly| - 1]] + poly)
  }

  ghost predicate Encloses(edge: EdgeTest, poly: Polygon) {
    |poly| >= 3 && Parity(edge, poly)
  }

  lemma PathStep(edge: EdgeTest, path: seq<Point>, k: nat)
    requires 1 <= k < |path|
    ensures PathParity(edge, path[..k + 1]) == (PathParity(edge, path[..k]) != edge(path[k], path[k - 1]))
  {
    assert path[..k + 1][..k] == path[..k];
  }

  // ----- paths -----

  /** A path may be cut at any of its vertices. */
  lemma {:induction false} PathSplit(edge: EdgeTest, path: seq<Point>, k: nat)
    requires k < |path|
    ensures PathParity(edge, path) == (PathParity(edge, path[..k + 1]) != PathParity(edge, path[k..]))
    decreases |path|
  {
    var n := |path|;
    if k == n - 1 {
      assert path[..n] == path;
    } else {
      PathSplit(edge, path[..n - 1], k);
      assert path[..n - 1][..k + 1] == path[..k + 1];
      assert path[..n - 1][k..] == path[k..][..n - 1 - k];
      assert path[k..][n - 1 - k] == path[n - 1] && path[k..][n - 2 - k] == path[n - 2];
    }
  }

  lemma SplitInto(edge: EdgeTest, path: seq<Point>, k: nat, front: seq<Point>, back: seq<Point>)
    requires k < |path| && front == path[..k + 1] && back == path[k..]
    ensures PathParity(edge, path) == (PathParity(edge, front) != PathParity(edge, back))
  {
    PathSplit(edge, path, k);
  }

  /** Two paths that meet in a vertex, joined. */
  lemma PathJoin(edge: EdgeTest, a: seq<Point>, b: seq<Point>)
    requires a != [] && b != [] && a[|a| - 1] == b[0]
    ensures PathParity(edge, a + b[1..]) == (PathParity(edge, a) != PathParity(edge, b))
  {
    var path, k := a + b[1..], |a| - 1;
    assert path[..k + 1] == a;
    assert path[k..] == b;
    SplitInto(edge, path, k, a, b);
  }

  lemma PathJoinAfter(edge: EdgeTest, x: Point, a: seq<Point>, b: seq<Point>)
    requires a != []
    ensures PathParity(edge, [x] + (a + b))
      == (PathParity(edge, [x] + a) != PathParity(edge, [a[|a| - 1]] + b))
  {
    PathJoin(edge, [x] + a, [a[|a| - 1]] + b);
    assert ([x] + a) + ([a[|a| - 1]] + b)[1..] == [x] + (a + b);
  }

  lemma PathOfTwo(edge: EdgeTest, a: Point, b: Point)
    ensures PathParity(edge, [b, a]) == edge(a, b)
  {
    assert [b, a][..1] == [b];
  }

  /** Prepending a vertex adds the edge to it. */
  lemma PathCons(edge: EdgeTest, a: Point, path: seq<Point>)
    requires path != []
    ensures PathParity(edge, [a] + path) == (edge(path[0], a) != PathParity(edge, path))
  {
    PathJoin(edge, [a, path[0]], path);
    PathOfTwo(edge, path[0], a);
    assert [a, path[0]] + path[1..] == [a] + path;
  }

  // ----- how a polygon is written down -----

  /** Membership does not depend on the vertex a polygon starts from. */
  lemma ParityRotation(edge: EdgeTest, poly: Polygon, k: nat)
    requires k <= |poly|
    ensures Encloses(edge, poly[k..] + poly[..k]) == Encloses(edge, poly)
  {
    var n, r := |poly|, poly[k..] + poly[..k];
    if n < 3 {
    } else if k == 0 || k == n {
      assert r == poly;
    } else {
      var last, turn := poly[n - 1], poly[k - 1];
      PathJoinAfter(edge, turn, poly[k..], poly[..k]);
      PathJoinAfter(edge, last, poly[..k], poly[k..]);
      assert poly[..k] + poly[k..] == poly;
      assert r[|r| - 1] == turn;
    }
  }

  lemma {:induction false} PathReversed(edge: EdgeTest, path: seq<Point>)
    requires Symmetric(edge)
    ensures PathParity(edge, Reversed(path)) == PathParity(edge, path)
  {
    if |path| >= 2 {
      var n := |path|;
      var front, last := path[..n - 1], path[n - 1];
      PathReversed(edge, front);
      var back := Reversed(front);
      assert Reversed(path) == [last] + back && back[0] == path[n - 2];
      PathCons(edge, last, back);
    }
  }

  /** ... nor on the direction it is walked in. */
  lemma ParityReversal(edge: EdgeTest, poly: Polygon)
    requires Symmetric(edge)
    ensures Encloses(edge, Reversed(poly)) == Encloses(edge, poly)
  {
    if |poly| >= 3 {
      var last, r := poly[|poly| - 1], Reversed(poly);
      PathReversed(edge, [last] + poly);
      assert Reversed([last] + poly) == r + [last];
      // r + [last] and [poly[0]] + r go round the same edges
      PathJoin(edge, r, [poly[0], last]);
      PathOfTwo(edge, last, poly[0]);
      assert r + [poly[0], last][1..] == r + [last];
      PathCons(edge, poly[0], r);
    }
  }

  // ----- chords -----

  /** Cutting a polygon along a chord: a point is inside the whole exactly when it is inside one
      of the two parts. Holds for every polygon, crossing itself or not. */
  lemma ParityChord(edge: EdgeTest, poly: Polygon, i: nat, j: nat)
    requires Symmetric(edge)
    requires i + 1 < j < |poly| && !(i == 0 && j == |poly| - 1)
    ensures Encloses(edge, poly) == (Encloses(edge, poly[i..j + 1]) != Encloses(edge, poly[j..] + poly[..i + 1]))
  {
    var loop := [poly[|poly| - 1]] + poly;
    var inner, part := poly[i..j + 1], poly[j..] + poly[..i + 1];
    ThreePieces(edge, loop, i + 1, j + 1);
    assert loop[i + 1..j + 2] == inner;
    // one part is the middle piece closed by the chord, the other the two outer ones
    ClosedBy(edge, inner, poly[i], poly[j]);
    ClosedBy(edge, part, poly[j], poly[i]);
    OuterPieces(edge, poly, i, j);
  }

  lemma ThreePieces(edge: EdgeTest, path: seq<Point>, u: nat, v: nat)
    requires u <= v < |path|
    ensures PathParity(edge, path)
      == ((PathParity(edge, path[..u + 1]) != PathParity(edge, path[v..])) != PathParity(edge, path[u..v + 1]))
  {
    PathSplit(edge, path, v);
    PathSplit(edge, path[..v + 1], u);
    assert path[..v + 1][..u + 1] == path[..u + 1];
    assert path[..v + 1][u..] == path[u..v + 1];
  }

  lemma OuterPieces(edge: EdgeTest, poly: Polygon, i: nat, j: nat)
    requires i < j < |poly|
    ensures var loop := [poly[|poly| - 1]] + poly;
      PathParity(edge, poly[j..] + poly[..i + 1])
      == (PathParity(edge, loop[..i + 2]) != PathParity(edge, loop[j + 1..]))
  {
    var loop, part := [poly[|poly| - 1]] + poly, poly[j..] + poly[..i + 1];
    PathSplit(edge, part, |poly| - 1 - j);
    assert part[..|poly| - j] == loop[j + 1..];
    assert part[|poly| - 1 - j..] == loop[..i + 2];
  }

  /** A path from `first` to `last`, closed into a polygon. */
  lemma ClosedBy(edge: EdgeTest, path: seq<Point>, first: Point, last: Point)
    requires |path| >= 3 && path[0] == first && path[|path| - 1] == last
    ensures Encloses(edge, path) == (edge(first, last) != PathParity(edge, path))
  {
    PathCons(edge, last, path);
  }

  ghost function FanParity(edge: EdgeTest, poly: Polygon, k: nat): bool
    requires k < |poly|
  {
    if k < 2 then false
    else FanParity(edge, poly, k - 1) != Encloses(edge, [poly[0], poly[k - 1], poly[k]])
  }

  /** Membership is the parity of the triangles of the fan from the first vertex. */
  lemma {:induction false} ParityFan(edge: EdgeTest, poly: Polygon)
    requires Symmetric(edge)
    requires |poly| >= 3
    ensures Encloses(edge, poly) == FanParity(edge, poly, |poly| - 1)
    decreases |poly|
  {
    var n := |poly|;
    if n == 3 {
      assert poly == [poly[0], poly[1], poly[2]];
    } else {
      var front, ear := poly[..n - 1], [poly[0], poly[n - 2], poly[n - 1]];
      ParityChord(edge, poly, 0, n - 2);
      assert poly[0..n - 1] == front;
      assert poly[n - 2..] + poly[..1] == ear[1..] + ear[..1];
      ParityRotation(edge, ear, 1);
      ParityFan(edge, front);
      FanOfPrefix(edge, poly, n - 2);
    }
  }

  lemma {:induction false} FanOfPrefix(edge: EdgeTest, poly: Polygon, k: nat)
    requires k < |poly| - 1
    ensures FanParity(edge, poly[..|poly| - 1], k) == FanParity(edge, poly, k)
  {
    if k >= 2 {
      FanOfPrefix(edge, poly, k - 1);
    }
  }
}
