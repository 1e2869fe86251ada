/** Zone geometry of cloud-ai/app/zones.py, over exact coordinates. */
module Zones {
  import opened Wrappers
  import opened Detections
  import opened Polygons
  import opened RayParity

  datatype ZoneType = Shelf | HighValue | Checkout | Exit | BlindSpot | Staff | OtherType(name: string)

  /** An id the backend left out stays None. */
  datatype Zone = Zone(id: Option<string>, zoneType: ZoneType, polygon: Polygon)

  // ----- one edge -----

  /** The abscissa at which the line through `a` and `b` meets the height of `p`; the tiny
      divisor stands in for a horizontal edge. */
  function CrossingX(p: Point, a: Point, b: Point): real {
    (b.x - a.x) * (p.y - a.y) / (if b.y - a.y != 0.0 then b.y - a.y else 0.000000001) + a.x
  }

  predicate Straddles(p: Point, a: Point, b: Point) {
    (a.y > p.y) != (b.y > p.y)
  }

  /** The ray test for the edge from `b` to `a`. */
  predicate Crosses(p: Point, a: Point, b: Point) {
    Straddles(p, a, b) && p.x < CrossingX(p, a, b)
  }

  function Ray(p: Point): EdgeTest {
    (a, b) => Crosses(p, a, b)
  }

  /** Ray casting: an odd number of edges is crossed. */
  ghost predicate Inside(p: Point, poly: Polygon) {
    Encloses(Ray(p), poly)
  }

  // ----- the loop -----

  method PointInPolygon(x: real, y: real, poly: Polygon) returns (inside: bool)
    ensures inside <==> Inside(Point(x, y), poly)
  {
    if |poly| < 3 {
      return false;
    }
    inside := false;
    var n := |poly|;
    var j := n - 1;
    ghost var ray := Ray(Point(x, y));
    ghost var loop := [poly[n - 1]] + poly;
    for i := 0 to n
      invariant j == if i == 0 then n - 1 else i - 1
      invariant inside == PathParity(ray, loop[..i + 1])
    {
      var a, b := poly[i], poly[j];
      PathStep(ray, loop, i + 1);
      assert loop[i + 1] == a && loop[i] == b;
      if Crosses(Point(x, y), a, b) {
        inside := !inside;
      }
      j := i;
    }
    assert loop[..n + 1] == loop;
  }

  ghost function Containing(p: Point, zones: seq<Zone>): seq<Zone> {
    if zones == [] then []
    else
      var z := zones[|zones| - 1];
      Containing(p, zones[..|zones| - 1]) + if Inside(p, z.polygon) then [z] else []
  }

  method ZonesContaining(x: real, y: real, zones: seq<Zone>) returns (found: seq<Zone>)
    ensures found == Containing(Point(x, y), zones)
  {
    found := [];
    for k := 0 to |zones|
      invariant found == Containing(Point(x, y), zones[..k])
    {
      assert zones[..k + 1][..k] == zones[..k];
      var inside := PointInPolygon(x, y, zones[k].polygon);
      if inside {
        found := found + [zones[k]];
      }
    }
    assert zones[..|zones|] == zones;
  }

  // ----- the edge test does not depend on the direction of the edge -----

  lemma CrossingXTimes(p: Point, a: Point, b: Point)
    requires a.y != b.y
    ensures CrossingX(p, a, b) * (b.y - a.y) == (b.x - a.x) * (p.y - a.y) + a.x * (b.y - a.y)
  {
    var n, d := (b.x - a.x) * (p.y - a.y), b.y - a.y;
    Quotient(n, d);
    assert CrossingX(p, a, b) == n / d + a.x;
    Distribute(n / d, a.x, d);
  }

  lemma Quotient(n: real, d: real)
    requires d != 0.0
    ensures n / d * d == n
  {
  }

  lemma Distribute(u: real, v: real, d: real)
    ensures (u + v) * d == u * d + v * d
  {
  }

  lemma CancelFactor(u: real, v: real, d: real)
    requires d != 0.0 && u * d == v * d
    ensures u == v
  {
    Quotient(u * d, d);
    assert u * d / d == u && v * d / d == v;
  }

  lemma CrossingXSymmetric(p: Point, a: Point, b: Point)
    requires a.y != b.y
    ensures CrossingX(p, a, b) == CrossingX(p, b, a)
  {
    var d := b.y - a.y;
    CrossingXTimes(p, a, b);
    CrossingXTimes(p, b, a);
    assert (b.x - a.x) * (p.y - a.y) + a.x * d == (b.x - a.x) * (p.y - b.y) + b.x * d by {
      Distribute(b.x, -a.x, d);
      Distribute(p.y - b.y, d, b.x - a.x);
    }
    assert (a.x - b.x) * (p.y - b.y) + b.x * (a.y - b.y)
        == -((b.x - a.x) * (p.y - b.y) + b.x * d);
    assert CrossingX(p, b, a) * (a.y - b.y) == -(CrossingX(p, b, a) * d);
    CancelFactor(CrossingX(p, a, b), CrossingX(p, b, a), d);
  }

  lemma CrossesSymmetric(p: Point, a: Point, b: Point)
    ensures Crosses(p, a, b) == Crosses(p, b, a)
  {
    if Straddles(p, a, b) {
      CrossingXSymmetric(p, a, b);
    }
  }

  lemma RaySymmetric(p: Point)
    ensures Symmetric(Ray(p))
  {
    forall a, b ensures Crosses(p, a, b) == Crosses(p, b, a) {
      CrossesSymmetric(p, a, b);
    }
  }

  // ----- how a polygon is written down -----

  /** Membership depends neither on the vertex a polygon starts from nor on the direction it is
      walked in. */
  lemma InsideHowever(p: Point, poly: Polygon, k: nat)
    requires k <= |poly|
    ensures Inside(p, poly[k..] + poly[..k]) == Inside(p, poly)
    ensures Inside(p, Reversed(poly)) == Inside(p, poly)
  {
    RaySymmetric(p);
    ParityRotation(Ray(p), poly, k);
    ParityReversal(Ray(p), poly);
  }

  /** Cutting a polygon along a chord: a point is inside the whole exactly when it is inside one
      of the two parts. Holds for every polygon, crossing itself or not. */
  lemma ChordAdditivity(p: Point, poly: Polygon, i: nat, j: nat)
    requires i + 1 < j < |poly| && !(i == 0 && j == |poly| - 1)
    ensures Inside(p, poly) == (Inside(p, poly[i..j + 1]) != Inside(p, poly[j..] + poly[..i + 1]))
  {
    RaySymmetric(p);
    ParityChord(Ray(p), poly, i, j);
  }

  /** Membership is the parity of the triangles of the fan from the first vertex. */
  lemma TriangleFan(p: Point, poly: Polygon)
    requires |poly| >= 3
    ensures Inside(p, poly) == FanParity(Ray(p), poly, |poly| - 1)
  {
    RaySymmetric(p);
    ParityFan(Ray(p), poly);
  }

  // ----- boxes -----

  predicate InBox(q: Point, l: real, t: real, r: real, b: real) {
    l <= q.x <= r && t <= q.y <= b
  }

  /** A crossing lies between the ends of its edge. */
  lemma CrossingBetween(p: Point, a: Point, b: Point, l: real, r: real)
    requires Straddles(p, a, b) && l <= a.x <= r && l <= b.x <= r
    ensures l <= CrossingX(p, a, b) <= r
  {
    if a.y <= b.y {
      CrossingBetweenUp(p, a, b, l, r);
    } else {
      CrossingXSymmetric(p, a, b);
      CrossingBetweenUp(p, b, a, l, r);
    }
  }

  lemma CrossingBetweenUp(p: Point, a: Point, b: Point, l: real, r: real)
    requires a.y <= p.y < b.y && l <= a.x <= r && l <= b.x <= r
    ensures l <= CrossingX(p, a, b) <= r
  {
    var n, w, d := p.y - a.y, b.y - p.y, b.y - a.y;
    var x := CrossingX(p, a, b);
    CrossingXTimes(p, a, b);
    Spread(b.x, a.x, n, w, d);
    Sum(x, n, w, d);
    WeightedBetween(l, r, a.x, b.x, n, w, x);
  }

  lemma WeightedBetween(l: real, r: real, u: real, v: real, n: real, w: real, x: real)
    requires n >= 0.0 && w > 0.0 && l <= u <= r && l <= v <= r
    requires x * n + x * w == v * n + u * w
    ensures l <= x <= r
  {
    if x < l {
      Scale(x, v, n);
      ScaleStrict(x, u, w);
    } else if x > r {
      Scale(v, x, n);
      ScaleStrict(u, x, w);
    }
  }

  lemma Sum(u: real, n: real, w: real, d: real)
    requires n + w == d
    ensures u * n + u * w == u * d
  {
  }

  lemma Spread(v: real, u: real, n: real, w: real, d: real)
    requires n + w == d
    ensures v * n + u * w == (v - u) * n + u * d
  {
    assert u * d == u * n + u * w;
    assert (v - u) * n == v * n - u * n;
  }

  lemma Scale(u: real, v: real, d: real)
    requires u <= v && d >= 0.0
    ensures u * d <= v * d
  {
    assert (v - u) * d >= 0.0;
  }

  lemma ScaleStrict(u: real, v: real, d: real)
    requires u < v && d > 0.0
    ensures u * d < v * d
  {
    assert (v - u) * d > 0.0;
  }

  /** Right of every vertex, nothing is crossed. */
  lemma {:induction false} NoCrossingsOnTheRight(p: Point, path: seq<Point>, l: real, r: real)
    requires forall q :: q in path ==> l <= q.x <= r
    requires p.x >= r
    ensures !PathParity(Ray(p), path)
  {
    if |path| >= 2 {
      var a, b := path[|path| - 1], path[|path| - 2];
      NoCrossingsOnTheRight(p, path[..|path| - 1], l, r);
      if Straddles(p, a, b) {
        CrossingBetween(p, a, b, l, r);
      }
    }
  }

  /** Left of every vertex, every straddling edge is crossed, and these alternate between
      going up and going down. */
  lemma {:induction false} CrossingsOnTheLeft(p: Point, path: seq<Point>, l: real, r: real)
    requires path != [] && forall q :: q in path ==> l <= q.x <= r
    requires p.x < l
    ensures PathParity(Ray(p), path) == Straddles(p, path[0], path[|path| - 1])
  {
    if |path| >= 2 {
      var a, b := path[|path| - 1], path[|path| - 2];
      CrossingsOnTheLeft(p, path[..|path| - 1], l, r);
      if Straddles(p, a, b) {
        CrossingBetween(p, a, b, l, r);
      }
    }
  }

  lemma {:induction false} NoStraddlesNoParity(p: Point, path: seq<Point>)
    requires forall u, v :: u in path && v in path ==> !Straddles(p, u, v)
    ensures !PathParity(Ray(p), path)
  {
    if |path| >= 2 {
      NoStraddlesNoParity(p, path[..|path| - 1]);
      assert path[|path| - 1] in path && path[|path| - 2] in path;
    }
  }

  /** A point inside a polygon lies in every half-open box around its vertices: the left and
      upper sides belong to the box, the right and lower sides do not. */
  lemma InsideImpliesInBox(p: Point, poly: Polygon, l: real, t: real, r: real, b: real)
    requires forall q :: q in poly ==> InBox(q, l, t, r, b)
    requires Inside(p, poly)
    ensures l <= p.x < r && t <= p.y < b
  {
    var path := [poly[|poly| - 1]] + poly;
    assert forall q :: q in path ==> q in poly;
    if p.x >= r {
      NoCrossingsOnTheRight(p, path, l, r);
    }
    if p.x < l {
      CrossingsOnTheLeft(p, path, l, r);
    }
    if p.y < t || p.y >= b {
      NoStraddlesNoParity(p, path);
    }
  }

  /** A rectangle contains exactly its half-open box. */
  lemma RectangleExactly(p: Point, l: real, t: real, r: real, b: real)
    requires l <= r && t <= b
    ensures Inside(p, Rectangle(l, t, r, b)) <==> l <= p.x < r && t <= p.y < b
  {
    var q0, q1, q2, q3 := Point(l, t), Point(r, t), Point(r, b), Point(l, b);
    assert [q3] + Rectangle(l, t, r, b) == [q3, q0, q1, q2, q3];
    PathCons(Ray(p), q3, [q0, q1, q2, q3]);
    assert [q3] + [q0, q1, q2, q3] == [q3, q0, q1, q2, q3];
    PathCons(Ray(p), q0, [q1, q2, q3]);
    assert [q0] + [q1, q2, q3] == [q0, q1, q2, q3];
    PathCons(Ray(p), q1, [q2, q3]);
    assert [q1] + [q2, q3] == [q1, q2, q3];
    PathOfTwo(Ray(p), q3, q2);
    if Straddles(p, q0, q3) {
      CrossingBetween(p, q0, q3, l, l);
    }
    if Straddles(p, q2, q1) {
      CrossingBetween(p, q2, q1, r, r);
    }
  }

  /** Side by side, two rectangles share out the points of the whole: none twice, none lost. */
  lemma NeighboursPartition(p: Point, l: real, m: real, r: real, t: real, b: real)
    requires l <= m <= r && t <= b
    ensures !(Inside(p, Rectangle(l, t, m, b)) && Inside(p, Rectangle(m, t, r, b)))
    ensures Inside(p, Rectangle(l, t, r, b)) <==>
      Inside(p, Rectangle(l, t, m, b)) || Inside(p, Rectangle(m, t, r, b))
  {
    RectangleExactly(p, l, t, m, b);
    RectangleExactly(p, m, t, r, b);
    RectangleExactly(p, l, t, r, b);
  }
}
