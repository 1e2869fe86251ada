/** Ray casting against coordinates (cloud-ai/app/zones.py): which edges a ray crosses, and which
    points a triangle contains. */
module Triangles {
  import opened Detections
  import opened Polygons
  import opened RayParity
  import opened Zones

  // ----- one edge -----

  /** Positive when `p` lies on the one side of the line from `a` to `b`, negative on the other,
      zero on the line. */
  function Side(a: Point, b: Point, p: Point): real {
    (b.x - a.x) * (p.y - a.y) - (b.y - a.y) * (p.x - a.x)
  }

  lemma SameOrder(u: real, v: real, d: real)
    requires d > 0.0
    ensures u < v <==> u * d < v * d
  {
    if u < v {
      ScaleStrict(u, v, d);
    } else {
      Scale(v, u, d);
    }
  }

  lemma CrossesGoingUp(p: Point, a: Point, b: Point)
    requires a.y <= p.y < b.y
    ensures Crosses(p, a, b) <==> (p.x - a.x) * (b.y - a.y) < (b.x - a.x) * (p.y - a.y)
  {
    var d := b.y - a.y;
    CrossingXTimes(p, a, b);
    SameOrder(p.x, CrossingX(p, a, b), d);
    Distribute(p.x, -a.x, d);
  }

  lemma Commute(u: real, v: real)
    ensures u * v == v * u
  {
  }

  lemma SideGoingUp(p: Point, a: Point, b: Point)
    requires a.y <= p.y < b.y
    ensures Crosses(p, a, b) <==> Side(a, b, p) > 0.0
  {
    CrossesGoingUp(p, a, b);
    Commute(b.y - a.y, p.x - a.x);
  }

  lemma SideTurned(a: Point, b: Point, p: Point)
    ensures Side(b, a, p) == -Side(a, b, p)
  {
    SideApart(a.x - p.x, a.y - p.y, b.x - p.x, b.y - p.y, a, b, p);
    SideApart(b.x - p.x, b.y - p.y, a.x - p.x, a.y - p.y, b, a, p);
  }

  /** Seen from `p`. */
  lemma SideApart(ax: real, ah: real, bx: real, bh: real, a: Point, b: Point, p: Point)
    requires ax == a.x - p.x && ah == a.y - p.y && bx == b.x - p.x && bh == b.y - p.y
    ensures Side(a, b, p) == ax * bh - ah * bx
  {
    assert Side(a, b, p) == (bx - ax) * (-ah) - (bh - ah) * (-ax);
    ExpandSide(ax, ah, bx, bh);
  }

  lemma ExpandSide(ax: real, ah: real, bx: real, bh: real)
    ensures (bx - ax) * (-ah) - (bh - ah) * (-ax) == ax * bh - ah * bx
  {
  }

  /** An edge is crossed if and only if one end is at most as high as the point, the other is
      higher, and the point lies on that side of the edge. */
  lemma CrossesExactly(p: Point, a: Point, b: Point)
    ensures Crosses(p, a, b) <==>
      (a.y <= p.y < b.y && Side(a, b, p) > 0.0) || (b.y <= p.y < a.y && Side(a, b, p) < 0.0)
  {
    if a.y <= p.y < b.y {
      SideGoingUp(p, a, b);
    } else if b.y <= p.y < a.y {
      SideGoingUp(p, b, a);
      CrossesSymmetric(p, a, b);
      SideTurned(a, b, p);
    }
  }

  // ----- a triangle -----

  predicate Between(u: real, v: real, w: real) {
    u <= v <= w || w <= v <= u
  }

  predicate OnEdge(p: Point, a: Point, b: Point) {
    Side(a, b, p) == 0.0 && Between(a.x, p.x, b.x) && Between(a.y, p.y, b.y)
  }

  predicate OnSameSide(p: Point, a: Point, b: Point, c: Point) {
    || (Side(a, b, p) > 0.0 && Side(b, c, p) > 0.0 && Side(c, a, p) > 0.0)
    || (Side(a, b, p) < 0.0 && Side(b, c, p) < 0.0 && Side(c, a, p) < 0.0)
  }

  lemma InsideTriangle(p: Point, a: Point, b: Point, c: Point)
    ensures Inside(p, [a, b, c]) <==> ((Crosses(p, a, c) != Crosses(p, b, a)) != Crosses(p, c, b))
  {
    assert [c] + [a, b, c] == [c, a, b, c];
    PathCons(Ray(p), c, [a, b, c]);
    assert [a] + [b, c] == [a, b, c];
    PathCons(Ray(p), a, [b, c]);
    PathOfTwo(Ray(p), c, b);
  }

  // seen from the point: the three sides and the ordinates

  lemma SidesBalance(ax: real, ah: real, bx: real, bh: real, cx: real, ch: real)
    ensures (bx * ch - bh * cx) * ah + (cx * ah - ch * ax) * bh + (ax * bh - ah * bx) * ch == 0.0
  {
    assert (bx * ch - bh * cx) * ah == bx * ch * ah - bh * cx * ah;
    assert (cx * ah - ch * ax) * bh == cx * ah * bh - ch * ax * bh;
    assert (ax * bh - ah * bx) * ch == ax * bh * ch - ah * bx * ch;
    assert bx * ch * ah == ah * bx * ch;
    assert bh * cx * ah == cx * ah * bh;
    assert ch * ax * bh == ax * bh * ch;
  }

  lemma ProductSign(u: real, v: real)
    ensures u > 0.0 && v > 0.0 ==> u * v > 0.0
    ensures u < 0.0 && v < 0.0 ==> u * v > 0.0
    ensures u > 0.0 && v < 0.0 ==> u * v < 0.0
    ensures u < 0.0 && v > 0.0 ==> u * v < 0.0
    ensures u == 0.0 || v == 0.0 ==> u * v == 0.0
  {
    if u > 0.0 && v > 0.0 {
      ScaleStrict(0.0, u, v);
    } else if u < 0.0 && v < 0.0 {
      ScaleStrict(0.0, -u, -v);
      assert (-u) * (-v) == u * v;
    } else if u > 0.0 && v < 0.0 {
      ScaleStrict(0.0, u, -v);
      assert u * (-v) == -(u * v);
    } else if u < 0.0 && v > 0.0 {
      ScaleStrict(u, 0.0, v);
    }
  }

  /** Of two that do not have the sign of the third ordinate: the third side has their sign. */
  lemma ThirdSide(s: real, t: real, u: real, ah: real, bh: real, ch: real)
    requires s * ah + t * bh + u * ch == 0.0
    requires (ah <= 0.0 && bh <= 0.0 && ch > 0.0) || (ah > 0.0 && bh > 0.0 && ch <= 0.0)
    ensures s > 0.0 && t > 0.0 ==> u > 0.0 || (u == 0.0 && ah == 0.0 && bh == 0.0)
    ensures s < 0.0 && t < 0.0 ==> u < 0.0 || (u == 0.0 && ah == 0.0 && bh == 0.0)
  {
    ProductSign(s, ah);
    ProductSign(t, bh);
    ProductSign(u, ch);
  }

  /** On the line of an edge that reaches across the height of the point, the point is on the
      edge. */
  lemma LineMeetsEdge(ax: real, ah: real, bx: real, bh: real)
    requires ax * bh - ah * bx == 0.0 && (ah <= 0.0 < bh || bh <= 0.0 < ah)
    ensures Between(ax, 0.0, bx)
  {
    ProductSign(ax, bh);
    ProductSign(ah, bx);
  }

  lemma OffEdge(p: Point, a: Point, b: Point)
    requires !OnEdge(p, a, b) && Straddles(p, a, b)
    ensures Side(a, b, p) != 0.0
  {
    if Side(a, b, p) == 0.0 {
      SideApart(a.x - p.x, a.y - p.y, b.x - p.x, b.y - p.y, a, b, p);
      LineMeetsEdge(a.x - p.x, a.y - p.y, b.x - p.x, b.y - p.y);
    }
  }

  /** An edge at the height of the point, seen from the third vertex on either side of it. */
  lemma FlatEdge(ax: real, bx: real, ch: real)
    requires (bx * ch > 0.0 && -ch * ax > 0.0) || (bx * ch < 0.0 && -ch * ax < 0.0)
    ensures Between(ax, 0.0, bx)
  {
    ProductSign(bx, ch);
    ProductSign(-ch, ax);
  }

  lemma SidesAgree(p: Point, a: Point, b: Point, c: Point)
    requires !OnEdge(p, a, b) && (a.y > p.y) == (b.y > p.y) && (c.y > p.y) != (a.y > p.y)
    requires (Side(b, c, p) > 0.0 && Side(c, a, p) > 0.0) || (Side(b, c, p) < 0.0 && Side(c, a, p) < 0.0)
    ensures OnSameSide(p, a, b, c)
  {
    var ax, ah, bx, bh, cx, ch := a.x - p.x, a.y - p.y, b.x - p.x, b.y - p.y, c.x - p.x, c.y - p.y;
    SideApart(ax, ah, bx, bh, a, b, p);
    SideApart(bx, bh, cx, ch, b, c, p);
    SideApart(cx, ch, ax, ah, c, a, p);
    SidesBalance(ax, ah, bx, bh, cx, ch);
    ThirdSide(Side(b, c, p), Side(c, a, p), Side(a, b, p), ah, bh, ch);
    if ah == 0.0 && bh == 0.0 {
      FlatEdge(ax, bx, ch);
    }
  }

  /** One vertex on the other side of the point's height than the other two. */
  lemma ApexAlone(p: Point, a: Point, b: Point, c: Point)
    requires !OnEdge(p, a, b) && !OnEdge(p, b, c) && !OnEdge(p, c, a)
    requires (a.y > p.y) == (b.y > p.y) && (c.y > p.y) != (a.y > p.y)
    ensures Inside(p, [a, b, c]) <==> OnSameSide(p, a, b, c)
  {
    InsideTriangle(p, a, b, c);
    CrossesExactly(p, b, a);
    CrossesExactly(p, c, b);
    CrossesExactly(p, a, c);
    SideTurned(b, c, p);
    SideTurned(c, a, p);
    OffEdge(p, b, c);
    OffEdge(p, c, a);
    if (Side(b, c, p) > 0.0) == (Side(c, a, p) > 0.0) {
      SidesAgree(p, a, b, c);
    }
  }

  /** All vertices on one side of the point's height: nothing is crossed, and the sides differ. */
  lemma AllOnOneSide(p: Point, a: Point, b: Point, c: Point)
    requires (a.y > p.y) == (b.y > p.y) == (c.y > p.y)
    ensures !Inside(p, [a, b, c]) && !OnSameSide(p, a, b, c)
  {
    InsideTriangle(p, a, b, c);
    var ax, ah, bx, bh, cx, ch := a.x - p.x, a.y - p.y, b.x - p.x, b.y - p.y, c.x - p.x, c.y - p.y;
    SideApart(ax, ah, bx, bh, a, b, p);
    SideApart(bx, bh, cx, ch, b, c, p);
    SideApart(cx, ch, ax, ah, c, a, p);
    SidesBalance(ax, ah, bx, bh, cx, ch);
    BalanceFails(Side(b, c, p), Side(c, a, p), Side(a, b, p), ah, bh, ch);
    if ah == 0.0 && bh == 0.0 && ch == 0.0 {
      assert Side(a, b, p) == 0.0;
    }
  }

  lemma BalanceFails(s: real, t: real, u: real, ah: real, bh: real, ch: real)
    requires s * ah + t * bh + u * ch == 0.0
    requires (ah > 0.0 && bh > 0.0 && ch > 0.0) || (ah <= 0.0 && bh <= 0.0 && ch <= 0.0)
    ensures (s > 0.0 && t > 0.0 && u > 0.0) || (s < 0.0 && t < 0.0 && u < 0.0) ==>
      ah == 0.0 && bh == 0.0 && ch == 0.0
  {
    ProductSign(s, ah);
    ProductSign(t, bh);
    ProductSign(u, ch);
  }

  lemma TurnedTriangle(p: Point, a: Point, b: Point, c: Point)
    ensures Inside(p, [b, c, a]) == Inside(p, [a, b, c])
  {
    InsideHowever(p, [a, b, c], 1);
    assert [a, b, c][1..] + [a, b, c][..1] == [b, c, a];
  }

  /** A triangle, whichever way round, contains a point off its edges if and only if the point is
      on the same side of all three of them. */
  lemma TriangleExactly(p: Point, a: Point, b: Point, c: Point)
    requires !OnEdge(p, a, b) && !OnEdge(p, b, c) && !OnEdge(p, c, a)
    ensures Inside(p, [a, b, c]) <==>
      || (Side(a, b, p) > 0.0 && Side(b, c, p) > 0.0 && Side(c, a, p) > 0.0)
      || (Side(a, b, p) < 0.0 && Side(b, c, p) < 0.0 && Side(c, a, p) < 0.0)
  {
    if (a.y > p.y) == (b.y > p.y) == (c.y > p.y) {
      AllOnOneSide(p, a, b, c);
    } else if (a.y > p.y) == (b.y > p.y) {
      ApexAlone(p, a, b, c);
    } else if (b.y > p.y) == (c.y > p.y) {
      TurnedTriangle(p, a, b, c);
      ApexAlone(p, b, c, a);
    } else {
      TurnedTriangle(p, a, b, c);
      TurnedTriangle(p, b, c, a);
      ApexAlone(p, c, a, b);
    }
  }

  // ----- a polygon -----

  /** Membership by coordinates alone: the parity of the fan triangles that have the point on one
      side of all their edges. */
  function FanSides(p: Point, poly: Polygon, k: nat): bool
    requires k < |poly|
  {
    if k < 2 then false else FanSides(p, poly, k - 1) != OnSameSide(p, poly[0], poly[k - 1], poly[k])
  }

  ghost predicate OffFan(p: Point, poly: Polygon) {
    forall i: nat :: 1 <= i < |poly| ==> OffSpoke(p, poly, i)
  }

  predicate OffSpoke(p: Point, poly: Polygon, i: nat)
    requires 1 <= i < |poly|
  {
    !OnEdge(p, poly[0], poly[i]) && !OnEdge(p, poly[i], poly[0]) && !OnEdge(p, poly[i - 1], poly[i])
  }

  lemma {:induction false} FanIsSides(p: Point, poly: Polygon, k: nat)
    requires k < |poly| && OffFan(p, poly)
    ensures FanParity(Ray(p), poly, k) == FanSides(p, poly, k)
  {
    if k >= 2 {
      FanIsSides(p, poly, k - 1);
      assert OffSpoke(p, poly, k - 1) && OffSpoke(p, poly, k);
      TriangleExactly(p, poly[0], poly[k - 1], poly[k]);
    }
  }

  /** Any polygon, crossing itself or not, for a point off its fan. */
  lemma PolygonExactly(p: Point, poly: Polygon)
    requires |poly| >= 3 && OffFan(p, poly)
    ensures Inside(p, poly) == FanSides(p, poly, |poly| - 1)
  {
    TriangleFan(p, poly);
    FanIsSides(p, poly, |poly| - 1);
  }

  /** Under a slanted edge but right of its middle. */
  lemma SlantedEdge()
    ensures Inside(Point(0.7, 0.2), [Point(0.0, 0.0), Point(1.0, 0.0), Point(0.0, 1.0)])
    ensures !Inside(Point(0.7, 0.4), [Point(0.0, 0.0), Point(1.0, 0.0), Point(0.0, 1.0)])
  {
    TriangleExactly(Point(0.7, 0.2), Point(0.0, 0.0), Point(1.0, 0.0), Point(0.0, 1.0));
    TriangleExactly(Point(0.7, 0.4), Point(0.0, 0.0), Point(1.0, 0.0), Point(0.0, 1.0));
  }
}
