/** The validator of backend/Services/ZonePolygonValidator.cs judges a shape, not the way its
    points are listed. */
module ZonePolygonTheorems {
  import opened Wrappers
  import opened Detections
  import opened Polygons
  import opened PathSums
  import opened ZonePolygonValidator

  lemma ShoelaceAntisymmetric()
    ensures Antisymmetric(Shoelace())
  {
  }

  // ----- rotation -----

  lemma CrossingsRotated(points: seq<Point>)
    requires points != []
    ensures SelfCrossing(Rotated(points)) <==> SelfCrossing(points)
  {
    var n, q := |points|, Rotated(points);
    assert forall i :: 0 <= i < n ==> q[i] == points[Next(i, n)];
    if i, j :| 0 <= i < n && 0 <= j < n && EdgesCross(q, i, j) {
      assert EdgesCross(points, Next(i, n), Next(j, n));
    }
    if i, j :| 0 <= i < n && 0 <= j < n && EdgesCross(points, i, j) {
      var i', j' := if i == 0 then n - 1 else i - 1, if j == 0 then n - 1 else j - 1;
      assert Next(i', n) == i && Next(j', n) == j;
      assert EdgesCross(q, i', j');
    }
  }

  /** The verdict does not depend on the point a polygon starts from. */
  lemma {:induction false} ValidUnderRotation(points: seq<Point>, k: nat)
    requires k <= |points|
    ensures ValidPolygon(points[k..] + points[..k]) <==> ValidPolygon(points)
    decreases k
  {
    if k == 0 {
      assert points[0..] + points[..0] == points;
    } else {
      var before := points[k - 1..] + points[..k - 1];
      ValidUnderRotation(points, k - 1);
      LoopSumRotated(Shoelace(), before);
      CrossingsRotated(before);
      assert Rotated(before) == points[k..] + points[..k];
    }
  }

  // ----- reversal -----

  lemma CrossingsReversed(points: seq<Point>)
    requires SelfCrossing(Reversed(points))
    ensures SelfCrossing(points)
  {
    var n, q := |points|, Reversed(points);
    var i, j :| 0 <= i < n && 0 <= j < n && EdgesCross(q, i, j);
    var i', j' := if i == n - 1 then n - 1 else n - 2 - i, if j == n - 1 then n - 1 else n - 2 - j;
    assert q[i] == points[Next(i', n)] && q[Next(i, n)] == points[i'];
    assert q[j] == points[Next(j', n)] && q[Next(j, n)] == points[j'];
    SegmentsIntersectReversed(q[i], q[Next(i, n)], q[j], q[Next(j, n)]);
    assert EdgesCross(points, i', j');
  }

  /** ... nor on the direction it is walked in. */
  lemma ValidUnderReversal(points: seq<Point>)
    ensures ValidPolygon(Reversed(points)) <==> ValidPolygon(points)
  {
    if |points| >= 3 {
      ShoelaceAntisymmetric();
      LoopSumReversed(Shoelace(), points);
      assert Reversed(Reversed(points)) == points;
      if SelfCrossing(Reversed(points)) {
        CrossingsReversed(points);
      }
      if SelfCrossing(points) {
        CrossingsReversed(Reversed(points));
      }
    }
  }

  // ----- what is accepted -----

  lemma RectangleArea(l: real, t: real, r: real, b: real)
    ensures TwiceArea(Rectangle(l, t, r, b)) == 2.0 * ((r - l) * (b - t))
  {
    var q0, q1, q2, q3 := Point(l, t), Point(r, t), Point(r, b), Point(l, b);
    var loop := [q0, q1, q2, q3, q0];
    assert Rectangle(l, t, r, b) + [q0] == loop && loop[..5] == loop;
    SumStep(Shoelace(), loop, 1);
    SumStep(Shoelace(), loop, 2);
    SumStep(Shoelace(), loop, 3);
    SumStep(Shoelace(), loop, 4);
    RectangleTerms(l, t, r, b);
  }

  lemma RectangleTerms(l: real, t: real, r: real, b: real)
    ensures (l * t - r * t) + (r * b - r * t) + (r * b - l * b) + (l * t - l * b) == 2.0 * ((r - l) * (b - t))
  {
    assert (r - l) * (b - t) == r * b - r * t - l * b + l * t;
  }

  lemma SquareNonNegative(u: real)
    ensures !(u * u < -EPSILON)
  {
    assert u * u >= 0.0;
  }

  lemma HorizontalNeverCross(a: Point, b: Point, c: Point, d: Point)
    requires a.y == b.y && c.y == d.y
    ensures !SegmentsIntersect(a, b, c, d)
  {
    var u := (b.x - a.x) * (c.y - a.y);
    assert Cross(a, b, c) == u && Cross(a, b, d) == u;
    SquareNonNegative(u);
  }

  lemma VerticalNeverCross(a: Point, b: Point, c: Point, d: Point)
    requires a.x == b.x && c.x == d.x
    ensures !SegmentsIntersect(a, b, c, d)
  {
    var u := -((b.y - a.y) * (c.x - a.x));
    assert Cross(a, b, c) == u && Cross(a, b, d) == u;
    SquareNonNegative(u);
  }

  lemma RectangleNotCrossing(l: real, t: real, r: real, b: real)
    ensures !SelfCrossing(Rectangle(l, t, r, b))
  {
    var q := Rectangle(l, t, r, b);
    HorizontalNeverCross(q[0], q[1], q[2], q[3]);
    VerticalNeverCross(q[1], q[2], q[3], q[0]);
    EdgesCrossSymmetric(q, 0, 2);
    EdgesCrossSymmetric(q, 1, 3);
    forall i, j | 0 <= i < 4 && 0 <= j < 4 ensures !EdgesCross(q, i, j) {
      if i == 0 {
      } else if i == 1 {
      } else if i == 2 {
      }
    }
  }

  /** An axis-aligned rectangle is accepted exactly when it covers a hundred-thousandth of the
      frame. */
  lemma RectangleValidExactly(l: real, t: real, r: real, b: real)
    requires l <= r && t <= b
    ensures ValidPolygon(Rectangle(l, t, r, b)) <==> (r - l) * (b - t) >= 0.00001
  {
    RectangleArea(l, t, r, b);
    RectangleNotCrossing(l, t, r, b);
    NonNegative(r - l, b - t);
  }

  lemma NonNegative(u: real, v: real)
    requires u >= 0.0 && v >= 0.0
    ensures u * v >= 0.0
  {
  }

  function From(base: Point, dir: Point, s: real): Point {
    Point(base.x + s * dir.x, base.y + s * dir.y)
  }

  /** Points on one line. */
  ghost predicate OnLine(points: seq<Point>, base: Point, dir: Point, at: seq<real>) {
    |at| == |points|
    && forall i :: 0 <= i < |points| ==> points[i] == From(base, dir, at[i])
  }

  lemma LineTerm(base: Point, dir: Point, k: real, s: real, t: real)
    requires k == base.x * dir.y - dir.x * base.y
    ensures Shoelace()(From(base, dir, s), From(base, dir, t)) == t * k - s * k
  {
    var sx, sy, tx, ty := s * dir.x, s * dir.y, t * dir.x, t * dir.y;
    LineExpand(base.x, base.y, sx, sy, tx, ty);
    assert sx * ty == tx * sy;
    assert t * k == base.x * ty - tx * base.y;
    assert s * k == base.x * sy - sx * base.y;
  }

  lemma LineExpand(x: real, y: real, sx: real, sy: real, tx: real, ty: real)
    ensures (x + sx) * (y + ty) - (x + tx) * (y + sy)
      == x * ty - x * sy - tx * y + sx * y + (sx * ty - tx * sy)
  {
  }

  ghost function Scaled(at: seq<real>, k: real): seq<real> {
    seq(|at|, i requires 0 <= i < |at| => at[i] * k)
  }

  lemma LineSteps(f: Weight, path: seq<Point>, base: Point, dir: Point, at: seq<real>, k: real, i: nat)
    requires f == Shoelace()
    requires OnLine(path, base, dir, at) && k == base.x * dir.y - dir.x * base.y
    requires i + 1 < |path|
    ensures f(path[i], path[i + 1]) == Scaled(at, k)[i + 1] - Scaled(at, k)[i]
  {
    LineTerm(base, dir, k, at[i], at[i + 1]);
  }

  /** A closed walk on a line encloses no area. */
  lemma LineLoop(f: Weight, path: seq<Point>, base: Point, dir: Point, at: seq<real>)
    requires f == Shoelace() && path != [] && OnLine(path, base, dir, at)
    requires at[|at| - 1] == at[0]
    ensures PathSum(f, path) == 0.0
  {
    var k := base.x * dir.y - dir.x * base.y;
    var level := Scaled(at, k);
    forall i | 0 <= i < |path| - 1 ensures f(path[i], path[i + 1]) == level[i + 1] - level[i] {
      LineSteps(f, path, base, dir, at, k, i);
    }
    Telescoping(f, path, level);
  }

  /** A line, or one point repeated, is never accepted. */
  lemma LineNeverValid(points: seq<Point>, base: Point, dir: Point, at: seq<real>)
    requires OnLine(points, base, dir, at)
    ensures !ValidPolygon(points)
  {
    if points != [] {
      LineLoop(Shoelace(), points + [points[0]], base, dir, at + [at[0]]);
    }
  }

  /** Cutting along a chord splits the signed area. */
  lemma ChordArea(points: seq<Point>, i: nat, j: nat)
    requires i < j < |points|
    ensures TwiceArea(points) == TwiceArea(points[i..j + 1]) + TwiceArea(points[j..] + points[..i + 1])
  {
    ShoelaceAntisymmetric();
    ChordSum(Shoelace(), points, i, j);
  }

  // ----- what is rejected -----

  function Along(a: Point, b: Point, s: real): Point {
    Point(a.x + s * (b.x - a.x), a.y + s * (b.y - a.y))
  }

  lemma OppositeSigns(u: real, v: real)
    requires u * v < 0.0
    ensures u != v && 0.0 < u / (u - v) < 1.0
  {
    SignsDiffer(u, v);
    if u > 0.0 {
      FractionBetween(u, -v);
    } else {
      FractionBetween(-u, v);
      SameFraction(u, u - v);
    }
  }

  lemma SignsDiffer(u: real, v: real)
    requires u * v < 0.0
    ensures (u > 0.0 && v < 0.0) || (u < 0.0 && v > 0.0)
  {
  }

  lemma PositiveFactor(q: real, d: real)
    requires d > 0.0 && q * d > 0.0
    ensures q > 0.0
  {
  }

  lemma Remainder(q: real, d: real)
    ensures (1.0 - q) * d == d - q * d
  {
  }

  lemma FractionBetween(u: real, w: real)
    requires u > 0.0 && w > 0.0
    ensures 0.0 < u / (u + w) < 1.0
  {
    var q, d := u / (u + w), u + w;
    assert q * d == u;
    PositiveFactor(q, d);
    Remainder(q, d);
    PositiveFactor(1.0 - q, d);
  }

  lemma SameFraction(u: real, d: real)
    requires d != 0.0
    ensures u / d == (-u) / (-d)
  {
    var q := u / d;
    assert q * d == u;
    assert q * (-d) == -u;
  }

  lemma MeetingIdentity(p: real, q: real, cx: real, cy: real, ex: real, ey: real)
    ensures (ey * cx - ex * cy) * p == -((ex * q - ey * p) * cx) - (p * cy - q * cx) * ex
    ensures (ey * cx - ex * cy) * q == -((ex * q - ey * p) * cy) - (p * cy - q * cx) * ey
  {
  }

  lemma CancelCommonFactor(x: real, y: real, w: real)
    requires w != 0.0 && x * w == y * w
    ensures x == y
  {
    assert x * w / w == x && y * w / w == y;
  }

  /** One coordinate of the common point: `s` and `t` are the fractions along the two segments. */
  lemma MeetingCoordinate(s: real, t: real, u: real, w: real, m: real, p: real, c: real, e: real)
    requires w != 0.0 && s * w == -u && t * w == m
    requires u * p == -(w * c) - m * e
    ensures s * p == c + t * e
  {
    assert (s * p) * w == (s * w) * p;
    assert (t * e) * w == (t * w) * e;
    assert (s * p) * w == w * c + m * e;
    assert (c + t * e) * w == c * w + (t * e) * w;
    CancelCommonFactor(s * p, c + t * e, w);
  }

  lemma SidesOfSegments(a: Point, b: Point, c: Point, d: Point)
    ensures var p, q, cx, cy, ex, ey := b.x - a.x, b.y - a.y, c.x - a.x, c.y - a.y, d.x - c.x, d.y - c.y;
      var u, w, m := ey * cx - ex * cy, ex * q - ey * p, p * cy - q * cx;
      && Cross(c, d, a) == u && Cross(c, d, b) == u + w
      && Cross(a, b, c) == m && Cross(a, b, d) == m - w
  {
    var p, q, cx, cy, ex, ey := b.x - a.x, b.y - a.y, c.x - a.x, c.y - a.y, d.x - c.x, d.y - c.y;
    assert a.x - c.x == -cx && a.y - c.y == -cy;
    assert b.x - c.x == p - cx && b.y - c.y == q - cy;
    assert d.x - a.x == cx + ex && d.y - a.y == cy + ey;
    assert ex * (-cy) - ey * (-cx) == ey * cx - ex * cy;
    assert ex * (q - cy) - ey * (p - cx) == (ey * cx - ex * cy) + (ex * q - ey * p);
    assert p * (cy + ey) - q * (cx + ex) == (p * cy - q * cx) - (ex * q - ey * p);
  }

  lemma FractionTimes(u: real, v: real)
    requires u != v
    ensures u / (u - v) * (v - u) == -u
  {
    var q := u / (u - v);
    assert q * (u - v) == u;
    assert q * (v - u) == -(q * (u - v));
  }

  /** The common point, from the sides on which the ends lie. */
  lemma MeetingPoint(a: Point, b: Point, c: Point, d: Point, s: real, t: real, u: real, w: real, m: real)
    requires w != 0.0 && s * w == -u && t * w == m
    requires u * (b.x - a.x) == -(w * (c.x - a.x)) - m * (d.x - c.x)
    requires u * (b.y - a.y) == -(w * (c.y - a.y)) - m * (d.y - c.y)
    ensures Along(a, b, s) == Along(c, d, t)
  {
    MeetingCoordinate(s, t, u, w, m, b.x - a.x, c.x - a.x, d.x - c.x);
    MeetingCoordinate(s, t, u, w, m, b.y - a.y, c.y - a.y, d.y - c.y);
  }

  ghost predicate Meet(a: Point, b: Point, c: Point, d: Point) {
    exists s, t :: 0.0 < s < 1.0 && 0.0 < t < 1.0 && Along(a, b, s) == Along(c, d, t)
  }

  lemma MeetFromSides(a: Point, b: Point, c: Point, d: Point, u: real, v: real, m: real, n: real)
    requires u * v < 0.0 && m * n < 0.0 && v - u == m - n
    requires u * (b.x - a.x) == -((v - u) * (c.x - a.x)) - m * (d.x - c.x)
    requires u * (b.y - a.y) == -((v - u) * (c.y - a.y)) - m * (d.y - c.y)
    ensures Meet(a, b, c, d)
  {
    OppositeSigns(u, v);
    OppositeSigns(m, n);
    var s, t := u / (u - v), m / (m - n);
    FractionTimes(u, v);
    assert t * (m - n) == m;
    MeetingPoint(a, b, c, d, s, t, u, v - u, m);
  }

  /** Edges are only called crossing when they truly meet, strictly inside both. */
  lemma CrossingsAreReal(a: Point, b: Point, c: Point, d: Point)
    requires SegmentsIntersect(a, b, c, d)
    ensures Meet(a, b, c, d)
  {
    var u, v, m, n := Cross(c, d, a), Cross(c, d, b), Cross(a, b, c), Cross(a, b, d);
    SidesMeet(a, b, c, d, u, v, m, n);
    MeetFromSides(a, b, c, d, u, v, m, n);
  }

  lemma SidesMeet(a: Point, b: Point, c: Point, d: Point, u: real, v: real, m: real, n: real)
    requires u == Cross(c, d, a) && v == Cross(c, d, b) && m == Cross(a, b, c) && n == Cross(a, b, d)
    ensures v - u == m - n
    ensures u * (b.x - a.x) == -((v - u) * (c.x - a.x)) - m * (d.x - c.x)
    ensures u * (b.y - a.y) == -((v - u) * (c.y - a.y)) - m * (d.y - c.y)
  {
    SidesOfSegments(a, b, c, d);
    MeetingIdentity(b.x - a.x, b.y - a.y, c.x - a.x, c.y - a.y, d.x - c.x, d.y - c.y);
  }

  // ----- segments that cross are found -----

  /** `p` moved by a multiple of `dir`. */
  function Shifted(p: Point, dir: Point, t: real): Point {
    Point(p.x + t * dir.x, p.y + t * dir.y)
  }

  function Outer(u: Point, v: Point): real {
    u.x * v.y - u.y * v.x
  }

  function Times(x: real, y: real): real {
    x * y
  }

  lemma ScaledTerms(ux: real, uy: real, vx: real, vy: real, s: real, t: real)
    ensures ux * (t * vy - s * uy) - uy * (t * vx - s * ux) == t * (ux * vy - uy * vx)
  {
    assert ux * (t * vy - s * uy) == t * (ux * vy) - s * (ux * uy);
    assert uy * (t * vx - s * ux) == t * (uy * vx) - s * (uy * ux);
  }

  /** The sides of a segment through `p` as seen from a point on another line through `p`. */
  lemma SideAlong(p: Point, u: Point, v: Point, s: real, e: real, t: real)
    requires e - s == 1.0
    ensures Cross(Shifted(p, u, s), Shifted(p, u, e), Shifted(p, v, t)) == Times(t, Outer(u, v))
  {
    var a, b, c := Shifted(p, u, s), Shifted(p, u, e), Shifted(p, v, t);
    assert b.x - a.x == u.x by { UnitStep(u.x, s, e); }
    assert b.y - a.y == u.y by { UnitStep(u.y, s, e); }
    assert c.x - a.x == t * v.x - s * u.x && c.y - a.y == t * v.y - s * u.y;
    ScaledTerms(u.x, u.y, v.x, v.y, s, t);
  }

  lemma UnitStep(x: real, s: real, e: real)
    requires e - s == 1.0
    ensures e * x - s * x == x
  {
    assert (e - s) * x == e * x - s * x;
  }

  lemma ProductOfSides(r: real, w: real)
    ensures (-r * w) * ((1.0 - r) * w) == -(r * (1.0 - r) * (w * w))
  {
  }

  lemma OuterTurned(u: Point, v: Point)
    ensures Outer(v, u) == -Outer(u, v)
  {
  }

  lemma SquareOfNegated(w: real)
    ensures (-w) * (-w) == w * w
  {
  }

  /** How the four ends lie, for segments that meet at the fractions s and r. */
  ghost predicate SidesAt(a: Point, b: Point, c: Point, d: Point, r: real, s: real, w: real) {
    && Cross(a, b, c) == Times(-r, w) && Cross(a, b, d) == Times(1.0 - r, w)
    && Cross(c, d, a) == Times(-s, -w) && Cross(c, d, b) == Times(1.0 - s, -w)
  }

  lemma MeetingSides(p: Point, u: Point, v: Point, s: real, r: real)
    ensures SidesAt(Shifted(p, u, -s), Shifted(p, u, 1.0 - s), Shifted(p, v, -r), Shifted(p, v, 1.0 - r),
                    r, s, Outer(u, v))
  {
    OuterTurned(u, v);
    SideAlong(p, u, v, -s, 1.0 - s, -r);
    SideAlong(p, u, v, -s, 1.0 - s, 1.0 - r);
    SideAlong(p, v, u, -r, 1.0 - r, -s);
    SideAlong(p, v, u, -r, 1.0 - r, 1.0 - s);
  }

  lemma IntersectBySides(a: Point, b: Point, c: Point, d: Point, r: real, s: real, w: real)
    requires SidesAt(a, b, c, d, r, s, w)
    ensures SegmentsIntersect(a, b, c, d) <==> MeetWellInside(r, w) && MeetWellInside(s, w)
  {
    assert Times(Cross(a, b, c), Cross(a, b, d)) == Times(-r * w, (1.0 - r) * w);
    assert Times(Cross(c, d, a), Cross(c, d, b)) == Times(-s * -w, (1.0 - s) * -w);
    ProductOfSides(r, w);
    ProductOfSides(s, -w);
    SquareOfNegated(w);
    assert Times(s * (1.0 - s), (-w) * (-w)) == Times(s * (1.0 - s), w * w);
  }

  /** A fraction away from both ends, at an angle whose outer product is w. */
  predicate MeetWellInside(t: real, w: real) {
    t * (1.0 - t) * (w * w) > 0.000000000001
  }

  /** Two segments that meet at fractions `s` and `r` of their lengths are called crossing if and
      only if they meet well inside both, at an angle that is not too flat. */
  lemma CrossingsAreFound(p: Point, u: Point, v: Point, s: real, r: real)
    ensures SegmentsIntersect(Shifted(p, u, -s), Shifted(p, u, 1.0 - s), Shifted(p, v, -r), Shifted(p, v, 1.0 - r))
      <==> MeetWellInside(r, Outer(u, v)) && MeetWellInside(s, Outer(u, v))
  {
    MeetingSides(p, u, v, s, r);
    IntersectBySides(Shifted(p, u, -s), Shifted(p, u, 1.0 - s), Shifted(p, v, -r), Shifted(p, v, 1.0 - r),
                     r, s, Outer(u, v));
  }

  const BOW_TIE := [Point(0.0, 0.0), Point(1.0, 1.0), Point(1.0, 0.0), Point(0.0, 0.5)]

  /** A quadrilateral that crosses itself, though its area is not zero. */
  lemma BowTieIsRejected()
    ensures !ValidPolygon(BOW_TIE)
  {
    assert EdgesCross(BOW_TIE, 0, 2);
  }

  // ----- documents -----

  /** A point is an array of two numbers, each from zero to one, and nothing else. */
  lemma ReadsExactly(j: Json, x: real, y: real)
    ensures ToPoint(j) == Some(Point(x, y))
      <==> j == JArray([JNumber(x), JNumber(y)]) && 0.0 <= x && x <= 1.0 && 0.0 <= y && y <= 1.0
  {
    if ToPoint(j) == Some(Point(x, y)) {
      assert j.items == [JNumber(x), JNumber(y)];
    }
  }

  // ----- the smallest polygons -----

  lemma TriangleArea(a: Point, b: Point, c: Point)
    ensures TwiceArea([a, b, c]) == Cross(a, b, c)
  {
    var f, path := Shoelace(), [a, b, c, a];
    assert [a, b, c] + [a] == path && path[..4] == path;
    SumStep(f, path, 1);
    SumStep(f, path, 2);
    SumStep(f, path, 3);
    assert PathSum(f, path[..1]) == 0.0;
    AreaTerms(a.x, a.y, b.x, b.y, c.x, c.y);
  }

  lemma AreaTerms(ax: real, ah: real, bx: real, bh: real, cx: real, ch: real)
    ensures (ax * bh - bx * ah) + (bx * ch - cx * bh) + (cx * ah - ax * ch)
      == (bx - ax) * (ch - ah) - (bh - ah) * (cx - ax)
  {
  }

  /** Fewer than three points are never a polygon; three are, if and only if they enclose an area of
      at least 0.00001. */
  lemma TriangleValidExactly(a: Point, b: Point, c: Point)
    ensures ValidPolygon([a, b, c]) <==> Cross(a, b, c) >= 0.00002 || Cross(a, b, c) <= -0.00002
    ensures !ValidPolygon([a, b])
  {
    TriangleArea(a, b, c);
    forall i, j | 0 <= i < 3 && 0 <= j < 3 ensures !EdgesCross([a, b, c], i, j) {
    }
  }
}
