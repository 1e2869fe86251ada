/** backend/Services/ZonePolygonValidator.cs over exact coordinates, from the parsed JSON on. */
module ZonePolygonValidator {
  import opened Wrappers
  import opened Detections
  import opened PathSums

  /** A parsed document; strings, booleans, null and objects are all of no use here. */
  datatype Json = JNumber(value: real) | JArray(items: seq<Json>) | JOther

  const MIN_TWICE_AREA := 0.00002
  const EPSILON := 0.000000000001

  // ----- reading the points -----

  predicate InUnit(x: real) {
    0.0 <= x <= 1.0
  }

  function ToPoint(j: Json): Option<Point> {
    if j.JArray? && |j.items| == 2 && j.items[0].JNumber? && j.items[1].JNumber?
       && InUnit(j.items[0].value) && InUnit(j.items[1].value)
    then Some(Point(j.items[0].value, j.items[1].value))
    else None
  }

  ghost predicate AllPoints(items: seq<Json>) {
    forall i :: 0 <= i < |items| ==> ToPoint(items[i]).Some?
  }

  ghost function PointsOf(items: seq<Json>): seq<Point>
    requires AllPoints(items)
  {
    seq(|items|, i requires 0 <= i < |items| && AllPoints(items) => ToPoint(items[i]).value)
  }

  // ----- area -----

  function Cross2(p: Point, q: Point): real {
    p.x * q.y - q.x * p.y
  }

  function Shoelace(): Weight {
    (p, q) => Cross2(p, q)
  }

  /** Twice the signed area: the shoelace terms around the polygon. */
  ghost function TwiceArea(points: seq<Point>): real
    requires points != []
  {
    LoopSum(Shoelace(), points)
  }

  function Abs(x: real): real {
    if x < 0.0 then -x else x
  }

  // ----- crossings -----

  function Cross(p: Point, q: Point, r: Point): real {
    (q.x - p.x) * (r.y - p.y) - (q.y - p.y) * (r.x - p.x)
  }

  predicate SegmentsIntersect(a: Point, b: Point, c: Point, d: Point) {
    Cross(a, b, c) * Cross(a, b, d) < -EPSILON && Cross(c, d, a) * Cross(c, d, b) < -EPSILON
  }

  /** The vertex after vertex `i`. */
  function Next(i: nat, n: nat): nat {
    if i + 1 == n then 0 else i + 1
  }

  lemma NextIsModulo(i: nat, n: nat)
    requires i < n
    ensures (i + 1) % n == Next(i, n)
  {
    if i + 1 < n {
      assert (i + 1) / n == 0;
    }
  }

  /** The edges from vertices `i` and `j` are neither equal nor adjacent, and cross. */
  ghost predicate EdgesCross(points: seq<Point>, i: nat, j: nat)
    requires i < |points| && j < |points|
  {
    var n := |points|;
    i != j && Next(i, n) != j && Next(j, n) != i
    && SegmentsIntersect(points[i], points[Next(i, n)], points[j], points[Next(j, n)])
  }

  ghost predicate SelfCrossing(points: seq<Point>) {
    exists i, j :: 0 <= i < |points| && 0 <= j < |points| && EdgesCross(points, i, j)
  }

  ghost predicate ValidPolygon(points: seq<Point>) {
    |points| >= 3 && !SelfCrossing(points) && Abs(TwiceArea(points)) >= MIN_TWICE_AREA
  }

  ghost predicate ValidDocument(doc: Option<Json>) {
    && doc.Some? && doc.value.JArray?
    && AllPoints(doc.value.items) && ValidPolygon(PointsOf(doc.value.items))
  }

  // ----- the method -----

  /** `IsValid`; None is a blank or unparsable text. */
  method IsValid(doc: Option<Json>) returns (valid: bool)
    ensures valid <==> ValidDocument(doc)
  {
    if doc.None? || !doc.value.JArray? || |doc.value.items| < 3 {
      return false;
    }
    var items := doc.value.items;
    var points: seq<Point> := [];
    for k := 0 to |items|
      invariant |points| == k
      invariant forall i :: 0 <= i < k ==> ToPoint(items[i]) == Some(points[i])
    {
      var point := items[k];
      if !point.JArray? || |point.items| != 2 {
        return false;
      }
      if !point.items[0].JNumber? || !point.items[1].JNumber? {
        return false;
      }
      var x, y := point.items[0].value, point.items[1].value;
      if x < 0.0 || x > 1.0 || y < 0.0 || y > 1.0 {
        return false;
      }
      points := points + [Point(x, y)];
    }
    assert points == PointsOf(items);
    valid := CheckPoints(points);
  }

  /** The two passes over the points. */
  method CheckPoints(points: seq<Point>) returns (valid: bool)
    requires |points| >= 3
    ensures valid <==> ValidPolygon(points)
  {
    var twiceArea := ShoelaceSum(points);
    var crossing := FindCrossing(points);
    if crossing {
      return false;
    }
    return Abs(twiceArea) >= MIN_TWICE_AREA;
  }

  method ShoelaceSum(points: seq<Point>) returns (twiceArea: real)
    requires points != []
    ensures twiceArea == TwiceArea(points)
  {
    twiceArea := 0.0;
    ghost var loop := points + [points[0]];
    for index := 0 to |points|
      invariant twiceArea == PathSum(Shoelace(), loop[..index + 1])
    {
      NextIsModulo(index, |points|);
      var current, next := points[index], points[(index + 1) % |points|];
      assert loop[index] == current && loop[index + 1] == next;
      SumStep(Shoelace(), loop, index + 1);
      twiceArea := twiceArea + Cross2(current, next);
    }
    assert loop[..|points| + 1] == loop;
  }

  method FindCrossing(points: seq<Point>) returns (crossing: bool)
    requires points != []
    ensures crossing <==> SelfCrossing(points)
  {
    for first := 0 to |points|
      invariant forall i, j :: 0 <= i < first && i < j < |points| ==> !EdgesCross(points, i, j)
    {
      NextIsModulo(first, |points|);
      var firstNext := (first + 1) % |points|;
      for second := first + 1 to |points|
        invariant forall i, j :: 0 <= i < first && i < j < |points| ==> !EdgesCross(points, i, j)
        invariant forall j :: first < j < second ==> !EdgesCross(points, first, j)
      {
        NextIsModulo(second, |points|);
        var secondNext := (second + 1) % |points|;
        if first == second || firstNext == second || secondNext == first {
          continue;
        }
        if SegmentsIntersect(points[first], points[firstNext], points[second], points[secondNext]) {
          assert EdgesCross(points, first, second);
          return true;
        }
      }
    }
    forall i, j | 0 <= i < |points| && 0 <= j < |points| ensures !EdgesCross(points, i, j) {
      EdgesCrossSymmetric(points, i, j);
    }
    return false;
  }

  // ----- the crossing test does not depend on how the segments are named -----

  lemma SwapEnds(a: Point, b: Point, c: Point)
    ensures Cross(b, a, c) == -Cross(a, b, c)
  {
    var ux, uy := b.x - a.x, b.y - a.y;
    var vx, vy := c.x - a.x, c.y - a.y;
    assert Cross(a, b, c) == ux * vy - uy * vx;
    assert c.x - b.x == vx - ux && c.y - b.y == vy - uy;
    assert Cross(b, a, c) == (-ux) * (vy - uy) - (-uy) * (vx - ux);
    Minor(ux, uy, vx, vy);
  }

  lemma Minor(ux: real, uy: real, vx: real, vy: real)
    ensures (-ux) * (vy - uy) - (-uy) * (vx - ux) == -(ux * vy - uy * vx)
  {
  }

  lemma NegateBoth(u: real, v: real)
    ensures (-u) * (-v) == u * v
  {
  }

  lemma SegmentsIntersectSymmetric(a: Point, b: Point, c: Point, d: Point)
    ensures SegmentsIntersect(b, a, c, d) == SegmentsIntersect(a, b, c, d)
    ensures SegmentsIntersect(c, d, a, b) == SegmentsIntersect(a, b, c, d)
  {
    SwapEnds(a, b, c);
    SwapEnds(a, b, d);
    NegateBoth(Cross(a, b, c), Cross(a, b, d));
  }

  lemma SegmentsIntersectReversed(a: Point, b: Point, c: Point, d: Point)
    ensures SegmentsIntersect(b, a, d, c) == SegmentsIntersect(a, b, c, d)
  {
    SegmentsIntersectSymmetric(a, b, c, d);
    SegmentsIntersectSymmetric(c, d, a, b);
    SegmentsIntersectSymmetric(a, b, d, c);
    SegmentsIntersectSymmetric(d, c, a, b);
  }

  lemma EdgesCrossSymmetric(points: seq<Point>, i: nat, j: nat)
    requires i < |points| && j < |points|
    ensures EdgesCross(points, i, j) == EdgesCross(points, j, i)
  {
    var n := |points|;
    SegmentsIntersectSymmetric(points[i], points[Next(i, n)], points[j], points[Next(j, n)]);
  }
}
