/** Points in a row: the polygons of zone geometry and of the polygon validator. */
module Polygons {
  import opened Detections

  type Polygon = seq<Point>

  /** The same points, walked the other way. */
  function Reversed(points: Polygon): Polygon {
    seq(|points|, i requires 0 <= i < |points| => points[|points| - 1 - i])
  }

  function Rectangle(l: real, t: real, r: real, b: real): Polygon {
    [Point(l, t), Point(r, t), Point(r, b), Point(l, b)]
  }
}
