/** The bounding box of the subset stage: its check and the closed
    rectangular ring built from it. */
module BoundingBox {
  import opened Common
  import opened Wkt

  const BboxMessage := "bbox must be a list of [minLon, minLat, maxLon, maxLat]"

  /** Python's `not bbox or len(bbox) != 4` is false: a present list of four
      numbers. None stands for Python's None; an empty list is rejected too. */
  predicate IsWellFormed(bbox: Option<seq<int>>) {
    bbox.Some? && |bbox.value| == 4
  }

  /** [minLon, minLat, maxLon, maxLat] as the ring lower-left, lower-right,
      upper-right, upper-left, back to lower-left. */
  function Ring(b: seq<int>): (ring: seq<Point>)
    requires |b| == 4
    ensures |ring| == 5 && IsClosedRing(ring)
  {
    [Point(b[0], b[1]), Point(b[2], b[1]), Point(b[2], b[3]), Point(b[0], b[3]), Point(b[0], b[1])]
  }

  /** The WKT the subset stage hands to the geometry reader, or the
      ValueError raised for a malformed box, before any geometry is built. */
  function GeometryWkt(bbox: Option<seq<int>>): (r: Result<string, Error>)
    ensures r.Failure? <==> !IsWellFormed(bbox)
    ensures r.Failure? ==> r.error == InvalidArgument(BboxMessage)
    ensures r.Success? ==> ReadPolygon(r.value) == Some(Ring(bbox.value))
  {
    if !IsWellFormed(bbox) then Failure(InvalidArgument(BboxMessage))
    else
      var ring := Ring(bbox.value);
      ReadPolygonText(ring);
      Success(PolygonText(ring))
  }

  /** The coordinate list of the ring: (b0 b1), (b2 b1), (b2 b3), (b0 b3),
      (b0 b1), each written `x y`, joined by `, `. */
  lemma RingCoordinates(b: seq<int>)
    requires |b| == 4
    ensures CoordinatesText(Ring(b)) == PointText(Point(b[0], b[1])) + ", " + PointText(Point(b[2], b[1]))
      + ", " + PointText(Point(b[2], b[3])) + ", " + PointText(Point(b[0], b[3])) + ", " + PointText(Point(b[0], b[1]))
  {
    var q0, q1, q2, q3 := Point(b[0], b[1]), Point(b[2], b[1]), Point(b[2], b[3]), Point(b[0], b[3]);
    var p0, p1, p2, p3 := PointText(q0), PointText(q1), PointText(q2), PointText(q3);
    CoordinatesCons(q3, [q0], [q3, q0], p0);
    CoordinatesCons(q2, [q3, q0], [q2, q3, q0], p3 + ", " + p0);
    CoordinatesCons(q1, [q2, q3, q0], [q1, q2, q3, q0], p2 + ", " + (p3 + ", " + p0));
    CoordinatesCons(q0, [q1, q2, q3, q0], [q0, q1, q2, q3, q0], p1 + ", " + (p2 + ", " + (p3 + ", " + p0)));
    JoinAssoc(", ", p0, p1, p2, p3, p0);
  }

  /** A well-formed box renders as the source's format string, vertex by vertex. */
  lemma RingTextLayout(b: seq<int>)
    requires |b| == 4
    ensures GeometryWkt(Some(b)) == Success("POLYGON((" + PointText(Point(b[0], b[1])) + ", " + PointText(Point(b[2], b[1]))
      + ", " + PointText(Point(b[2], b[3])) + ", " + PointText(Point(b[0], b[3])) + ", " + PointText(Point(b[0], b[1])) + "))")
  {
    RingCoordinates(b);
    WrapAssoc("POLYGON((", "))", ", ", PointText(Point(b[0], b[1])), PointText(Point(b[2], b[1])),
      PointText(Point(b[2], b[3])), PointText(Point(b[0], b[3])), PointText(Point(b[0], b[1])));
  }

  /** The worked example: [10, 20, 30, 40] becomes
      POLYGON((10 20, 30 20, 30 40, 10 40, 10 20)). */
  lemma ExampleWkt()
    ensures GeometryWkt(Some([10, 20, 30, 40])) == Success("POLYGON((10 20, 30 20, 30 40, 10 40, 10 20))")
  {
    RingTextLayout([10, 20, 30, 40]);
    ExamplePoints();
    ExampleText();
  }

  lemma ExampleText()
    ensures "POLYGON((" + "10 20" + ", " + "30 20" + ", " + "30 40" + ", " + "10 40" + ", " + "10 20" + "))"
      == "POLYGON((10 20, 30 20, 30 40, 10 40, 10 20))"
  {
  }

  lemma ExamplePoints()
    ensures PointText(Point(10, 20)) == "10 20" && PointText(Point(30, 20)) == "30 20"
    ensures PointText(Point(30, 40)) == "30 40" && PointText(Point(10, 40)) == "10 40"
  {
    assert Decimal.NatText(1) == "1" && Decimal.NatText(2) == "2";
    assert Decimal.NatText(3) == "3" && Decimal.NatText(4) == "4";
    assert Decimal.IntText(10) == "10";
    assert Decimal.IntText(20) == "20";
    assert Decimal.IntText(30) == "30";
    assert Decimal.IntText(40) == "40";
  }

  /** Twice the signed area enclosed by a ring (the shoelace sum). */
  function DoubleArea(ring: seq<Point>): int {
    if |ring| < 2 then 0
    else ring[0].x * ring[1].y - ring[1].x * ring[0].y + DoubleArea(ring[1..])
  }

  /** The ring encloses (maxLon - minLon) * (maxLat - minLat), with a sign:
      positive, that is counter-clockwise, exactly when both extents are
      positive or both negative. */
  lemma RingArea(b: seq<int>)
    requires |b| == 4
    ensures DoubleArea(Ring(b)) == 2 * (b[2] - b[0]) * (b[3] - b[1])
  {
    var r := Ring(b);
    assert r[1..][1..][1..][1..] == [r[4]];
    assert DoubleArea(r[1..][1..][1..]) == b[0] * b[1] - b[0] * b[3];
    assert DoubleArea(r[1..][1..]) == b[2] * b[3] - b[0] * b[3] + b[0] * b[1] - b[0] * b[3];
    assert DoubleArea(r[1..]) == b[2] * b[3] - b[2] * b[1] + DoubleArea(r[1..][1..]);
  }

  /** A box given in the documented order, minimum below maximum on both
      axes, yields a counter-clockwise ring. */
  lemma OrderedBoxIsCounterClockwise(b: seq<int>)
    requires |b| == 4 && b[0] < b[2] && b[1] < b[3]
    ensures DoubleArea(Ring(b)) > 0
  {
    RingArea(b);
    var w, h := b[2] - b[0], b[3] - b[1];
    assert w * h > 0;
  }

  /** Every edge of the ring runs along a meridian or a parallel: the edges
      alternate bottom, right, top, left. */
  lemma RingEdgesAxisAligned(b: seq<int>)
    requires |b| == 4
    ensures forall i :: 0 <= i < 4 ==> (i % 2 == 0 ==> Ring(b)[i].y == Ring(b)[i + 1].y) && (i % 2 == 1 ==> Ring(b)[i].x == Ring(b)[i + 1].x)
  {
  }

  /** The four corners are distinct exactly when the box has width and
      height; the box itself is not checked for this, so a degenerate box
      gives a ring that repeats a corner. */
  lemma CornersDistinct(b: seq<int>)
    requires |b| == 4
    ensures (forall i, j :: 0 <= i < j < 4 ==> Ring(b)[i] != Ring(b)[j]) <==> (b[0] != b[2] && b[1] != b[3])
  {
    var r := Ring(b);
    if b[0] == b[2] {
      assert r[0] == r[1];
    } else if b[1] == b[3] {
      assert r[0] == r[3];
    }
  }
}
