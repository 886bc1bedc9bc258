/** Well-Known Text for a polygon with one exterior ring (OGC Simple Features
    Access Part 1, 06-103r4, clause 7), in the spacing the subset stage writes:
    `POLYGON((x y, x y, ...))`, with a reader for exactly that form. */
module Wkt {
  import opened Common
  import opened Decimal

  /** A position with integer coordinates: x is the longitude, y the latitude. */
  datatype Point = Point(x: int, y: int)

  /** A LinearRing (clause 6.1.7) must be closed: it ends where it starts;
      four positions are the fewest that close around an area. */
  predicate IsClosedRing(ring: seq<Point>) {
    |ring| >= 4 && ring[0] == ring[|ring| - 1]
  }

  function PointText(p: Point): string {
    IntText(p.x) + " " + IntText(p.y)
  }

  /** The points, each as `x y`, separated by `, `. */
  function CoordinatesText(pts: seq<Point>): string
    requires |pts| > 0
  {
    if |pts| == 1 then PointText(pts[0])
    else PointText(pts[0]) + ", " + CoordinatesText(pts[1..])
  }

  /** The polygon tagged text whose only ring is `ring`. */
  function PolygonText(ring: seq<Point>): string
    requires |ring| > 0
  {
    "POLYGON((" + CoordinatesText(ring) + "))"
  }

  /** A coordinate list is its first point, `, `, and the list of the rest. */
  lemma CoordinatesCons(p: Point, pts: seq<Point>, whole: seq<Point>, rest: string)
    requires |pts| > 0 && whole == [p] + pts && CoordinatesText(pts) == rest
    ensures CoordinatesText(whole) == PointText(p) + ", " + rest
  {
    assert whole[1..] == pts;
  }

  /** Reads `x y` at the front of s. */
  function ReadPoint(s: string): (r: Option<(Point, string)>)
    ensures r.Some? ==> |r.value.1| < |s|
  {
    var rx := ReadInt(s);
    if rx.None? then None
    else
      var rest := rx.value.1;
      if |rest| == 0 || rest[0] != ' ' then None
      else
        var ry := ReadInt(rest[1..]);
        if ry.None? then None
        else Some((Point(rx.value.0, ry.value.0), ry.value.1))
  }

  /** Reads one or more points separated by `, ` at the front of s. */
  function ReadCoordinates(s: string): (r: Option<(seq<Point>, string)>)
    ensures r.Some? ==> |r.value.0| > 0 && |r.value.1| < |s|
    decreases |s|
  {
    var rp := ReadPoint(s);
    if rp.None? then None
    else
      var rest := rp.value.1;
      if |rest| >= 2 && rest[..2] == ", " then
        var more := ReadCoordinates(rest[2..]);
        if more.None? then None
        else Some(([rp.value.0] + more.value.0, more.value.1))
      else Some(([rp.value.0], rest))
  }

  /** Reads a whole polygon tagged text with one ring; None unless all of s is consumed. */
  function ReadPolygon(s: string): (r: Option<seq<Point>>)
    ensures r.Some? ==> |r.value| > 0
  {
    if |s| >= 9 && s[..9] == "POLYGON((" then
      var rc := ReadCoordinates(s[9..]);
      if rc.Some? && rc.value.1 == "))" then Some(rc.value.0) else None
    else None
  }

  /** What may follow a coordinate list without being taken for more of it. */
  predicate EndsCoordinates(rest: string) {
    rest == [] || (!IsDigit(rest[0]) && !(|rest| >= 2 && rest[..2] == ", "))
  }

  /** ReadPoint in terms of the two integer reads it makes. */
  lemma ReadPointOf(s: string, x: int, tail: string, y: int, rest: string)
    requires ReadInt(s) == Some((x, tail))
    requires |tail| > 0 && tail[0] == ' '
    requires ReadInt(tail[1..]) == Some((y, rest))
    ensures ReadPoint(s) == Some((Point(x, y), rest))
  {
  }

  /** How the text of a point followed by more text splits at the space. */
  lemma PointSplit(a: string, b: string, rest: string)
    ensures (a + " " + b) + rest == a + (" " + b + rest)
    ensures (" " + b + rest)[1..] == b + rest
  {
  }

  lemma ReadPointText(p: Point, rest: string)
    requires rest == [] || !IsDigit(rest[0])
    ensures ReadPoint(PointText(p) + rest) == Some((p, rest))
  {
    var a, b := IntText(p.x), IntText(p.y);
    PointSplit(a, b, rest);
    ReadIntText(p.x, " " + b + rest);
    ReadIntText(p.y, rest);
    ReadPointOf(PointText(p) + rest, p.x, " " + b + rest, p.y, rest);
  }

  /** The reader stops after a point that is not followed by `, `. */
  lemma ReadCoordinatesLast(s: string, p: Point, rest: string)
    requires ReadPoint(s) == Some((p, rest))
    requires EndsCoordinates(rest)
    ensures ReadCoordinates(s) == Some(([p], rest))
  {
  }

  /** The reader goes on after a point that is followed by `, `. */
  lemma ReadCoordinatesNext(s: string, p: Point, more: string, ps: seq<Point>, rest: string)
    requires ReadPoint(s) == Some((p, ", " + more))
    requires ReadCoordinates(more) == Some((ps, rest))
    ensures ReadCoordinates(s) == Some(([p] + ps, rest))
  {
    var tail := ", " + more;
    assert tail[..2] == ", " && tail[2..] == more;
  }

  lemma ReadCoordinatesSingle(p: Point, rest: string)
    requires EndsCoordinates(rest)
    ensures ReadCoordinates(CoordinatesText([p]) + rest) == Some(([p], rest))
  {
    assert CoordinatesText([p]) == PointText(p);
    ReadPointText(p, rest);
    ReadCoordinatesLast(CoordinatesText([p]) + rest, p, rest);
  }

  lemma ReadCoordinatesCons(pts: seq<Point>, rest: string)
    requires |pts| > 1
    requires ReadCoordinates(CoordinatesText(pts[1..]) + rest) == Some((pts[1..], rest))
    ensures ReadCoordinates(CoordinatesText(pts) + rest) == Some((pts, rest))
  {
    var more := CoordinatesText(pts[1..]) + rest;
    assert CoordinatesText(pts) == PointText(pts[0]) + ", " + CoordinatesText(pts[1..]);
    ConcatAssoc(PointText(pts[0]), ", ", CoordinatesText(pts[1..]), rest);
    ReadPointText(pts[0], ", " + more);
    ReadCoordinatesNext(CoordinatesText(pts) + rest, pts[0], more, pts[1..], rest);
    assert [pts[0]] + pts[1..] == pts;
  }

  lemma {:induction false} ReadCoordinatesText(pts: seq<Point>, rest: string)
    requires |pts| > 0
    requires EndsCoordinates(rest)
    ensures ReadCoordinates(CoordinatesText(pts) + rest) == Some((pts, rest))
  {
    if |pts| == 1 {
      ReadCoordinatesSingle(pts[0], rest);
      assert [pts[0]] == pts;
    } else {
      ReadCoordinatesText(pts[1..], rest);
      ReadCoordinatesCons(pts, rest);
    }
  }

  /** The text is an unambiguous rendering: reading it back gives exactly the ring. */
  lemma ReadPolygonText(ring: seq<Point>)
    requires |ring| > 0
    ensures ReadPolygon(PolygonText(ring)) == Some(ring)
  {
    var s := PolygonText(ring);
    assert s[..9] == "POLYGON((";
    assert s[9..] == CoordinatesText(ring) + "))";
    ReadCoordinatesText(ring, "))");
  }

  /** Different rings never share a text. */
  lemma PolygonTextInjective(a: seq<Point>, b: seq<Point>)
    requires |a| > 0 && |b| > 0
    ensures PolygonText(a) == PolygonText(b) <==> a == b
  {
    ReadPolygonText(a);
    ReadPolygonText(b);
  }
}
