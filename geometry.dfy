/** The edge matcher of the done-links plugin: is a link's two-point edge,
    in either direction, one of the edges of a drawn polyline or polygon? */
module Geometry {

  /** A map position in degrees. */
  datatype Point = Point(lat: real, lng: real)

  /** The largest difference, in degrees, at which Leaflet's `equals`
      still counts two coordinates as the same. */
  const MaxMargin: real := 0.000000001

  function Abs(x: real): real
  {
    if x < 0.0 then -x else x
  }

  /** Position equality, the Leaflet `equals` the plugin calls on two
      positions: both coordinates agree up to `MaxMargin`. It is reflexive
      and symmetric but not transitive (see EqNotTransitive). The general
      results below do not use this definition; only the lemmas about fixed
      points do. */
  predicate Eq(p: Point, q: Point)
  {
    Abs(p.lat - q.lat) <= MaxMargin && Abs(p.lng - q.lng) <= MaxMargin
  }

  lemma EqReflexiveSymmetric(p: Point, q: Point)
    ensures Eq(p, p)
    ensures Eq(p, q) == Eq(q, p)
  {
  }

  /** Three positions, each a margin apart: the first equals the second and
      the second the third, but the first does not equal the third. */
  lemma EqNotTransitive()
    ensures var p, q, r := Point(0.0, 0.0), Point(MaxMargin, 0.0), Point(2.0 * MaxMargin, 0.0);
            Eq(p, q) && Eq(q, r) && !Eq(p, r)
  {
  }

  /** `sameLink`: the edge a0-a1 equals the edge b0-b1 in one direction or
      the other. */
  predicate SameLink(a0: Point, a1: Point, b0: Point, b1: Point)
  {
    (Eq(a0, b0) && Eq(a1, b1)) || (Eq(a0, b1) && Eq(a1, b0))
  }

  /** SameLink does not care which way round either edge is given, nor
      which of the two edges comes first, and every edge matches itself. */
  lemma SameLinkDirectionFree(a0: Point, a1: Point, b0: Point, b1: Point)
    ensures SameLink(a0, a1, b0, b1) == SameLink(a1, a0, b0, b1)
    ensures SameLink(a0, a1, b0, b1) == SameLink(a0, a1, b1, b0)
    ensures SameLink(a0, a1, b0, b1) == SameLink(b0, b1, a0, a1)
    ensures SameLink(a0, a1, a0, a1) && SameLink(a0, a1, a1, a0)
  {
  }

  /** The specification of `testPolyLine`: the edge a0-a1 is one of the
      edges between consecutive points of `b`, or, when the shape is
      `closed`, the closing edge from the last point back to the first. A
      shape without points has no closing edge. */
  predicate ShapeMatches(a0: Point, a1: Point, b: seq<Point>, closed: bool)
  {
    (exists i :: 0 <= i < |b| - 1 && SameLink(a0, a1, b[i], b[i + 1]))
    || (closed && |b| > 0 && SameLink(a0, a1, b[|b| - 1], b[0]))
  }

  /** `testPolyLine`: walk the consecutive edges of the shape, stop at the
      first that matches, and try the closing edge last when the shape is a
      polygon. */
  method TestPolyLine(a0: Point, a1: Point, b: seq<Point>, closed: bool) returns (found: bool)
    ensures found <==> ShapeMatches(a0, a1, b, closed)
    ensures found && !closed ==> exists i :: 0 <= i < |b| - 1 && SameLink(a0, a1, b[i], b[i + 1])
  {
    var i := 0;
    while i < |b| - 1
      invariant 0 <= i && (i == 0 || i < |b|)
      invariant forall k :: 0 <= k < i ==> !SameLink(a0, a1, b[k], b[k + 1])
    {
      if SameLink(a0, a1, b[i], b[i + 1]) {
        return true;
      }
      i := i + 1;
    }
    if closed {
      if |b| > 0 && SameLink(a0, a1, b[|b| - 1], b[0]) {
        return true;
      }
    }
    return false;
  }

  /** The points of a shape in the opposite order. */
  function Reversed(b: seq<Point>): (r: seq<Point>)
    ensures |r| == |b|
    ensures forall k :: 0 <= k < |b| ==> r[k] == b[|b| - 1 - k]
  {
    seq(|b|, k requires 0 <= k < |b| => b[|b| - 1 - k])
  }

  /** Drawing a shape in the other direction matches the same links. */
  lemma ShapeMatchesReversed(a0: Point, a1: Point, b: seq<Point>, closed: bool)
    ensures ShapeMatches(a0, a1, Reversed(b), closed) == ShapeMatches(a0, a1, b, closed)
  {
    var r, n := Reversed(b), |b|;
    if exists i :: 0 <= i < n - 1 && SameLink(a0, a1, b[i], b[i + 1]) {
      var i :| 0 <= i < n - 1 && SameLink(a0, a1, b[i], b[i + 1]);
      assert SameLink(a0, a1, r[n - 2 - i], r[n - 2 - i + 1]);
    }
    if exists i :: 0 <= i < n - 1 && SameLink(a0, a1, r[i], r[i + 1]) {
      var i :| 0 <= i < n - 1 && SameLink(a0, a1, r[i], r[i + 1]);
      assert SameLink(a0, a1, b[n - 2 - i], b[n - 2 - i + 1]);
    }
  }

  /** The index after `j` going round a polygon of `n` points. */
  function Next(j: nat, n: nat): nat
  {
    if j + 1 < n then j + 1 else 0
  }

  /** A polygon matches exactly when one of its `|b|` edges, each from a
      point to the next one round the polygon, matches. */
  lemma ClosedMatchesSomeEdge(a0: Point, a1: Point, b: seq<Point>)
    ensures ShapeMatches(a0, a1, b, true)
        <==> exists j :: 0 <= j < |b| && Next(j, |b|) < |b| && SameLink(a0, a1, b[j], b[Next(j, |b|)])
  {
    var n := |b|;
    if ShapeMatches(a0, a1, b, true) {
      if exists i :: 0 <= i < n - 1 && SameLink(a0, a1, b[i], b[i + 1]) {
        var i :| 0 <= i < n - 1 && SameLink(a0, a1, b[i], b[i + 1]);
        assert Next(i, n) == i + 1;
      } else {
        assert Next(n - 1, n) == 0;
      }
    }
    if exists j :: 0 <= j < n && Next(j, n) < n && SameLink(a0, a1, b[j], b[Next(j, n)]) {
      var j :| 0 <= j < n && Next(j, n) < n && SameLink(a0, a1, b[j], b[Next(j, n)]);
      if j + 1 < n {
        assert SameLink(a0, a1, b[j], b[j + 1]);
      }
    }
  }

  /** The same polygon listed from its `k`-th point on. */
  function Rotated(b: seq<Point>, k: nat): (r: seq<Point>)
    requires k <= |b|
    ensures |r| == |b|
    ensures forall j :: 0 <= j < |b| ==> r[j] == b[Shift(j, k, |b|)]
  {
    b[k..] + b[..k]
  }

  /** Where the `j`-th point of a polygon rotated by `k` came from. */
  function Shift(j: nat, k: nat, n: nat): nat
  {
    if j + k < n then j + k else j + k - n
  }

  /** Rotating a polygon commutes with stepping to the next point. */
  lemma ShiftNext(j: nat, k: nat, n: nat)
    requires j < n && k <= n
    ensures Shift(j, k, n) < n
    ensures Shift(Next(j, n), k, n) == Next(Shift(j, k, n), n)
  {
  }

  /** Every side of a polygon is a side of the polygon rotated by `k`. */
  lemma RotatedKeepsSide(a0: Point, a1: Point, b: seq<Point>, k: nat, j: nat)
    requires k <= |b| && j < |b| && SameLink(a0, a1, b[j], b[Next(j, |b|)])
    ensures exists j' :: 0 <= j' < |b| && Next(j', |b|) < |b|
              && SameLink(a0, a1, Rotated(b, k)[j'], Rotated(b, k)[Next(j', |b|)])
  {
    var n := |b|;
    var j' := if j >= k then j - k else j - k + n;
    ShiftNext(j', k, n);
    assert Rotated(b, k)[j'] == b[j] && Rotated(b, k)[Next(j', n)] == b[Next(j, n)];
  }

  /** Every side of a polygon rotated by `k` is a side of the polygon. */
  lemma RotatedHasOnlySides(a0: Point, a1: Point, b: seq<Point>, k: nat, j: nat)
    requires k <= |b| && j < |b| && SameLink(a0, a1, Rotated(b, k)[j], Rotated(b, k)[Next(j, |b|)])
    ensures exists i :: 0 <= i < |b| && Next(i, |b|) < |b| && SameLink(a0, a1, b[i], b[Next(i, |b|)])
  {
    var n := |b|;
    ShiftNext(j, k, n);
    var i := Shift(j, k, n);
    assert Rotated(b, k)[j] == b[i] && Rotated(b, k)[Next(j, n)] == b[Next(i, n)];
  }

  /** A polygon matches the same links whichever of its points it is listed
      from. */
  lemma ClosedMatchesRotated(a0: Point, a1: Point, b: seq<Point>, k: nat)
    requires k <= |b|
    ensures ShapeMatches(a0, a1, Rotated(b, k), true) == ShapeMatches(a0, a1, b, true)
  {
    var r, n := Rotated(b, k), |b|;
    ClosedMatchesSomeEdge(a0, a1, b);
    ClosedMatchesSomeEdge(a0, a1, r);
    if ShapeMatches(a0, a1, b, true) {
      var j :| 0 <= j < n && Next(j, n) < n && SameLink(a0, a1, b[j], b[Next(j, n)]);
      RotatedKeepsSide(a0, a1, b, k, j);
    }
    if ShapeMatches(a0, a1, r, true) {
      var j :| 0 <= j < n && Next(j, n) < n && SameLink(a0, a1, r[j], r[Next(j, n)]);
      RotatedHasOnlySides(a0, a1, b, k, j);
    }
  }

  /** A polygon of three points matches its three sides and nothing else;
      the polyline through the same points matches only the first two. */
  lemma TriangleEdges(a0: Point, a1: Point, p0: Point, p1: Point, p2: Point)
    ensures ShapeMatches(a0, a1, [p0, p1, p2], true)
        <==> SameLink(a0, a1, p0, p1) || SameLink(a0, a1, p1, p2) || SameLink(a0, a1, p2, p0)
    ensures ShapeMatches(a0, a1, [p0, p1, p2], false)
        <==> SameLink(a0, a1, p0, p1) || SameLink(a0, a1, p1, p2)
  {
    var b := [p0, p1, p2];
    if SameLink(a0, a1, p0, p1) {
      assert SameLink(a0, a1, b[0], b[1]);
    }
    if SameLink(a0, a1, p1, p2) {
      assert SameLink(a0, a1, b[1], b[2]);
    }
  }

  /** A link along the closing side of a triangle is matched by the
      triangle drawn as a polygon but not by the same points drawn as a
      polyline. */
  lemma OpenTriangleSkipsClosingEdge()
    ensures var b := [Point(0.0, 0.0), Point(0.0, 1.0), Point(1.0, 1.0)];
            ShapeMatches(Point(1.0, 1.0), Point(0.0, 0.0), b, true)
            && !ShapeMatches(Point(1.0, 1.0), Point(0.0, 0.0), b, false)
  {
  }

  /** The unit square drawn as a polygon matches a link along its top side
      given in the opposite direction. */
  lemma SquareMatchesReversedSide()
    ensures ShapeMatches(Point(1.0, 1.0), Point(0.0, 1.0),
                         [Point(0.0, 0.0), Point(0.0, 1.0), Point(1.0, 1.0), Point(1.0, 0.0)], true)
  {
    var b := [Point(0.0, 0.0), Point(0.0, 1.0), Point(1.0, 1.0), Point(1.0, 0.0)];
    assert SameLink(Point(1.0, 1.0), Point(0.0, 1.0), b[1], b[2]);
  }
}
