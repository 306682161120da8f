/** The four corners left of a surface's hull, as a plate quadrilateral over the reals. */
module HullCorners {
  import opened PlanePoints
  import opened ConvexHull
  import opened HullReduction
  import opened PlateProjection
  import opened PlateQuadrilaterals
  import PlateExpansion

  function RealPoint(p: Point): PlatePoint {
    PlatePoint(p.x as real, p.y as real)
  }

  function Quadrilateral(a: Point, b: Point, c: Point, d: Point): PlateQuadrilateral {
    PlateQuadrilateral(RealPoint(a), RealPoint(b), RealPoint(c), RealPoint(d))
  }

  /** The corners in hull order, `start` being the upper left one. */
  function CornersFrom(h: seq<Point>, start: nat): PlateQuadrilateral
    requires |h| == 4 && start < 4
  {
    match start
    case 0 => Quadrilateral(h[0], h[1], h[2], h[3])
    case 1 => Quadrilateral(h[1], h[2], h[3], h[0])
    case 2 => Quadrilateral(h[2], h[3], h[0], h[1])
    case _ => Quadrilateral(h[3], h[0], h[1], h[2])
  }

  lemma CastProduct(a: int, b: int)
    ensures a as real * b as real == (a * b) as real
  {
  }

  lemma TurnIsCross(a: Point, b: Point, c: Point)
    ensures Turn(RealPoint(a), RealPoint(b), RealPoint(c)) == Cross(a, b, c) as real
  {
    CastProduct(b.x - a.x, c.y - b.y);
    CastProduct(b.y - a.y, c.x - b.x);
    CrossThroughSecond(a, b, c);
  }

  lemma CrossThroughSecond(a: Point, b: Point, c: Point)
    ensures Cross(a, b, c) == (b.x - a.x) * (c.y - b.y) - (b.y - a.y) * (c.x - b.x)
  {
  }

  lemma WedgeIsWedge(a: Point, b: Point)
    ensures PlateExpansion.Wedge(RealPoint(a), RealPoint(b)) == HullReduction.Wedge(a, b) as real
  {
    CastProduct(a.x, b.y);
    CastProduct(b.x, a.y);
  }

  lemma FourWedges(h: seq<Point>)
    requires |h| == 4
    ensures Shoelace(h) == HullReduction.Wedge(h[0], h[1]) + HullReduction.Wedge(h[1], h[2]) + HullReduction.Wedge(h[2], h[3])
                           + HullReduction.Wedge(h[3], h[0])
  {
    hide HullReduction.Wedge;
    assert ShoelaceFrom(h, 4) == 0;
    assert ShoelaceFrom(h, 3) == HullReduction.Wedge(h[3], h[0]);
    assert ShoelaceFrom(h, 2) == HullReduction.Wedge(h[2], h[3]) + ShoelaceFrom(h, 3);
    assert ShoelaceFrom(h, 1) == HullReduction.Wedge(h[1], h[2]) + ShoelaceFrom(h, 2);
  }

  lemma QuadrilateralWedges(a: Point, b: Point, c: Point, d: Point)
    ensures PlateExpansion.QuadrilateralArea(Quadrilateral(a, b, c, d)) ==
            HullReduction.Abs(HullReduction.Wedge(a, b) + HullReduction.Wedge(b, c) + HullReduction.Wedge(c, d)
                              + HullReduction.Wedge(d, a)) as real / 2.0
  {
    WedgeIsWedge(a, b);
    WedgeIsWedge(b, c);
    WedgeIsWedge(c, d);
    WedgeIsWedge(d, a);
    hide HullReduction.Wedge, PlateExpansion.Wedge;
  }

  /** The area of the quadrilateral is the shoelace area of the four points, wherever it starts. */
  lemma AreaIsShoelaceArea(h: seq<Point>, start: nat)
    requires |h| == 4 && start < 4
    ensures PlateExpansion.QuadrilateralArea(CornersFrom(h, start)) == PolygonArea(h)
  {
    hide HullReduction.Wedge, PlateExpansion.QuadrilateralArea, Quadrilateral, Shoelace;
    FourWedges(h);
    match start {
      case 0 => QuadrilateralWedges(h[0], h[1], h[2], h[3]);
      case 1 => QuadrilateralWedges(h[1], h[2], h[3], h[0]);
      case 2 => QuadrilateralWedges(h[2], h[3], h[0], h[1]);
      case _ => QuadrilateralWedges(h[3], h[0], h[1], h[2]);
    }
  }

  lemma QuadrilateralTurns(a: Point, b: Point, c: Point, d: Point)
    requires Cross(a, b, c) > 0 && Cross(b, c, d) > 0 && Cross(c, d, a) > 0 && Cross(d, a, b) > 0
    ensures TurnsAtEveryCorner(Quadrilateral(a, b, c, d))
  {
    TurnIsCross(a, b, c);
    TurnIsCross(b, c, d);
    TurnIsCross(c, d, a);
    TurnIsCross(d, a, b);
    hide Cross, Turn, RealPoint;
  }

  /** A hull reduced to four corners turns at every one of them, as the quadrilateral's guard demands. */
  lemma ReducedHullTurns(points: seq<Point>, hull: seq<Point>, removed: seq<nat>, corners: seq<Point>, start: nat)
    requires IsHull(points, hull) && ReducesTo(hull, removed, corners) && |hull| >= 4 && start < 4
    ensures |corners| == 4 && TurnsAtEveryCorner(CornersFrom(corners, start))
  {
    hide ReducesTo, Cross, TurnsAtEveryCorner, Quadrilateral, PolygonArea;
    ReductionAccounts(hull, removed, corners);
    var a, b, c, d := corners[0], corners[1], corners[2], corners[3];
    CrossCycles(c, d, a);
    CrossCycles(d, a, b);
    assert Cross(a, b, c) > 0 && Cross(b, c, d) > 0 && Cross(a, c, d) > 0 && Cross(a, b, d) > 0;
    QuadrilateralTurns(a, b, c, d);
    QuadrilateralTurns(b, c, d, a);
    QuadrilateralTurns(c, d, a, b);
    QuadrilateralTurns(d, a, b, c);
  }
}
