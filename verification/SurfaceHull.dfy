/** The hull fitted to a surface's boundary list is the hull of the whole surface. */
module SurfaceHull {
  import opened PlanePoints
  import opened ConvexHull
  import opened Rasters
  import opened SurfaceComponents

  /** Walking left or right inside a surface always ends at a recorded rim cell of the same row. */
  lemma {:induction false} RimAhead(g: Grid, seed: nat, queue: seq<nat>, rim: seq<nat>, i: nat, rightward: bool) returns (r: nat, t: nat)
    requires g.Valid() && IsSurface(g, seed, queue, rim) && i in queue
    ensures r in rim && r in queue && Row(g.width, r) == Row(g.width, i)
    ensures Column(g.width, r) == if rightward then Column(g.width, i) + t else Column(g.width, i) - t
    decreases if rightward then g.width - Column(g.width, i) else Column(g.width, i)
  {
    var d := if rightward then Direction.Right else Direction.Left;
    if Inside(g, i, d) {
      NeighborCoordinates(g.width, g.height, i, d);
      var j := Neighbor(g.width, g.height, i, d).value;
      ConnectedExtends(g, seed, i, j);
      var s;
      r, s := RimAhead(g, seed, queue, rim, j, rightward);
      t := s + 1;
    } else {
      assert OnRim(g, i);
      var k :| 0 <= k < |queue| && queue[k] == i;
      r, t := i, 0;
    }
  }

  lemma CrossAlongRow(a: Point, b: Point, p: Point, shift: int)
    ensures Cross(a, b, Point(p.x + shift, p.y)) == Cross(a, b, p) - (b.y - a.y) * shift
  {
  }

  /** The pixel of a surface cell lies between two boundary pixels of its row. */
  lemma BetweenRimPixels(g: Grid, seed: nat, queue: seq<nat>, rim: seq<nat>, left: int, top: int, step: int, i: nat)
    returns (l: nat, r: nat, before: nat, after: nat)
    requires g.Valid() && IsSurface(g, seed, queue, rim) && i in queue && step > 0
    ensures l < |rim| && r < |rim|
    ensures Pixel(left, top, step, g.width, rim[l]) ==
            Point(Pixel(left, top, step, g.width, i).x - before, Pixel(left, top, step, g.width, i).y)
    ensures Pixel(left, top, step, g.width, rim[r]) ==
            Point(Pixel(left, top, step, g.width, i).x + after, Pixel(left, top, step, g.width, i).y)
  {
    hide IsSurface;
    var lc, s := RimAhead(g, seed, queue, rim, i, false);
    var rc, t := RimAhead(g, seed, queue, rim, i, true);
    l :| 0 <= l < |rim| && rim[l] == lc;
    r :| 0 <= r < |rim| && rim[r] == rc;
    NonNegative(s, step);
    NonNegative(t, step);
    before, after := s * step, t * step;
    Distribute(Column(g.width, i), -s, step);
    Distribute(Column(g.width, i), t, step);
  }

  lemma Distribute(a: int, b: int, c: int)
    ensures (a + b) * c == a * c + b * c
  {
  }

  /** A line with the boundary on its left has the whole surface on its left. */
  lemma LineKeepsSurfaceLeft(g: Grid, seed: nat, queue: seq<nat>, rim: seq<nat>, left: int, top: int, step: int, a: Point, b: Point, i: nat)
    requires g.Valid() && IsSurface(g, seed, queue, rim) && i in queue && step > 0
    requires forall k :: 0 <= k < |rim| ==> Cross(a, b, Pixel(left, top, step, g.width, rim[k])) >= 0
    ensures Cross(a, b, Pixel(left, top, step, g.width, i)) >= 0
  {
    hide Cross, IsSurface, Pixel;
    var p := Pixel(left, top, step, g.width, i);
    var l, r, before, after := BetweenRimPixels(g, seed, queue, rim, left, top, step, i);
    var back: int := before;
    CrossAlongRow(a, b, p, -back);
    CrossAlongRow(a, b, p, after);
    var slope := b.y - a.y;
    if slope >= 0 {
      NonNegative(slope, after);
    } else {
      NonNegative(-slope, back);
      SameProduct(slope, -back);
    }
  }

  /** The hull of the boundary list is the hull of every pixel of the surface. */
  lemma BoundaryHullIsSurfaceHull(g: Grid, seed: nat, queue: seq<nat>, rim: seq<nat>, left: int, top: int, step: int, hull: seq<Point>)
    requires g.Valid() && IsSurface(g, seed, queue, rim) && step > 0
    requires IsHull(Pixels(left, top, step, g.width, rim), hull)
    ensures IsHull(Pixels(left, top, step, g.width, queue), hull)
  {
    hide Cross, IsSurface, Pixel, StrictlyConvex, AllCollinear;
    var outline, all := Pixels(left, top, step, g.width, rim), Pixels(left, top, step, g.width, queue);
    RimPixelsAreSurfacePixels(g, seed, queue, rim, left, top, step);
    forall n, k | 0 <= n < |hull| && 0 <= k < |all| ensures Cross(hull[n], hull[Next(hull, n)], all[k]) >= 0 {
      var a, b := hull[n], hull[Next(hull, n)];
      forall m | 0 <= m < |rim| ensures Cross(a, b, Pixel(left, top, step, g.width, rim[m])) >= 0 {
        assert outline[m] == Pixel(left, top, step, g.width, rim[m]);
        assert Cross(hull[n], hull[Next(hull, n)], outline[m]) >= 0;
      }
      LineKeepsSurfaceLeft(g, seed, queue, rim, left, top, step, a, b, queue[k]);
    }
    assert Members(hull, all);
    if AllCollinear(outline) {
      CollinearRimIsCollinearSurface(g, seed, queue, rim, left, top, step);
    } else {
      SubsetCollinear(outline, all);
    }
  }

  lemma RimPixelsAreSurfacePixels(g: Grid, seed: nat, queue: seq<nat>, rim: seq<nat>, left: int, top: int, step: int)
    requires g.Valid() && IsSurface(g, seed, queue, rim)
    ensures Members(Pixels(left, top, step, g.width, rim), Pixels(left, top, step, g.width, queue))
  {
    var outline, all := Pixels(left, top, step, g.width, rim), Pixels(left, top, step, g.width, queue);
    forall m | 0 <= m < |outline| ensures outline[m] in all {
      assert rim[m] in queue;
      var k :| 0 <= k < |queue| && queue[k] == rim[m];
      assert all[k] == outline[m];
    }
  }

  lemma SubsetCollinear(some: seq<Point>, all: seq<Point>)
    requires Members(some, all)
    ensures AllCollinear(all) ==> AllCollinear(some)
  {
    hide Cross;
    if !AllCollinear(all) { return; }
    forall i, j, k | 0 <= i < |some| && 0 <= j < |some| && 0 <= k < |some| ensures Cross(some[i], some[j], some[k]) == 0 {
      var i' :| 0 <= i' < |all| && all[i'] == some[i];
      var j' :| 0 <= j' < |all| && all[j'] == some[j];
      var k' :| 0 <= k' < |all| && all[k'] == some[k];
      assert Cross(all[i'], all[j'], all[k']) == 0;
    }
  }

  lemma CollinearRimIsCollinearSurface(g: Grid, seed: nat, queue: seq<nat>, rim: seq<nat>, left: int, top: int, step: int)
    requires g.Valid() && IsSurface(g, seed, queue, rim) && step > 0
    requires AllCollinear(Pixels(left, top, step, g.width, rim))
    ensures AllCollinear(Pixels(left, top, step, g.width, queue))
  {
    hide Cross, IsSurface, Pixel;
    var outline, all := Pixels(left, top, step, g.width, rim), Pixels(left, top, step, g.width, queue);
    if m, n :| 0 <= m < |outline| && 0 <= n < |outline| && outline[m] != outline[n] {
      var a, b := outline[m], outline[n];
      forall k | 0 <= k < |all| ensures Cross(a, b, all[k]) == 0 {
        forall j | 0 <= j < |rim| ensures Cross(a, b, Pixel(left, top, step, g.width, rim[j])) == 0 {
          assert outline[j] == Pixel(left, top, step, g.width, rim[j]);
          assert Cross(outline[m], outline[n], outline[j]) == 0;
        }
        forall j | 0 <= j < |rim| ensures Cross(b, a, Pixel(left, top, step, g.width, rim[j])) == 0 {
          CrossCycles(a, b, Pixel(left, top, step, g.width, rim[j]));
        }
        LineKeepsSurfaceLeft(g, seed, queue, rim, left, top, step, a, b, queue[k]);
        LineKeepsSurfaceLeft(g, seed, queue, rim, left, top, step, b, a, queue[k]);
        CrossCycles(a, b, all[k]);
      }
      OnOneLine(all, a, b);
    } else if queue != [] {
      var l0, r0, s0, t0 := BetweenRimPixels(g, seed, queue, rim, left, top, step, queue[0]);
      forall k | 0 <= k < |all| ensures all[k] == outline[l0] {
        var l, r, s, t := BetweenRimPixels(g, seed, queue, rim, left, top, step, queue[k]);
        assert outline[l] == outline[l0] && outline[r] == outline[l0];
      }
      OnePointIsCollinear(all, outline[l0]);
    }
  }
}
