/** Shoelace area, and the reduction of a convex hull to the four corners of a plate. */
module HullReduction {
  import opened PlanePoints
  import opened ConvexHull

  // ----- polygonArea -----

  function Wedge(p: Point, q: Point): int {
    p.x * q.y - q.x * p.y
  }

  /** The sum over the edges that leave vertex `i` and later ones, the last edge returning to the first vertex. */
  function ShoelaceFrom(points: seq<Point>, i: nat): int
    requires i <= |points|
    decreases |points| - i
  {
    if i == |points| then 0
    else Wedge(points[i], points[Next(points, i)]) + ShoelaceFrom(points, i + 1)
  }

  function Shoelace(points: seq<Point>): int {
    ShoelaceFrom(points, 0)
  }

  function Abs(n: int): nat {
    if n < 0 then -n else n
  }

  function PolygonArea(points: seq<Point>): real {
    Abs(Shoelace(points)) as real / 2.0
  }

  /** The same sum along an open path. */
  function PathSum(path: seq<Point>): int {
    if |path| < 2 then 0 else Wedge(path[0], path[1]) + PathSum(path[1..])
  }

  lemma {:induction false} ShoelaceIsClosedPath(points: seq<Point>, i: nat)
    requires points != [] && i <= |points|
    ensures ShoelaceFrom(points, i) == PathSum(points[i..] + [points[0]])
    decreases |points| - i
  {
    hide Wedge;
    if i < |points| {
      ShoelaceIsClosedPath(points, i + 1);
      var path := points[i..] + [points[0]];
      assert path[1..] == points[i + 1..] + [points[0]];
    }
  }

  lemma {:induction false} PathSumSplits(a: seq<Point>, p: Point, b: seq<Point>)
    ensures PathSum(a + [p] + b) == PathSum(a + [p]) + PathSum([p] + b)
  {
    hide Wedge;
    if a == [] {
      assert a + [p] == [p] && a + [p] + b == [p] + b;
    } else {
      PathSumSplits(a[1..], p, b);
      assert (a + [p] + b)[1..] == a[1..] + [p] + b;
      assert (a + [p])[1..] == a[1..] + [p];
    }
  }

  lemma WedgesMakeTriangle(p: Point, q: Point, r: Point)
    ensures Wedge(p, q) + Wedge(q, r) - Wedge(p, r) == Cross(p, q, r)
    ensures Wedge(p, p) == 0
  {
  }

  /** Leaving `q` out of a path changes its sum by the triangle that `q` makes with its neighbours. */
  lemma PathSumWithout(a: seq<Point>, p: Point, q: Point, r: Point, b: seq<Point>)
    ensures PathSum(a + [p, q, r] + b) == PathSum(a + [p, r] + b) + Cross(p, q, r)
  {
    PathSumSplits(a, p, [q, r] + b);
    PathSumSplits(a, p, [r] + b);
    PathSumSplits([p, q], r, b);
    PathSumSplits([p], r, b);
    ShortPaths(p, q, r);
    WedgesMakeTriangle(p, q, r);
    hide Cross, Wedge, PathSum;
    assert a + [p] + ([q, r] + b) == a + [p, q, r] + b && a + [p] + ([r] + b) == a + [p, r] + b;
    assert [p] + ([q, r] + b) == [p, q] + [r] + b && [p] + ([r] + b) == [p] + [r] + b;
  }

  lemma ShortPaths(p: Point, q: Point, r: Point)
    ensures PathSum([p, q] + [r]) == Wedge(p, q) + Wedge(q, r)
    ensures PathSum([p] + [r]) == Wedge(p, r)
  {
    hide Wedge;
    assert [p, q] + [r] == [p, q, r] && [p, q, r][1..] == [q, r] && [q, r][1..] == [r];
    assert PathSum([q, r]) == Wedge(q, r) + PathSum([r]);
    assert [p] + [r] == [p, r] && [p, r][1..] == [r];
  }

  // ----- removing a corner -----

  function Previous(h: seq<Point>, i: nat): nat
    requires i < |h|
  {
    if i == 0 then |h| - 1 else i - 1
  }

  /** The triangle a corner makes with its two neighbours. */
  function Corner(h: seq<Point>, i: nat): seq<Point>
    requires i < |h|
  {
    [h[Previous(h, i)], h[i], h[Next(h, i)]]
  }

  function Without(h: seq<Point>, i: nat): (r: seq<Point>)
    requires i < |h|
    ensures |r| == |h| - 1
  {
    h[..i] + h[i + 1..]
  }

  /** Removing a corner takes exactly its triangle off the signed area. */
  lemma RemovedTriangle(h: seq<Point>, i: nat)
    requires |h| >= 3 && i < |h|
    ensures Shoelace(h) == Shoelace(Without(h, i)) + Cross(h[Previous(h, i)], h[i], h[Next(h, i)])
  {
    var r := Without(h, i);
    ShoelaceIsClosedPath(h, 0);
    ShoelaceIsClosedPath(r, 0);
    hide Cross, Wedge, PathSum, ShoelaceFrom;
    if i == 0 {
      RemovedFirst(h);
      assert h[0..] == h && r[0..] == r == h[1..];
    } else {
      var before, after := h[..i - 1], if i == |h| - 1 then [] else h[i + 2..] + [h[0]];
      PathSumWithout(before, h[i - 1], h[i], h[Next(h, i)], after);
      assert h[0..] + [h[0]] == before + [h[i - 1], h[i], h[Next(h, i)]] + after;
      assert r[0..] + [r[0]] == before + [h[i - 1], h[Next(h, i)]] + after;
    }
  }

  /** Removing the first corner: both closed paths are started at the second one instead. */
  lemma RemovedFirst(h: seq<Point>)
    requires |h| >= 3
    ensures PathSum(h + [h[0]]) == PathSum(h[1..] + [h[1]]) + Cross(h[|h| - 1], h[0], h[1])
  {
    hide Cross, PathSum;
    var inner, last := h[1..|h| - 1], h[|h| - 1];
    ClosedPathRotates(h[0], h[1..]);
    assert h == [h[0]] + h[1..];
    PathSumWithout(inner, last, h[0], h[1], []);
    assert h[1..] + [h[0], h[1]] == inner + [last, h[0], h[1]] + [];
    assert h[1..] + [h[1]] == inner + [last, h[1]] + [];
  }

  /** A closed path through `p` and `m` may start at `m[0]` instead of `p`. */
  lemma ClosedPathRotates(p: Point, m: seq<Point>)
    requires m != []
    ensures PathSum([p] + m + [p]) == PathSum(m + [p, m[0]])
  {
    hide Wedge, PathSum;
    PathSumSplits(m, p, [m[0]]);
    assert m + [p] + [m[0]] == m + [p, m[0]];
    PairSum(p, m[0]);
    PathStartsWithEdge([p] + m + [p]);
    assert ([p] + m + [p])[1..] == m + [p];
  }

  lemma PairSum(p: Point, q: Point)
    ensures PathSum([p] + [q]) == Wedge(p, q)
  {
    assert ([p] + [q])[1..] == [q];
  }

  lemma PathStartsWithEdge(path: seq<Point>)
    requires |path| >= 2
    ensures PathSum(path) == Wedge(path[0], path[1]) + PathSum(path[1..])
  {
  }

  lemma WithoutStaysConvex(h: seq<Point>, i: nat)
    requires StrictlyConvex(h) && i < |h|
    ensures StrictlyConvex(Without(h, i))
    ensures forall p :: p in Without(h, i) ==> p in h
  {
    hide Cross;
    var r := Without(h, i);
    forall a, b, c | 0 <= a < b < c < |r| ensures Cross(r[a], r[b], r[c]) > 0 {
      var a', b', c' := if a < i then a else a + 1, if b < i then b else b + 1, if c < i then c else c + 1;
      assert r[a] == h[a'] && r[b] == h[b'] && r[c] == h[c'];
    }
  }

  lemma CornerTurnsLeft(h: seq<Point>, i: nat)
    requires StrictlyConvex(h) && |h| >= 3 && i < |h|
    ensures Cross(h[Previous(h, i)], h[i], h[Next(h, i)]) > 0
  {
    if i == 0 {
      CrossCycles(h[0], h[1], h[|h| - 1]);
    } else if i == |h| - 1 {
      CrossCycles(h[0], h[i - 1], h[i]);
    }
  }

  lemma {:induction false} ConvexAreaIsPositive(h: seq<Point>)
    requires StrictlyConvex(h) && |h| >= 2
    ensures Shoelace(h) >= 0
    ensures |h| >= 3 ==> Shoelace(h) > 0
    decreases |h|
  {
    if |h| == 2 {
      assert ShoelaceFrom(h, 1) == Wedge(h[1], h[0]) + ShoelaceFrom(h, 2);
      assert Wedge(h[0], h[1]) == -Wedge(h[1], h[0]);
    } else {
      hide Cross, Wedge;
      var i := |h| - 1;
      RemovedTriangle(h, i);
      WithoutStaysConvex(h, i);
      CornerTurnsLeft(h, i);
      ConvexAreaIsPositive(Without(h, i));
    }
  }

  lemma TriangleArea(a: Point, b: Point, c: Point)
    ensures Shoelace([a, b, c]) == Cross(a, b, c)
  {
    var t := [a, b, c];
    assert ShoelaceFrom(t, 2) == Wedge(c, a) + ShoelaceFrom(t, 3);
    assert ShoelaceFrom(t, 1) == Wedge(b, c) + ShoelaceFrom(t, 2);
    WedgesMakeTriangle(a, b, c);
    assert Wedge(c, a) == -Wedge(a, c);
  }

  /** What a corner weighs: the triangle it makes with the points before and after it, the list taken round. */
  lemma CornerTriangle(h: seq<Point>, i: nat, a: Point, b: Point, c: Point)
    requires i < |h| && b == h[i]
    requires a == (if i == 0 then h[|h| - 1] else h[i - 1]) && c == (if i == |h| - 1 then h[0] else h[i + 1])
    ensures 2.0 * PolygonArea(Corner(h, i)) == Abs((b.x - a.x) * (c.y - a.y) - (b.y - a.y) * (c.x - a.x)) as real
  {
    hide Shoelace;
    TriangleArea(a, b, c);
  }

  /** For a strictly convex polygon the measured area drops by the measured area of the removed corner. */
  lemma CornerAreaComesOff(h: seq<Point>, i: nat)
    requires StrictlyConvex(h) && |h| >= 3 && i < |h|
    ensures PolygonArea(h) == PolygonArea(Without(h, i)) + PolygonArea(Corner(h, i))
    ensures PolygonArea(Corner(h, i)) > 0.0
  {
    hide Cross, Wedge;
    RemovedTriangle(h, i);
    CornerTurnsLeft(h, i);
    WithoutStaysConvex(h, i);
    ConvexAreaIsPositive(h);
    ConvexAreaIsPositive(Without(h, i));
    TriangleArea(h[Previous(h, i)], h[i], h[Next(h, i)]);
  }

  // ----- the reduction -----

  datatype Bound = Infinity | Finite(value: real)

  predicate Below(area: real, bound: Bound) {
    bound.Infinity? || area < bound.value
  }

  /** `i` is the first corner with the smallest triangle. */
  ghost predicate LeastCorner(h: seq<Point>, i: nat) {
    && i < |h|
    && (forall j :: 0 <= j < |h| ==> PolygonArea(Corner(h, i)) <= PolygonArea(Corner(h, j)))
    && (forall j :: 0 <= j < i ==> PolygonArea(Corner(h, i)) < PolygonArea(Corner(h, j)))
  }

  /** `r` is what is left of `h` after least corners were removed one by one until four remain. */
  ghost predicate ReducesTo(h: seq<Point>, removed: seq<nat>, r: seq<Point>)
    decreases |removed|
  {
    if removed == [] then |h| <= 4 && r == h
    else |h| > 4 && LeastCorner(h, removed[0]) && ReducesTo(Without(h, removed[0]), removed[1..], r)
  }

  /** The areas of the corners removed along the way. */
  ghost function RemovedArea(h: seq<Point>, removed: seq<nat>, r: seq<Point>): real
    requires ReducesTo(h, removed, r)
    decreases |removed|
  {
    if removed == [] then 0.0
    else PolygonArea(Corner(h, removed[0])) + RemovedArea(Without(h, removed[0]), removed[1..], r)
  }

  /** Reducing a strictly convex hull keeps it strictly convex and accounts for every unit of area. */
  lemma {:induction false} ReductionAccounts(h: seq<Point>, removed: seq<nat>, r: seq<Point>)
    requires StrictlyConvex(h) && ReducesTo(h, removed, r)
    ensures StrictlyConvex(r)
    ensures forall p :: p in r ==> p in h
    ensures |r| == if |h| > 4 then 4 else |h|
    ensures |removed| == |h| - |r|
    ensures PolygonArea(r) == PolygonArea(h) - RemovedArea(h, removed, r)
    ensures removed != [] ==> PolygonArea(r) < PolygonArea(h)
    decreases |removed|
  {
    hide Cross, PolygonArea;
    if removed != [] {
      var h' := Without(h, removed[0]);
      WithoutStaysConvex(h, removed[0]);
      CornerAreaComesOff(h, removed[0]);
      ReductionAccounts(h', removed[1..], r);
    }
  }

  method FindLeastCorner(hull: seq<Point>) returns (remove: nat)
    requires |hull| > 4
    ensures LeastCorner(hull, remove)
  {
    hide PolygonArea;
    var minimum := Infinity;
    remove := 0;
    for i := 0 to |hull|
      invariant minimum.Infinity? <==> i == 0
      invariant minimum.Finite? ==> remove < i && minimum.value == PolygonArea(Corner(hull, remove))
      invariant minimum.Finite? ==> forall j :: 0 <= j < i ==> minimum.value <= PolygonArea(Corner(hull, j))
      invariant minimum.Finite? ==> forall j :: 0 <= j < remove ==> minimum.value < PolygonArea(Corner(hull, j))
    {
      var triangle := PolygonArea(Corner(hull, i));
      if Below(triangle, minimum) {
        minimum := Finite(triangle);
        remove := i;
      }
    }
  }

  /** A trail of removals goes on with the next least corner. */
  lemma {:induction false} TrailExtends(h: seq<Point>, trail: seq<nat>, now: seq<Point>, i: nat)
    requires Reached(h, trail, now) && |now| > 4 && LeastCorner(now, i)
    ensures Reached(h, trail + [i], Without(now, i))
    decreases |trail|
  {
    hide PolygonArea;
    if trail == [] {
      assert ([i])[1..] == [];
      assert Reached(Without(now, i), [], Without(now, i));
    } else {
      TrailExtends(Without(h, trail[0]), trail[1..], now, i);
      assert (trail + [i])[1..] == trail[1..] + [i];
    }
  }

  /** `now` is reached from `h` by removing the least corner, `trail` times, from more than four. */
  ghost predicate Reached(h: seq<Point>, trail: seq<nat>, now: seq<Point>)
    decreases |trail|
  {
    if trail == [] then now == h
    else |h| > 4 && LeastCorner(h, trail[0]) && Reached(Without(h, trail[0]), trail[1..], now)
  }

  lemma {:induction false} ReachedFourIsReduced(h: seq<Point>, trail: seq<nat>, now: seq<Point>)
    requires Reached(h, trail, now) && |now| <= 4
    ensures ReducesTo(h, trail, now)
    decreases |trail|
  {
    hide PolygonArea;
    if trail != [] { ReachedFourIsReduced(Without(h, trail[0]), trail[1..], now); }
  }

  /** Drops the corner of least area again and again, down to four. */
  method ReduceToFour(hull: seq<Point>) returns (corners: seq<Point>, ghost removed: seq<nat>)
    ensures ReducesTo(hull, removed, corners)
    ensures StrictlyConvex(hull) ==>
              && StrictlyConvex(corners) && |corners| == (if |hull| > 4 then 4 else |hull|) && (forall p :: p in corners ==> p in hull)
              && PolygonArea(corners) == PolygonArea(hull) - RemovedArea(hull, removed, corners)
  {
    hide PolygonArea;
    corners, removed := hull, [];
    while |corners| > 4
      invariant Reached(hull, removed, corners)
      decreases |corners|
    {
      var remove := FindLeastCorner(corners);
      TrailExtends(hull, removed, corners, remove);
      removed := removed + [remove];
      corners := Without(corners, remove);
    }
    ReachedFourIsReduced(hull, removed, corners);
    if StrictlyConvex(hull) { ReductionAccounts(hull, removed, corners); }
  }
}
