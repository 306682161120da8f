/** Convex hull by two sweeps: a chain below and a chain above, joined into strict turns all round. */
module ConvexHull {
  import opened PlanePoints

  // ----- the order of the sweep -----

  predicate Before(rising: bool, p: Point, q: Point) {
    AheadOrZero(rising, Sub(q, p))
  }

  predicate StrictlyBefore(rising: bool, p: Point, q: Point) {
    Ahead(rising, Sub(q, p))
  }

  ghost predicate Sweeps(rising: bool, vs: seq<Point>) {
    forall i, j :: 0 <= i <= j < |vs| ==> Before(rising, vs[i], vs[j])
  }

  lemma BeforeIsTotalOrder(rising: bool, p: Point, q: Point, r: Point)
    ensures StrictlyBefore(rising, p, q) || Before(rising, q, p)
    ensures Before(rising, p, q) && Before(rising, q, p) ==> p == q
    ensures Before(rising, p, q) && Before(rising, q, r) ==> Before(rising, p, r)
    ensures Before(rising, p, q) <==> p == q || StrictlyBefore(rising, p, q)
    ensures StrictlyBefore(rising, p, q) <==> StrictlyBefore(!rising, q, p)
  {
  }

  // ----- what one half of the hull promises -----

  /** Strictly advancing vertices, with a left turn at every inner one. */
  ghost predicate Chain(rising: bool, h: seq<Point>) {
    && (forall i, j :: 0 <= i < j < |h| ==> StrictlyBefore(rising, h[i], h[j]))
    && (forall i :: 0 <= i < |h| - 2 ==> Cross(h[i], h[i + 1], h[i + 2]) > 0)
  }

  /** Every point lies on or to the left of every edge of the path `h`. */
  ghost predicate Supports(h: seq<Point>, points: seq<Point>) {
    forall i, k :: 0 <= i < |h| - 1 && 0 <= k < |points| ==> Cross(h[i], h[i + 1], points[k]) >= 0
  }

  ghost predicate Members(h: seq<Point>, points: seq<Point>) {
    forall i :: 0 <= i < |h| ==> h[i] in points
  }

  /** All points coincide and the path is that point twice. */
  ghost predicate Twin(h: seq<Point>, points: seq<Point>) {
    |h| == 2 && h[0] == h[1] && forall k :: 0 <= k < |points| ==> points[k] == h[0]
  }

  ghost predicate HalfHull(rising: bool, vs: seq<Point>, h: seq<Point>) {
    && (vs == [] ==> h == [])
    && (vs != [] ==> h != [] && h[0] == vs[0] && h[|h| - 1] == vs[|vs| - 1])
    && (Chain(rising, h) || Twin(h, vs))
    && Supports(h, vs)
    && Members(h, vs)
  }

  // ----- the geometry of one pop and one push -----

  lemma AreasAdd(a: Point, b: Point, v: Point, p: Point)
    ensures Cross(a, v, p) == Cross(a, b, p) + Cross(b, v, p) - Cross(a, b, v)
    ensures Cross(a, b, a) == Cross(a, a, b) == Cross(a, b, b) == 0
  {
  }

  /** Popping `b` loses nothing: what lay left of `a b` and of `b v` lies left of `a v`. */
  lemma PopKeepsLeft(rising: bool, a: Point, b: Point, v: Point, p: Point)
    requires Before(rising, a, b) && Before(rising, b, v) && Before(rising, a, p)
    requires Cross(a, b, v) <= 0 && Cross(a, b, p) >= 0
    requires StrictlyBefore(rising, b, p) ==> Cross(b, v, p) >= 0
    ensures Cross(a, v, p) >= 0
  {
    AreasAdd(a, b, v, p);
    AreasAdd(a, v, p, p);
    CrossIsDet(a, v, p);
    CrossIsDet(a, b, p);
    CrossIsDet(a, v, b);
    CrossCycles(a, b, v);
    BeforeIsTotalOrder(rising, b, p, a);
    BeforeIsTotalOrder(rising, a, b, v);
    BeforeIsTotalOrder(rising, a, p, b);
    hide Cross, Det;
    if !StrictlyBefore(rising, b, p) && a != b {
      AheadTransitive(rising, Sub(v, a), Sub(b, a), Sub(p, a));
    }
  }

  /** A point behind the top `b` that lies left of `a b` lies left of the edge pushed from `b`. */
  lemma BehindTopIsLeft(rising: bool, a: Point, b: Point, v: Point, p: Point)
    requires StrictlyBefore(rising, a, b) && Before(rising, b, v) && Before(rising, p, b)
    requires Cross(a, b, v) > 0 && Cross(a, b, p) >= 0
    ensures Cross(b, v, p) >= 0
    ensures StrictlyBefore(rising, p, b) ==> Cross(b, v, p) > 0
  {
    CrossIsDet(a, b, v);
    CrossIsDet(p, b, v);
    CrossIsDet(p, a, b);
    CrossCycles(a, b, p);
    CrossCycles(p, b, v);
    DetOfBackEdge(a, b, p);
    AreasAdd(b, v, p, p);
    BeforeIsTotalOrder(rising, b, v, a);
    hide Cross, Det;
    if b != v {
      AheadTransitive(rising, Sub(b, p), Sub(b, a), Sub(v, b));
    } else {
      assert Cross(a, b, b) == 0 by { AreasAdd(a, b, a, a); }
      assert false;
    }
  }

  lemma DetOfBackEdge(a: Point, b: Point, p: Point)
    ensures Det(Sub(b, p), Sub(b, a)) == Cross(a, b, p)
  {
  }

  /** A point ahead that lies left of an edge lies left of the edge before it. */
  lemma AheadIsLeftOfEarlier(rising: bool, a: Point, b: Point, c: Point, v: Point)
    requires StrictlyBefore(rising, a, b) && StrictlyBefore(rising, b, c) && StrictlyBefore(rising, c, v)
    requires Cross(a, b, c) > 0 && Cross(b, c, v) > 0
    ensures Cross(a, b, v) > 0
  {
    CrossIsDet(a, b, c);
    CrossIsDet(b, c, v);
    DetOfTwoEdges(a, b, c, v);
    hide Cross, Det;
    AheadTransitive(rising, Sub(b, a), Sub(c, b), Sub(v, c));
  }

  lemma DetOfTwoEdges(a: Point, b: Point, c: Point, v: Point)
    ensures Cross(a, b, v) == Cross(a, b, c) + Det(Sub(b, a), Sub(v, c))
  {
  }

  // ----- one half of the sweep -----

  /** What holds while vertices are popped before `v` is pushed. */
  ghost predicate Popping(rising: bool, seen: seq<Point>, v: Point, h: seq<Point>) {
    && h != [] && seen != [] && h[0] == seen[0]
    && (Chain(rising, h) || Twin(h, seen))
    && Supports(h, seen)
    && Members(h, seen)
    && forall k :: 0 <= k < |seen| && StrictlyBefore(rising, h[|h| - 1], seen[k]) ==> Cross(h[|h| - 1], v, seen[k]) >= 0
  }

  lemma StartsPopping(rising: bool, seen: seq<Point>, v: Point, h: seq<Point>)
    requires Sweeps(rising, seen + [v]) && seen != [] && HalfHull(rising, seen, h)
    ensures Popping(rising, seen, v, h)
  {
    hide Cross;
    forall k | 0 <= k < |seen| ensures !StrictlyBefore(rising, h[|h| - 1], seen[k]) {
      assert (seen + [v])[k] == seen[k] && (seen + [v])[|seen| - 1] == seen[|seen| - 1];
      BeforeIsTotalOrder(rising, seen[k], seen[|seen| - 1], v);
    }
  }

  lemma SweepBounds(rising: bool, seen: seq<Point>, v: Point, p: Point)
    requires Sweeps(rising, seen + [v]) && p in seen
    ensures Before(rising, seen[0], p) && Before(rising, p, v)
  {
    var k :| 0 <= k < |seen| && seen[k] == p;
    assert (seen + [v])[0] == seen[0] && (seen + [v])[k] == p && (seen + [v])[|seen|] == v;
  }

  lemma PopStep(rising: bool, seen: seq<Point>, v: Point, h: seq<Point>)
    requires Sweeps(rising, seen + [v]) && Popping(rising, seen, v, h)
    requires |h| >= 2 && Cross(h[|h| - 2], h[|h| - 1], v) <= 0
    ensures Popping(rising, seen, v, h[..|h| - 1])
  {
    hide Cross;
    var a, b, rest := h[|h| - 2], h[|h| - 1], h[..|h| - 1];
    MembersHas(h, seen, |h| - 1);
    SweepBounds(rising, seen, v, b);
    BeforeIsTotalOrder(rising, a, b, v);
    TopEdgeSupports(h, seen);
    PrefixKeeps(rising, seen, h);
    hide Supports, Members, Chain, Before, StrictlyBefore, Sweeps;
    forall k | 0 <= k < |seen| && StrictlyBefore(rising, a, seen[k]) ensures Cross(a, v, seen[k]) >= 0 {
      BeforeIsTotalOrder(rising, a, seen[k], v);
      PopKeepsLeft(rising, a, b, v, seen[k]);
    }
  }

  lemma TopEdgeSupports(h: seq<Point>, seen: seq<Point>)
    requires |h| >= 2 && Supports(h, seen)
    ensures forall k :: 0 <= k < |seen| ==> Cross(h[|h| - 2], h[|h| - 1], seen[k]) >= 0
  {
    hide Cross;
    forall k | 0 <= k < |seen| ensures Cross(h[|h| - 2], h[|h| - 1], seen[k]) >= 0 {
      assert Cross(h[|h| - 2], h[|h| - 2 + 1], seen[k]) >= 0;
    }
  }

  lemma PrefixKeeps(rising: bool, seen: seq<Point>, h: seq<Point>)
    requires |h| >= 2 && (Chain(rising, h) || Twin(h, seen)) && Supports(h, seen) && Members(h, seen)
    ensures Chain(rising, h[..|h| - 1]) && Supports(h[..|h| - 1], seen) && Members(h[..|h| - 1], seen)
    ensures Before(rising, h[|h| - 2], h[|h| - 1])
  {
    PrefixSupports(seen, h);
    hide Supports, Members, Cross;
    if Chain(rising, h) { PrefixChains(rising, h); }
  }

  lemma PrefixSupports(seen: seq<Point>, h: seq<Point>)
    requires |h| >= 2 && Supports(h, seen) && Members(h, seen)
    ensures Supports(h[..|h| - 1], seen) && Members(h[..|h| - 1], seen)
  {
    hide Cross;
  }

  lemma PrefixChains(rising: bool, h: seq<Point>)
    requires |h| >= 2 && Chain(rising, h)
    ensures Chain(rising, h[..|h| - 1]) && Before(rising, h[|h| - 2], h[|h| - 1])
  {
    hide Cross;
    assert StrictlyBefore(rising, h[|h| - 2], h[|h| - 1]);
  }

  ghost predicate MayPush(v: Point, h: seq<Point>) {
    |h| < 2 || Cross(h[|h| - 2], h[|h| - 1], v) > 0
  }

  lemma PushKeepsChain(rising: bool, seen: seq<Point>, v: Point, h: seq<Point>)
    requires Sweeps(rising, seen + [v]) && Popping(rising, seen, v, h) && MayPush(v, h)
    ensures Chain(rising, h + [v]) || Twin(h + [v], seen + [v])
    ensures |h| >= 2 ==> Chain(rising, h) && StrictlyBefore(rising, h[|h| - 1], v)
  {
    hide Cross;
    hide Supports, Members;
    var top := h[|h| - 1];
    MembersHas(h, seen, |h| - 1);
    SweepBounds(rising, seen, v, top);
    BeforeIsTotalOrder(rising, top, v, top);
    if |h| == 1 {
      if top == v { AllSeenAreTwin(rising, seen, v); }
    } else {
      TwinHasNoTurn(h[|h| - 2], v);
      LastTurnIsFlat(h[|h| - 2], top);
      PushOntoChain(rising, h, v);
    }
  }

  lemma MembersHas(h: seq<Point>, points: seq<Point>, i: nat)
    requires Members(h, points) && i < |h|
    ensures h[i] in points
  {
  }

  lemma LastTurnIsFlat(a: Point, b: Point)
    ensures Cross(a, b, b) == 0
  {
  }

  lemma AllSeenAreTwin(rising: bool, seen: seq<Point>, v: Point)
    requires Sweeps(rising, seen + [v]) && seen != [] && seen[0] == v
    ensures Twin([v, v], seen + [v])
  {
    var all := seen + [v];
    forall k | 0 <= k < |all| ensures all[k] == v {
      if k < |seen| {
        SweepBounds(rising, seen, v, seen[k]);
        BeforeIsTotalOrder(rising, seen[k], v, v);
      }
    }
  }

  lemma PushOntoChain(rising: bool, h: seq<Point>, v: Point)
    requires Chain(rising, h) && |h| >= 2 && StrictlyBefore(rising, h[|h| - 1], v)
    requires Cross(h[|h| - 2], h[|h| - 1], v) > 0
    ensures Chain(rising, h + [v])
  {
    hide Cross;
    forall i | 0 <= i < |h| ensures StrictlyBefore(rising, h[i], v) {
      BeforeIsTotalOrder(rising, h[i], h[|h| - 1], v);
    }
  }

  lemma PushedEdgeSupports(rising: bool, seen: seq<Point>, v: Point, h: seq<Point>, p: Point)
    requires Sweeps(rising, seen + [v]) && Popping(rising, seen, v, h) && MayPush(v, h)
    requires p in seen
    ensures Cross(h[|h| - 1], v, p) >= 0
  {
    PushKeepsChain(rising, seen, v, h);
    var top := h[|h| - 1];
    AreasAdd(top, v, v, v);
    hide Cross;
    var k :| 0 <= k < |seen| && seen[k] == p;
    SweepBounds(rising, seen, v, p);
    BeforeIsTotalOrder(rising, top, p, v);
    BeforeIsTotalOrder(rising, p, top, v);
    if !StrictlyBefore(rising, top, p) && |h| >= 2 {
      SweepBounds(rising, seen, v, top);
      assert Cross(h[|h| - 2], h[|h| - 2 + 1], seen[k]) >= 0;
      BehindTopIsLeft(rising, h[|h| - 2], top, v, p);
    }
  }

  /** The new top edge and every older edge have all points seen, and `v`, on their left. */
  lemma PushSupports(rising: bool, seen: seq<Point>, v: Point, h: seq<Point>)
    requires Sweeps(rising, seen + [v]) && Popping(rising, seen, v, h) && MayPush(v, h)
    ensures HalfHull(rising, seen + [v], h + [v])
  {
    PushKeepsChain(rising, seen, v, h);
    hide Cross;
    forall k | 0 <= k < |seen| ensures Cross(h[|h| - 1], v, seen[k]) >= 0 {
      PushedEdgeSupports(rising, seen, v, h, seen[k]);
    }
    if |h| >= 2 { LeftOfOlder(rising, h, v, 0); }
    PushedEdges(rising, seen, v, h);
  }

  lemma TwinHasNoTurn(a: Point, v: Point)
    ensures Cross(a, a, v) == 0
  {
  }

  /** `v` lies strictly to the left of every edge of a chain whose last edge it turns left of. */
  lemma {:induction false} LeftOfOlder(rising: bool, h: seq<Point>, v: Point, i: nat)
    requires |h| >= 2 && i <= |h| - 2 && Chain(rising, h)
    requires Cross(h[|h| - 2], h[|h| - 1], v) > 0 && StrictlyBefore(rising, h[|h| - 1], v)
    ensures forall j :: i <= j < |h| - 1 ==> Cross(h[j], h[j + 1], v) > 0
    decreases |h| - i
  {
    hide Cross;
    if i < |h| - 2 {
      LeftOfOlder(rising, h, v, i + 1);
      assert Cross(h[i + 1], h[i + 2], v) > 0;
      BeforeIsTotalOrder(rising, h[i + 2], h[|h| - 1], v);
      AheadOfLater(rising, h, v, i + 2);
      AheadIsLeftOfEarlier(rising, h[i], h[i + 1], h[i + 2], v);
    }
  }

  lemma AheadOfLater(rising: bool, h: seq<Point>, v: Point, i: nat)
    requires i < |h| && Chain(rising, h) && StrictlyBefore(rising, h[|h| - 1], v)
    ensures StrictlyBefore(rising, h[i], v)
  {
  }

  lemma PushedEdges(rising: bool, seen: seq<Point>, v: Point, h: seq<Point>)
    requires h != [] && Supports(h, seen)
    requires forall k :: 0 <= k < |seen| ==> Cross(h[|h| - 1], v, seen[k]) >= 0
    requires forall j :: 0 <= j < |h| - 1 ==> Cross(h[j], h[j + 1], v) > 0
    ensures Supports(h + [v], seen + [v])
  {
    AreasAdd(h[|h| - 1], v, v, v);
    hide Cross;
    var all, pushed := seen + [v], h + [v];
    forall i, k | 0 <= i < |pushed| - 1 && 0 <= k < |all| ensures Cross(pushed[i], pushed[i + 1], all[k]) >= 0 {
      if i < |h| - 1 {
        assert pushed[i] == h[i] && pushed[i + 1] == h[i + 1];
      }
    }
  }

  lemma EmptyHalf(rising: bool)
    ensures HalfHull(rising, [], [])
  {
    hide Cross;
  }

  lemma SingleHalf(rising: bool, v: Point)
    ensures HalfHull(rising, [v], [v])
  {
    hide Cross;
  }

  lemma SweepPrefix(rising: bool, vertices: seq<Point>, n: nat)
    requires Sweeps(rising, vertices) && n <= |vertices|
    ensures Sweeps(rising, vertices[..n])
  {
  }

  method Half(vertices: seq<Point>, ghost rising: bool) returns (hull: seq<Point>)
    requires Sweeps(rising, vertices)
    ensures HalfHull(rising, vertices, hull)
  {
    hide Cross, HalfHull, Popping, Sweeps;
    EmptyHalf(rising);
    hull := [];
    for n := 0 to |vertices|
      invariant HalfHull(rising, vertices[..n], hull)
      invariant n == 0 ==> hull == []
    {
      var vertex := vertices[n];
      ghost var seen := vertices[..n];
      assert vertices[..n + 1] == seen + [vertex];
      SweepPrefix(rising, vertices, n + 1);
      if n > 0 { StartsPopping(rising, seen, vertex, hull); }
      while |hull| >= 2 && Cross(hull[|hull| - 2], hull[|hull| - 1], vertex) <= 0
        invariant if n > 0 then Popping(rising, seen, vertex, hull) else hull == []
      {
        PopStep(rising, seen, vertex, hull);
        hull := hull[..|hull| - 1];
      }
      if n > 0 {
        PushSupports(rising, seen, vertex, hull);
      } else {
        SingleHalf(rising, vertex);
        assert seen + [vertex] == [vertex] == hull + [vertex];
      }
      hull := hull + [vertex];
    }
    assert vertices[..|vertices|] == vertices;
  }

  // ----- strict convexity -----

  /** Every turn through three vertices, in order, is a left turn: no vertex repeats or is redundant. */
  ghost predicate StrictlyConvex(h: seq<Point>) {
    forall i, j, k :: 0 <= i < j < k < |h| ==> Cross(h[i], h[j], h[k]) > 0
  }

  function Next(h: seq<Point>, i: nat): nat
    requires i < |h|
  {
    if i + 1 == |h| then 0 else i + 1
  }

  /** Every vertex lies strictly to the left of every edge of the closed polygon it is not an end of. */
  ghost predicate EdgesAreStrict(h: seq<Point>) {
    forall i, k :: 0 <= i < |h| && 0 <= k < |h| && k != i && k != Next(h, i) ==> Cross(h[i], h[Next(h, i)], h[k]) > 0
  }

  /** Around vertex `i`, later vertices appear in turning order. */
  lemma {:induction false} FanTurnsLeft(h: seq<Point>, i: nat, j: nat, k: nat)
    requires EdgesAreStrict(h) && i < j < k < |h|
    ensures Cross(h[i], h[j], h[k]) > 0
    decreases k - j
  {
    if j == i + 1 {
      assert Cross(h[i], h[Next(h, i)], h[k]) > 0;
    } else {
      assert Cross(h[i], h[Next(h, i)], h[j]) > 0 && Cross(h[i], h[Next(h, i)], h[k]) > 0;
      assert Cross(h[j], h[Next(h, j)], h[i]) > 0;
      CrossCycles(h[i], h[j], h[j + 1]);
      if j + 1 < k {
        FanTurnsLeft(h, i, j + 1, k);
        assert Cross(h[i], h[Next(h, i)], h[j + 1]) > 0;
        var r, u, v, w := Sub(h[i + 1], h[i]), Sub(h[j], h[i]), Sub(h[j + 1], h[i]), Sub(h[k], h[i]);
        CrossIsDet(h[i], h[i + 1], h[j]);
        CrossIsDet(h[i], h[i + 1], h[j + 1]);
        CrossIsDet(h[i], h[i + 1], h[k]);
        CrossIsDet(h[i], h[j], h[j + 1]);
        CrossIsDet(h[i], h[j + 1], h[k]);
        CrossIsDet(h[i], h[j], h[k]);
        TurnTransitive(r, u, v, w);
      }
    }
  }

  lemma StrictEdgesMakeConvex(h: seq<Point>)
    requires EdgesAreStrict(h)
    ensures StrictlyConvex(h)
  {
    hide Cross;
    forall i, j, k | 0 <= i < j < k < |h| ensures Cross(h[i], h[j], h[k]) > 0 {
      FanTurnsLeft(h, i, j, k);
    }
  }

  // ----- inside one chain every vertex is strictly left of every edge -----

  lemma {:induction false} LaterIsLeft(rising: bool, h: seq<Point>, i: nat, k: nat)
    requires Chain(rising, h) && i + 1 < k < |h|
    ensures Cross(h[i], h[i + 1], h[k]) > 0
    decreases k - i
  {
    hide Cross;
    if i + 2 < k {
      LaterIsLeft(rising, h, i + 1, k);
      AheadIsLeftOfEarlier(rising, h[i], h[i + 1], h[i + 2], h[k]);
    }
  }

  lemma {:induction false} EarlierIsLeft(rising: bool, h: seq<Point>, i: nat, k: nat)
    requires Chain(rising, h) && k < i < |h| - 1
    ensures Cross(h[i], h[i + 1], h[k]) > 0
    decreases i
  {
    CrossCycles(h[i - 1], h[i], h[i + 1]);
    hide Cross;
    if k < i - 1 {
      EarlierIsLeft(rising, h, i - 1, k);
      BeforeIsTotalOrder(rising, h[k], h[i], h[i + 1]);
      BeforeIsTotalOrder(rising, h[i], h[i + 1], h[k]);
      BehindTopIsLeft(rising, h[i - 1], h[i], h[i + 1], h[k]);
    }
  }

  /** A chain turning the other way touches the line of an edge at most where the chains meet. */
  lemma InnerOfOtherChainIsLeft(rising: bool, a: Point, b: Point, p: Point, q: Point, s: Point)
    requires StrictlyBefore(rising, a, b) && StrictlyBefore(!rising, p, q) && StrictlyBefore(!rising, q, s)
    requires Cross(a, b, p) >= 0 && Cross(a, b, q) >= 0 && Cross(a, b, s) >= 0
    requires Cross(p, q, s) > 0
    ensures Cross(a, b, q) > 0
  {
    HeightDifference(a, b, p, q);
    HeightDifference(a, b, s, q);
    DetOfTurnedEdges(p, q, s);
    var e, u, v := Sub(b, a), Sub(p, q), Sub(q, s);
    DetPlus(u, e, e);
    DetPlus(v, e, e);
    DetOpposite(e, q, s);
    hide Cross, Det;
    if Cross(a, b, q) == 0 {
      AheadTransitive(rising, u, v, e);
      assert false;
    }
  }

  lemma HeightDifference(a: Point, b: Point, p: Point, q: Point)
    ensures Det(Sub(b, a), Sub(p, q)) == Cross(a, b, p) - Cross(a, b, q)
  {
  }

  lemma DetOfTurnedEdges(p: Point, q: Point, s: Point)
    ensures Det(Sub(p, q), Sub(q, s)) == Cross(p, q, s)
  {
  }

  lemma DetOpposite(e: Point, q: Point, s: Point)
    ensures Det(e, Sub(q, s)) == -Det(e, Sub(s, q))
  {
  }

  // ----- joining the two halves -----

  function Joined(lower: seq<Point>, upper: seq<Point>): seq<Point> {
    (if lower == [] then [] else lower[..|lower| - 1]) + (if upper == [] then [] else upper[..|upper| - 1])
  }

  ghost predicate AllCollinear(points: seq<Point>) {
    forall i, j, k :: 0 <= i < |points| && 0 <= j < |points| && 0 <= k < |points| ==> Cross(points[i], points[j], points[k]) == 0
  }

  /** The closed polygon `h` has every point on or to the left of each of its edges. */
  ghost predicate Encloses(h: seq<Point>, points: seq<Point>) {
    forall i, k :: 0 <= i < |h| && 0 <= k < |points| ==> Cross(h[i], h[Next(h, i)], points[k]) >= 0
  }

  ghost predicate IsHull(points: seq<Point>, h: seq<Point>) {
    && Members(h, points)
    && Encloses(h, points)
    && StrictlyConvex(h)
    && (|h| >= 3 <==> !AllCollinear(points))
  }

  ghost predicate SamePoints(a: seq<Point>, b: seq<Point>) {
    forall p :: p in a <==> p in b
  }

  /** The two halves of one sweep, there and back. */
  ghost predicate Halves(points: seq<Point>, lower: seq<Point>, upper: seq<Point>) {
    && (points == [] ==> lower == [] && upper == [])
    && (points != [] ==> lower != [] && upper != [] && lower[0] == upper[|upper| - 1] && upper[0] == lower[|lower| - 1])
    && (Chain(true, lower) || Twin(lower, points)) && (Chain(false, upper) || Twin(upper, points))
    && Supports(lower, points) && Supports(upper, points)
    && Members(lower, points) && Members(upper, points)
    && (points != [] ==> forall k :: 0 <= k < |points| ==> Before(true, lower[0], points[k]) && Before(false, upper[0], points[k]))
  }

  lemma JoinedEdge(points: seq<Point>, lower: seq<Point>, upper: seq<Point>, i: nat)
    requires Halves(points, lower, upper) && |lower| >= 2 && |upper| >= 2
    requires i < |Joined(lower, upper)|
    ensures var h, m := Joined(lower, upper), |lower| - 1;
            if i < m then h[i] == lower[i] && h[Next(h, i)] == lower[i + 1]
            else h[i] == upper[i - m] && h[Next(h, i)] == upper[i - m + 1]
  {
    hide Cross;
  }

  lemma JoinedEncloses(points: seq<Point>, lower: seq<Point>, upper: seq<Point>)
    requires Halves(points, lower, upper)
    ensures Members(Joined(lower, upper), points) && Encloses(Joined(lower, upper), points)
  {
    hide Cross;
    var h := Joined(lower, upper);
    JoinedMembers(points, lower, upper);
    if points == [] {
    } else if |lower| == 1 || |upper| == 1 {
      OnePointEncloses(points, lower, upper);
    } else {
      hide Halves;
      forall i, k | 0 <= i < |h| && 0 <= k < |points| ensures Cross(h[i], h[Next(h, i)], points[k]) >= 0 {
        JoinedEdgeSupports(points, lower, upper, i, k);
      }
    }
  }

  lemma JoinedMembers(points: seq<Point>, lower: seq<Point>, upper: seq<Point>)
    requires Members(lower, points) && Members(upper, points)
    ensures Members(Joined(lower, upper), points)
  {
  }

  lemma OnePointEncloses(points: seq<Point>, lower: seq<Point>, upper: seq<Point>)
    requires Halves(points, lower, upper) && points != [] && (|lower| == 1 || |upper| == 1)
    ensures Encloses(Joined(lower, upper), points)
  {
    ExtremesMeet(points, lower, upper);
    hide Cross, Halves;
    var h := Joined(lower, upper);
    forall i, k | 0 <= i < |h| && 0 <= k < |points| ensures Cross(h[i], h[Next(h, i)], points[k]) >= 0 {
      TwinHasNoTurn(lower[0], points[k]);
    }
  }

  lemma JoinedEdgeSupports(points: seq<Point>, lower: seq<Point>, upper: seq<Point>, i: nat, k: nat)
    requires Halves(points, lower, upper) && |lower| >= 2 && |upper| >= 2
    requires i < |Joined(lower, upper)| && k < |points|
    ensures var h := Joined(lower, upper); Cross(h[i], h[Next(h, i)], points[k]) >= 0
  {
    hide Cross;
    JoinedEdge(points, lower, upper, i);
    var m := |lower| - 1;
    if i < m {
      assert Cross(lower[i], lower[i + 1], points[k]) >= 0;
    } else {
      var t := i - m;
      assert Cross(upper[t], upper[t + 1], points[k]) >= 0;
    }
  }

  /** When the sweep starts and ends at the same point, there is only that point. */
  lemma ExtremesMeet(points: seq<Point>, lower: seq<Point>, upper: seq<Point>)
    requires points != [] && Halves(points, lower, upper)
    requires lower[0] == lower[|lower| - 1] || upper[0] == upper[|upper| - 1]
    ensures forall k :: 0 <= k < |points| ==> points[k] == lower[0]
    ensures forall i :: 0 <= i < |lower| ==> lower[i] == lower[0]
    ensures forall i :: 0 <= i < |upper| ==> upper[i] == lower[0]
    ensures |lower| <= 2 && |upper| <= 2
  {
    hide Cross;
    forall k | 0 <= k < |points| ensures points[k] == lower[0] {
      BeforeIsTotalOrder(true, lower[0], points[k], lower[0]);
      BeforeIsTotalOrder(false, lower[0], points[k], lower[0]);
    }
  }

  lemma OtherChainIsLeft(rising: bool, points: seq<Point>, a: seq<Point>, b: seq<Point>, i: nat, j: nat)
    requires Chain(rising, a) && Chain(!rising, b) && Supports(a, points) && Members(b, points)
    requires i < |a| - 1 && 0 < j < |b| - 1
    ensures Cross(a[i], a[i + 1], b[j]) > 0
  {
    hide Cross;
    forall t | 0 <= t < |b| ensures Cross(a[i], a[i + 1], b[t]) >= 0 {
      var k :| 0 <= k < |points| && points[k] == b[t];
      assert Cross(a[i], a[i + 1], points[k]) >= 0;
    }
    assert Cross(b[j - 1], b[j - 1 + 1], b[j - 1 + 2]) > 0;
    InnerOfOtherChainIsLeft(rising, a[i], a[i + 1], b[j - 1], b[j], b[j + 1]);
  }

  lemma SameChainIsLeft(rising: bool, h: seq<Point>, i: nat, k: nat)
    requires Chain(rising, h) && i < |h| - 1 && k < |h| && k != i && k != i + 1
    ensures Cross(h[i], h[i + 1], h[k]) > 0
  {
    if i + 1 < k { LaterIsLeft(rising, h, i, k); } else { EarlierIsLeft(rising, h, i, k); }
  }

  lemma JoinedPairIsStrict(points: seq<Point>, lower: seq<Point>, upper: seq<Point>, i: nat, k: nat)
    requires Halves(points, lower, upper) && |lower| >= 2 && |upper| >= 2
    requires Chain(true, lower) && Chain(false, upper)
    requires var h := Joined(lower, upper); i < |h| && k < |h| && k != i && k != Next(h, i)
    ensures var h := Joined(lower, upper); Cross(h[i], h[Next(h, i)], h[k]) > 0
  {
    hide Cross;
    hide Halves, Chain, Supports, Members;
    var m, n := |lower| - 1, |upper| - 1;
    JoinedEdge(points, lower, upper, i);
    JoinedEdge(points, lower, upper, k);
    HalvesMeet(points, lower, upper);
    if i < m {
      if k <= m { SameChainIsLeft(true, lower, i, k); } else { OtherChainIsLeft(true, points, lower, upper, i, k - m); }
    } else if k >= m {
      SameChainIsLeft(false, upper, i - m, k - m);
    } else if k == 0 {
      SameChainIsLeft(false, upper, i - m, n);
    } else {
      OtherChainIsLeft(false, points, upper, lower, i - m, k);
    }
  }

  lemma HalvesMeet(points: seq<Point>, lower: seq<Point>, upper: seq<Point>)
    requires Halves(points, lower, upper) && |lower| >= 1 && |upper| >= 1
    ensures lower[0] == upper[|upper| - 1] && upper[0] == lower[|lower| - 1]
    ensures Supports(lower, points) && Supports(upper, points)
    ensures Members(lower, points) && Members(upper, points)
  {
    hide Cross;
    assert points != [] by { assert lower[0] in points; }
  }

  lemma JoinedIsStrict(points: seq<Point>, lower: seq<Point>, upper: seq<Point>)
    requires Halves(points, lower, upper) && |lower| >= 2 && |upper| >= 2
    requires Chain(true, lower) && Chain(false, upper)
    ensures EdgesAreStrict(Joined(lower, upper))
  {
    var h := Joined(lower, upper);
    hide Cross, Halves, Chain;
    forall i, k | 0 <= i < |h| && 0 <= k < |h| && k != i && k != Next(h, i) ensures Cross(h[i], h[Next(h, i)], h[k]) > 0 {
      JoinedPairIsStrict(points, lower, upper, i, k);
    }
  }

  lemma OnOneLine(points: seq<Point>, a: Point, b: Point)
    requires a != b
    requires forall k :: 0 <= k < |points| ==> Cross(a, b, points[k]) == 0
    ensures AllCollinear(points)
  {
    hide Cross, Det;
    forall i, j, k | 0 <= i < |points| && 0 <= j < |points| && 0 <= k < |points|
      ensures Cross(points[i], points[j], points[k]) == 0
    {
      var p, q, r, e := points[i], points[j], points[k], Sub(b, a);
      HeightDifference(a, b, q, p);
      HeightDifference(a, b, r, p);
      DetPlus(Sub(q, p), e, e);
      CrossIsDet(p, q, r);
      ParallelTransitive(Sub(q, p), e, Sub(r, p));
    }
  }

  lemma OnePointIsCollinear(points: seq<Point>, p: Point)
    requires forall k :: 0 <= k < |points| ==> points[k] == p
    ensures AllCollinear(points)
  {
    TwinHasNoTurn(p, p);
  }

  lemma TriangleIsNotCollinear(points: seq<Point>, h: seq<Point>)
    requires |h| >= 3 && StrictlyConvex(h) && Members(h, points)
    ensures !AllCollinear(points)
  {
    hide Cross;
    assert Cross(h[0], h[1], h[2]) > 0;
    var i :| 0 <= i < |points| && points[i] == h[0];
    var j :| 0 <= j < |points| && points[j] == h[1];
    var k :| 0 <= k < |points| && points[k] == h[2];
    assert Cross(points[i], points[j], points[k]) > 0;
  }

  lemma TwoEdgesAreCollinear(points: seq<Point>, a: Point, b: Point)
    requires a != b && Supports([a, b], points) && Supports([b, a], points)
    ensures AllCollinear(points)
  {
    forall k | 0 <= k < |points| ensures Cross(a, b, points[k]) == 0 {
      CrossCycles(a, b, points[k]);
      hide Cross;
      var there, back := [a, b], [b, a];
      assert Cross(there[0], there[0 + 1], points[k]) >= 0 && Cross(back[0], back[0 + 1], points[k]) >= 0;
    }
    OnOneLine(points, a, b);
  }

  lemma JoinedIsHull(points: seq<Point>, lower: seq<Point>, upper: seq<Point>)
    requires Halves(points, lower, upper)
    ensures IsHull(points, Joined(lower, upper))
  {
    hide Cross;
    hide Supports, AllCollinear, Encloses, EdgesAreStrict;
    var h := Joined(lower, upper);
    JoinedEncloses(points, lower, upper);
    if points == [] {
      OnePointIsCollinear(points, Point(0, 0));
    } else if |lower| == 1 || |upper| == 1 || Twin(lower, points) || Twin(upper, points) {
      ExtremesMeet(points, lower, upper);
      OnePointIsCollinear(points, lower[0]);
    } else {
      JoinedIsStrict(points, lower, upper);
      StrictEdgesMakeConvex(h);
      if |h| >= 3 {
        TriangleIsNotCollinear(points, h);
      } else {
        assert lower == [lower[0], lower[1]] && upper == [lower[1], lower[0]];
        BeforeIsTotalOrder(true, lower[0], lower[1], lower[0]);
        TwoEdgesAreCollinear(points, lower[0], lower[1]);
      }
    }
  }

  lemma SweepsAreHalves(points: seq<Point>, there: seq<Point>, back: seq<Point>, lower: seq<Point>, upper: seq<Point>)
    requires Sweeps(true, there) && Sweeps(false, back)
    requires SamePoints(there, points) && SamePoints(back, points) && |there| == |back|
    requires there != [] ==> there[0] == back[|back| - 1] && back[0] == there[|there| - 1]
    requires HalfHull(true, there, lower) && HalfHull(false, back, upper)
    ensures Halves(points, lower, upper)
  {
    hide Cross, Chain;
    assert points != [] ==> points[0] in there && points[0] in back;
    assert there != [] ==> there[0] in points;
    SupportsSame(lower, there, points);
    SupportsSame(upper, back, points);
    hide Supports;
    forall k | 0 <= k < |points| ensures Before(true, lower[0], points[k]) && Before(false, upper[0], points[k]) {
      assert points[k] in there && points[k] in back;
      var s :| 0 <= s < |there| && there[s] == points[k];
      var t :| 0 <= t < |back| && back[t] == points[k];
    }
    if Twin(lower, there) { TwinSame(lower, there, points); }
    if Twin(upper, back) { TwinSame(upper, back, points); }
  }

  lemma SupportsSame(h: seq<Point>, a: seq<Point>, b: seq<Point>)
    requires SamePoints(a, b) && Supports(h, a) && Members(h, a)
    ensures Supports(h, b) && Members(h, b)
  {
    hide Cross;
    forall i, k | 0 <= i < |h| - 1 && 0 <= k < |b| ensures Cross(h[i], h[i + 1], b[k]) >= 0 {
      assert b[k] in a;
      var s :| 0 <= s < |a| && a[s] == b[k];
    }
  }

  lemma TwinSame(h: seq<Point>, a: seq<Point>, b: seq<Point>)
    requires SamePoints(a, b) && Twin(h, a)
    ensures Twin(h, b)
  {
    forall k | 0 <= k < |b| ensures b[k] == h[0] {
      assert b[k] in a;
    }
  }

  // ----- sorting by x, then y -----

  function Insert(p: Point, sorted: seq<Point>): (r: seq<Point>)
    requires Sweeps(true, sorted)
    ensures Sweeps(true, r) && multiset(r) == multiset(sorted) + multiset{p}
  {
    if sorted == [] || Before(true, p, sorted[0]) then
      BeforeAll(p, sorted);
      [p] + sorted
    else
      var rest := Insert(p, sorted[1..]);
      InsertedBehind(p, sorted, rest);
      [sorted[0]] + rest
  }

  lemma BeforeAll(p: Point, sorted: seq<Point>)
    requires Sweeps(true, sorted) && (sorted == [] || Before(true, p, sorted[0]))
    ensures Sweeps(true, [p] + sorted)
    ensures multiset([p] + sorted) == multiset(sorted) + multiset{p}
  {
    forall i | 0 <= i < |sorted| ensures Before(true, p, sorted[i]) {
      BeforeIsTotalOrder(true, p, sorted[0], sorted[i]);
    }
  }

  lemma InsertedBehind(p: Point, sorted: seq<Point>, rest: seq<Point>)
    requires sorted != [] && Sweeps(true, sorted) && !Before(true, p, sorted[0])
    requires Sweeps(true, rest) && multiset(rest) == multiset(sorted[1..]) + multiset{p}
    ensures Sweeps(true, [sorted[0]] + rest)
    ensures multiset([sorted[0]] + rest) == multiset(sorted) + multiset{p}
  {
    forall i | 0 <= i < |rest| ensures Before(true, sorted[0], rest[i]) {
      assert rest[i] in multiset(rest);
      BeforeIsTotalOrder(true, sorted[0], p, p);
      if rest[i] != p {
        assert rest[i] in sorted[1..];
      }
    }
    assert sorted == [sorted[0]] + sorted[1..];
  }

  /** `[...points].sort` by x, then y. */
  function Sorted(points: seq<Point>): (r: seq<Point>)
    ensures Sweeps(true, r) && multiset(r) == multiset(points)
  {
    if points == [] then [] else
      assert points == [points[0]] + points[1..];
      Insert(points[0], Sorted(points[1..]))
  }

  function Reversed(s: seq<Point>): (r: seq<Point>)
    ensures |r| == |s| && forall i :: 0 <= i < |s| ==> r[i] == s[|s| - 1 - i]
  {
    seq(|s|, i requires 0 <= i < |s| => s[|s| - 1 - i])
  }

  lemma ReversedSweepsBack(s: seq<Point>)
    requires Sweeps(true, s)
    ensures Sweeps(false, Reversed(s)) && SamePoints(Reversed(s), s)
  {
    var r := Reversed(s);
    forall p ensures p in r <==> p in s {
      if p in s { var i :| 0 <= i < |s| && s[i] == p; assert r[|s| - 1 - i] == p; }
    }
    forall i, j | 0 <= i <= j < |r| ensures Before(false, r[i], r[j]) {
      assert Before(true, s[|s| - 1 - j], s[|s| - 1 - i]);
      BeforeIsTotalOrder(true, r[j], r[i], r[i]);
    }
  }

  /** Every point list, repeated points included: the counterclockwise hull, empty of redundant vertices. */
  method Hull(points: seq<Point>) returns (hull: seq<Point>)
    ensures IsHull(points, hull)
  {
    var sorted := Sorted(points);
    forall p ensures p in sorted <==> p in points {
      assert p in multiset(sorted) <==> p in multiset(points);
    }
    var lower := Half(sorted, true);
    ReversedSweepsBack(sorted);
    ghost var there := sorted;
    sorted := Reversed(sorted);
    var upper := Half(sorted, false);
    SweepsAreHalves(points, there, sorted, lower, upper);
    JoinedIsHull(points, lower, upper);
    hull := Joined(lower, upper);
  }
}
