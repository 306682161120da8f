/** Growth of the best plate quadrilateral through ever darker white thresholds. */
module PlateExpansion {
  import opened Numbers
  import opened Options
  import opened PlateProjection
  import opened PlateQuadrilaterals

  const PLATE_SURFACE_MAXIMUM_EXPANSION_RATIO: real := 1.5
  const PLATE_SURFACE_NESTING_TOLERANCE: real := 0.05
  const PLATE_NARROW_SHADOW_MAXIMUM_HORIZONTAL_SHIFT_SHARE: real := 0.02

  function Wedge(a: PlatePoint, b: PlatePoint): real {
    a.x * b.y - b.x * a.y
  }

  function QuadrilateralArea(c: PlateQuadrilateral): real {
    Abs(Wedge(c.topLeft, c.topRight) + Wedge(c.topRight, c.bottomRight) + Wedge(c.bottomRight, c.bottomLeft) + Wedge(c.bottomLeft, c.topLeft)) / 2.0
  }

  /** The projection takes the point into the unit square, give or take the tolerance. */
  predicate Nests(h: Vector, p: PlatePoint) {
    var uv := Project(h, p);
    && uv.Some?
    && -PLATE_SURFACE_NESTING_TOLERANCE <= uv.value.x <= 1.0 + PLATE_SURFACE_NESTING_TOLERANCE
    && -PLATE_SURFACE_NESTING_TOLERANCE <= uv.value.y <= 1.0 + PLATE_SURFACE_NESTING_TOLERANCE
  }

  predicate NestsAll(h: Vector, c: PlateQuadrilateral) {
    Nests(h, c.topLeft) && Nests(h, c.topRight) && Nests(h, c.bottomRight) && Nests(h, c.bottomLeft)
  }

  predicate GrowsWithin(previous: real, next: real, limit: real) {
    previous < next <= limit && next <= previous * PLATE_SURFACE_MAXIMUM_EXPANSION_RATIO
  }

  /** `next` is a larger quadrilateral of the same surface: bounded growth, around all four corners of `previous`. */
  ghost predicate Expands(previous: PlateQuadrilateral, next: PlateQuadrilateral, detectorArea: real) {
    && GrowsWithin(QuadrilateralArea(previous), QuadrilateralArea(next), detectorArea)
    && Eliminated(CornerRows(next), 8).Some?
    && forall h: Vector :: SendsCorners(h, next) ==> NestsAll(h, previous)
  }

  method SelectPlateSurfaceExpansion(current: Option<PlateQuadrilateral>, candidate: PlateQuadrilateral, detectorArea: real)
    returns (selected: PlateQuadrilateral)
    ensures selected == if current == None || Expands(current.value, candidate, detectorArea) then candidate else current.value
  {
    hide Eliminated, CornerRows, SendsCorners, Nests;
    if current == None { return candidate; }
    var previousArea, candidateArea := QuadrilateralArea(current.value), QuadrilateralArea(candidate);
    if candidateArea <= previousArea || candidateArea > detectorArea ||
       candidateArea > previousArea * PLATE_SURFACE_MAXIMUM_EXPANSION_RATIO { return current.value; }
    var projection := CreatePlateProjection(candidate);
    if projection == None { return current.value; }
    var previous := [current.value.topLeft, current.value.topRight, current.value.bottomRight, current.value.bottomLeft];
    for i := 0 to 4
      invariant forall j :: 0 <= j < i ==> Nests(projection.value, previous[j])
    {
      if !Nests(projection.value, previous[i]) {
        assert !NestsAll(projection.value, current.value);
        return current.value;
      }
    }
    assert Nests(projection.value, previous[0]) && Nests(projection.value, previous[1]) && Nests(projection.value, previous[2])
        && Nests(projection.value, previous[3]);
    forall h: Vector | SendsCorners(h, candidate) ensures NestsAll(h, current.value) {
      assert h == projection.value;
    }
    return candidate;
  }

  /** What an expansion is, in the coordinates of the corners. */
  lemma ExpansionMeans(previous: PlateQuadrilateral, next: PlateQuadrilateral, detectorArea: real)
    ensures Expands(previous, next, detectorArea) <==>
              && QuadrilateralArea(previous) < QuadrilateralArea(next) <= detectorArea
              && QuadrilateralArea(next) <= 1.5 * QuadrilateralArea(previous)
              && Eliminated(CornerRows(next), 8).Some?
              && forall h: Vector, p: PlatePoint ::
                  SendsCorners(h, next) && p in {previous.topLeft, previous.topRight, previous.bottomRight, previous.bottomLeft} ==>
                  Project(h, p).Some? && -0.05 <= Project(h, p).value.x <= 1.05 && -0.05 <= Project(h, p).value.y <= 1.05
  {
    hide QuadrilateralArea, Eliminated, CornerRows, SendsCorners, Project;
    if Expands(previous, next, detectorArea) {
      forall h: Vector, p: PlatePoint | SendsCorners(h, next) && p in {previous.topLeft, previous.topRight, previous.bottomRight, previous.bottomLeft}
        ensures Nests(h, p)
      {
        assert NestsAll(h, previous);
      }
    }
  }

  /** A quadrilateral that turns at every corner has the area of the two triangles on either side of its diagonal. */
  lemma AreaIsTwoTriangles(c: PlateQuadrilateral)
    requires TurnsAtEveryCorner(c)
    ensures QuadrilateralArea(c) == (Turn(c.topLeft, c.topRight, c.bottomRight) + Turn(c.bottomRight, c.bottomLeft, c.topLeft)) / 2.0
  {
    var a, b, d, e := c.topLeft, c.topRight, c.bottomRight, c.bottomLeft;
    TriangleWedges(a, b, d);
    TriangleWedges(d, e, a);
    WedgeTurns(a, d);
    hide Wedge, Turn;
  }

  lemma TriangleWedges(a: PlatePoint, b: PlatePoint, c: PlatePoint)
    ensures Turn(a, b, c) == Wedge(a, b) + Wedge(b, c) + Wedge(c, a)
  {
  }

  lemma WedgeTurns(a: PlatePoint, b: PlatePoint)
    ensures Wedge(a, b) == -Wedge(b, a)
  {
  }

  // ----- the thresholds, one after another -----

  /** What one threshold found, and whether it is deep in shadow. */
  datatype Threshold = Threshold(deep: bool, quadrilaterals: seq<PlateQuadrilateral>)

  function Shift(a: PlatePoint, b: PlatePoint): real {
    Abs(a.x - b.x)
  }

  function SidewaysShift(a: PlateQuadrilateral, b: PlateQuadrilateral): real {
    Max(Max(Shift(a.topLeft, b.topLeft), Shift(a.topRight, b.topRight)), Max(Shift(a.bottomRight, b.bottomRight), Shift(a.bottomLeft, b.bottomLeft)))
  }

  predicate Unambiguous(thresholds: seq<Threshold>) {
    forall i :: 0 <= i < |thresholds| ==> |thresholds[i].quadrilaterals| <= 1
  }

  predicate NothingFound(thresholds: seq<Threshold>) {
    forall i :: 0 <= i < |thresholds| ==> thresholds[i].quadrilaterals == []
  }

  type Best = Option<PlateQuadrilateral>

  /** The anchor at threshold `n`: the best found before the first threshold deep in shadow that had one by then. */
  ghost predicate IsAnchor(thresholds: seq<Threshold>, bests: seq<Best>, n: nat, anchor: Best)
    requires n < |thresholds| && n < |bests|
  {
    if anchor == None then forall m :: 0 <= m <= n && thresholds[m].deep ==> bests[m] == None
    else exists m :: 0 <= m <= n && thresholds[m].deep && bests[m] == anchor && forall l :: 0 <= l < m && thresholds[l].deep ==> bests[l] == None
  }

  /** Every corner lies at most a fiftieth of the detector's box to the side of the same corner of `anchor`. */
  ghost predicate StaysNear(q: PlateQuadrilateral, anchor: PlateQuadrilateral, boxWidth: real) {
    var limit := boxWidth * 0.02;
    && -limit <= q.topLeft.x - anchor.topLeft.x <= limit && -limit <= q.topRight.x - anchor.topRight.x <= limit
    && -limit <= q.bottomRight.x - anchor.bottomRight.x <= limit && -limit <= q.bottomLeft.x - anchor.bottomLeft.x <= limit
  }

  /**
   * A threshold without a surface keeps the best. The surface it found becomes the best exactly when there was none, or
   * when it expands the best and, deep in shadow with an anchor, stays near that anchor.
   */
  ghost predicate NextBest(t: Threshold, best: Best, anchor: Best, next: Best, boxWidth: real, detectorArea: real) {
    && (t.quadrilaterals == [] ==> next == best)
    && (forall q :: t.quadrilaterals == [q] ==>
          next == if best == None || (Expands(best.value, q, detectorArea) && (t.deep && anchor.Some? ==> StaysNear(q, anchor.value, boxWidth)))
                  then Some(q) else best)
  }

  /** The bests before each threshold and after the last, and the anchors the thresholds saw. */
  ghost predicate IsGrowth(thresholds: seq<Threshold>, bests: seq<Best>, anchors: seq<Best>, boxWidth: real, detectorArea: real) {
    && |bests| == |thresholds| + 1 && |anchors| == |thresholds| && bests[0] == None
    && (forall n :: 0 <= n < |thresholds| ==> IsAnchor(thresholds, bests, n, anchors[n]))
    && (forall n :: 0 <= n < |thresholds| ==> NextBest(thresholds[n], bests[n], anchors[n], bests[n + 1], boxWidth, detectorArea))
  }

  /**
   * Nothing when some threshold saw two surfaces or none saw any; otherwise the best after the last threshold.
   */
  method GrowPlateSurface(thresholds: seq<Threshold>, boxWidth: real, detectorArea: real)
    returns (best: Best, ghost bests: seq<Best>, ghost anchors: seq<Best>)
    ensures best == None <==> !Unambiguous(thresholds) || NothingFound(thresholds)
    ensures Unambiguous(thresholds) ==> IsGrowth(thresholds, bests, anchors, boxWidth, detectorArea) && best == bests[|thresholds|]
  {
    hide Expands, SidewaysShift, IsAnchor, NextBest;
    var shadowAnchor: Best := None;
    best, bests, anchors := None, [None], [];
    for n := 0 to |thresholds|
      invariant Unambiguous(thresholds[..n])
      invariant best == None <==> NothingFound(thresholds[..n])
      invariant |bests| == n + 1 && |anchors| == n && bests[0] == None && best == bests[n]
      invariant best == None ==> shadowAnchor == None
      invariant n > 0 ==> IsAnchor(thresholds, bests, n - 1, shadowAnchor)
      invariant n == 0 ==> shadowAnchor == None
      invariant forall m :: 0 <= m < n ==> IsAnchor(thresholds, bests, m, anchors[m])
      invariant forall m :: 0 <= m < n ==> NextBest(thresholds[m], bests[m], anchors[m], bests[m + 1], boxWidth, detectorArea)
    {
      var t := thresholds[n];
      assert thresholds[..n + 1] == thresholds[..n] + [t];
      AnchorNext(thresholds, bests, n, shadowAnchor);
      if t.deep && shadowAnchor == None {
        shadowAnchor := best;
      }
      if |t.quadrilaterals| > 1 {
        assert thresholds[n] == t;
        return None, bests, anchors;
      }
      ghost var before := best;
      anchors := anchors + [shadowAnchor];
      if |t.quadrilaterals| == 1 {
        var candidate := t.quadrilaterals[0];
        if shadowAnchor.Some? && t.deep &&
           SidewaysShift(candidate, shadowAnchor.value) > boxWidth * PLATE_NARROW_SHADOW_MAXIMUM_HORIZONTAL_SHIFT_SHARE {
          TooFar(t, before, shadowAnchor.value, boxWidth, detectorArea);
        } else {
          var selected := SelectPlateSurfaceExpansion(best, candidate, detectorArea);
          best := Some(selected);
          Selected(t, before, shadowAnchor, best, boxWidth, detectorArea);
        }
      } else {
        NothingSelected(t, before, shadowAnchor, boxWidth, detectorArea);
      }
      AnchorsStay(thresholds, bests, bests + [best], n);
      bests := bests + [best];
    }
    assert thresholds[..|thresholds|] == thresholds;
  }

  lemma ShiftsAreShift(a: PlateQuadrilateral, b: PlateQuadrilateral, boxWidth: real)
    ensures SidewaysShift(a, b) <= boxWidth * PLATE_NARROW_SHADOW_MAXIMUM_HORIZONTAL_SHIFT_SHARE <==> StaysNear(a, b, boxWidth)
  {
  }

  lemma TooFar(t: Threshold, best: Best, anchor: PlateQuadrilateral, boxWidth: real, detectorArea: real)
    requires |t.quadrilaterals| == 1 && best.Some? && t.deep
    requires SidewaysShift(t.quadrilaterals[0], anchor) > boxWidth * PLATE_NARROW_SHADOW_MAXIMUM_HORIZONTAL_SHIFT_SHARE
    ensures NextBest(t, best, Some(anchor), best, boxWidth, detectorArea)
  {
    hide Expands, StaysNear, SidewaysShift;
    ShiftsAreShift(t.quadrilaterals[0], anchor, boxWidth);
    assert t.quadrilaterals == [t.quadrilaterals[0]];
  }

  lemma Selected(t: Threshold, best: Best, anchor: Best, next: Best, boxWidth: real, detectorArea: real)
    requires |t.quadrilaterals| == 1
    requires anchor.Some? && t.deep ==>
               SidewaysShift(t.quadrilaterals[0], anchor.value) <= boxWidth * PLATE_NARROW_SHADOW_MAXIMUM_HORIZONTAL_SHIFT_SHARE
    requires next == Some(if best == None || Expands(best.value, t.quadrilaterals[0], detectorArea) then t.quadrilaterals[0] else best.value)
    ensures NextBest(t, best, anchor, next, boxWidth, detectorArea)
  {
    hide Expands, StaysNear, SidewaysShift;
    if anchor.Some? { ShiftsAreShift(t.quadrilaterals[0], anchor.value, boxWidth); }
    assert t.quadrilaterals == [t.quadrilaterals[0]];
  }

  lemma NothingSelected(t: Threshold, best: Best, anchor: Best, boxWidth: real, detectorArea: real)
    requires t.quadrilaterals == []
    ensures NextBest(t, best, anchor, best, boxWidth, detectorArea)
  {
  }

  /** The anchor of the next threshold: the same, or set now. */
  lemma AnchorNext(thresholds: seq<Threshold>, bests: seq<Best>, n: nat, anchor: Best)
    requires n < |thresholds| && |bests| == n + 1
    requires if n == 0 then anchor == None && bests[0] == None else IsAnchor(thresholds, bests, n - 1, anchor)
    ensures IsAnchor(thresholds, bests, n, if thresholds[n].deep && anchor == None then bests[n] else anchor)
  {
  }

  lemma AnchorsStay(thresholds: seq<Threshold>, bests: seq<Best>, longer: seq<Best>, n: nat)
    requires n < |thresholds| && |bests| == n + 1 && |longer| == n + 2 && bests == longer[..n + 1]
    ensures forall m, a: Best :: 0 <= m <= n && IsAnchor(thresholds, bests, m, a) ==> IsAnchor(thresholds, longer, m, a)
  {
    assert forall m :: 0 <= m <= n ==> bests[m] == longer[m];
    forall m, a: Best | 0 <= m <= n && IsAnchor(thresholds, bests, m, a) ensures IsAnchor(thresholds, longer, m, a) {
      AnchorStays(thresholds, bests, longer, m, a);
    }
  }

  lemma AnchorStays(thresholds: seq<Threshold>, bests: seq<Best>, longer: seq<Best>, m: nat, a: Best)
    requires m < |thresholds| && m < |bests| <= |longer| && (forall l :: 0 <= l < |bests| ==> bests[l] == longer[l])
    requires IsAnchor(thresholds, bests, m, a)
    ensures IsAnchor(thresholds, longer, m, a)
  {
    if a.Some? {
      var k :| 0 <= k <= m && thresholds[k].deep && bests[k] == a && forall l :: 0 <= l < k && thresholds[l].deep ==> bests[l] == None;
      assert longer[k] == a;
    }
  }

  // ----- over the whole growth -----

  /** The first surface found is the first best. */
  lemma {:induction false} FirstFoundIsBest(thresholds: seq<Threshold>, bests: seq<Best>, anchors: seq<Best>, boxWidth: real, detectorArea: real,
                                             n: nat)
    requires |bests| == |thresholds| + 1 && n < |thresholds| && NothingFound(thresholds[..n]) && |thresholds[n].quadrilaterals| == 1
    requires IsGrowth(thresholds, bests, anchors, boxWidth, detectorArea)
    ensures bests[n] == None && bests[n + 1] == Some(thresholds[n].quadrilaterals[0])
  {
    hide IsAnchor, Expands, StaysNear;
    NoneUntilFound(thresholds, bests, anchors, boxWidth, detectorArea, n);
    assert thresholds[n].quadrilaterals == [thresholds[n].quadrilaterals[0]];
  }

  lemma {:induction false} NoneUntilFound(thresholds: seq<Threshold>, bests: seq<Best>, anchors: seq<Best>, boxWidth: real, detectorArea: real,
                                           n: nat)
    requires |bests| == |thresholds| + 1 && n <= |thresholds| && NothingFound(thresholds[..n])
    requires IsGrowth(thresholds, bests, anchors, boxWidth, detectorArea)
    ensures bests[n] == None
  {
    hide IsAnchor, Expands, StaysNear;
    if n > 0 {
      assert forall i :: 0 <= i < n - 1 ==> thresholds[..n - 1][i] == thresholds[..n][i];
      NoneUntilFound(thresholds, bests, anchors, boxWidth, detectorArea, n - 1);
      assert thresholds[n - 1] == thresholds[..n][n - 1];
      assert NextBest(thresholds[n - 1], bests[n - 1], anchors[n - 1], bests[n - 1 + 1], boxWidth, detectorArea);
    }
  }

  /** A best is only ever given up for a larger one, which is no larger than the detector's box. */
  lemma {:induction false} BestsGrow(thresholds: seq<Threshold>, bests: seq<Best>, anchors: seq<Best>, boxWidth: real, detectorArea: real,
                                     i: nat, j: nat)
    requires |bests| == |thresholds| + 1 && i <= j <= |thresholds| && bests[i].Some?
    requires Unambiguous(thresholds) && IsGrowth(thresholds, bests, anchors, boxWidth, detectorArea)
    ensures bests[j].Some?
    ensures bests[j] == bests[i] || QuadrilateralArea(bests[i].value) < QuadrilateralArea(bests[j].value) <= detectorArea
    decreases j
  {
    hide IsAnchor, Expands, StaysNear, QuadrilateralArea;
    if i < j {
      BestsGrow(thresholds, bests, anchors, boxWidth, detectorArea, i, j - 1);
      assert NextBest(thresholds[j - 1], bests[j - 1], anchors[j - 1], bests[j - 1 + 1], boxWidth, detectorArea);
      var q := thresholds[j - 1].quadrilaterals;
      if |q| == 1 {
        assert q == [q[0]];
        if bests[j] != bests[j - 1] { ExpansionGrows(bests[j - 1].value, q[0], detectorArea); }
      }
    }
  }

  lemma ExpansionGrows(previous: PlateQuadrilateral, next: PlateQuadrilateral, detectorArea: real)
    requires Expands(previous, next, detectorArea)
    ensures QuadrilateralArea(previous) < QuadrilateralArea(next) <= detectorArea
  {
  }

  /** Once set, the anchor is the same for every later threshold. */
  lemma AnchorIsFixed(thresholds: seq<Threshold>, bests: seq<Best>, anchors: seq<Best>, boxWidth: real, detectorArea: real, i: nat, j: nat)
    requires i <= j < |thresholds| && |anchors| == |thresholds| && anchors[i].Some?
    requires IsGrowth(thresholds, bests, anchors, boxWidth, detectorArea)
    ensures anchors[j] == anchors[i]
  {
    hide NextBest;
    assert IsAnchor(thresholds, bests, i, anchors[i]) && IsAnchor(thresholds, bests, j, anchors[j]);
  }
}
