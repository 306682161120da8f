/** The validity guard of a plate quadrilateral, and why its projection stays inside it. */
module PlateQuadrilaterals {
  import opened Numbers
  import opened PlateProjection

  const PLATE_MAXIMUM_RENDER_PIXELS: int := 1_000_000

  /** Twice the signed area of the triangle `a b c`. */
  function Turn(a: PlatePoint, b: PlatePoint, c: PlatePoint): real {
    (b.x - a.x) * (c.y - b.y) - (b.y - a.y) * (c.x - b.x)
  }

  function MinX(c: PlateQuadrilateral): real {
    Min(Min(c.topLeft.x, c.topRight.x), Min(c.bottomRight.x, c.bottomLeft.x))
  }

  function MaxX(c: PlateQuadrilateral): real {
    Max(Max(c.topLeft.x, c.topRight.x), Max(c.bottomRight.x, c.bottomLeft.x))
  }

  function MinY(c: PlateQuadrilateral): real {
    Min(Min(c.topLeft.y, c.topRight.y), Min(c.bottomRight.y, c.bottomLeft.y))
  }

  function MaxY(c: PlateQuadrilateral): real {
    Max(Max(c.topLeft.y, c.topRight.y), Max(c.bottomRight.y, c.bottomLeft.y))
  }

  predicate OnCanvas(p: PlatePoint, width: nat, height: nat) {
    0.0 <= p.x < width as real && 0.0 <= p.y < height as real
  }

  predicate TurnsAtEveryCorner(c: PlateQuadrilateral) {
    && Turn(c.topLeft, c.topRight, c.bottomRight) > PLATE_GEOMETRY_EPSILON
    && Turn(c.topRight, c.bottomRight, c.bottomLeft) > PLATE_GEOMETRY_EPSILON
    && Turn(c.bottomRight, c.bottomLeft, c.topLeft) > PLATE_GEOMETRY_EPSILON
    && Turn(c.bottomLeft, c.topLeft, c.topRight) > PLATE_GEOMETRY_EPSILON
  }

  /** All corners on the canvas, a real turn at each, and a box neither too thin nor too large. */
  predicate ValidatePlateQuadrilateral(c: PlateQuadrilateral, width: nat, height: nat) {
    && OnCanvas(c.topLeft, width, height) && OnCanvas(c.topRight, width, height)
    && OnCanvas(c.bottomRight, width, height) && OnCanvas(c.bottomLeft, width, height)
    && TurnsAtEveryCorner(c)
    && var boxWidth, boxHeight := MaxX(c) - MinX(c), MaxY(c) - MinY(c);
      boxWidth >= 2.0 && boxHeight >= 2.0 && Ceil(boxWidth + 1.0) * Ceil(boxHeight + 1.0) <= PLATE_MAXIMUM_RENDER_PIXELS
  }

  /** On or to the left of all four edges, which run clockwise on screen. */
  ghost predicate Inside(c: PlateQuadrilateral, p: PlatePoint) {
    && Turn(c.topLeft, c.topRight, p) >= 0.0
    && Turn(c.topRight, c.bottomRight, p) >= 0.0
    && Turn(c.bottomRight, c.bottomLeft, p) >= 0.0
    && Turn(c.bottomLeft, c.topLeft, p) >= 0.0
  }

  // ----- barycentric coordinates -----

  function Affine(a: real, b: real, c: real, p: PlatePoint): real {
    a * p.x + b * p.y + c
  }

  lemma TurnCycles(a: PlatePoint, b: PlatePoint, c: PlatePoint)
    ensures Turn(a, b, c) == Turn(b, c, a) == Turn(c, a, b)
    ensures Turn(b, a, c) == -Turn(a, b, c)
  {
  }

  lemma AreasAddUp(a: PlatePoint, b: PlatePoint, c: PlatePoint, p: PlatePoint)
    ensures Turn(a, b, c) == Turn(b, c, p) + Turn(c, a, p) + Turn(a, b, p)
  {
  }

  lemma BarycentricX(a: PlatePoint, b: PlatePoint, c: PlatePoint, p: PlatePoint)
    ensures Turn(a, b, c) * p.x == Turn(b, c, p) * a.x + Turn(c, a, p) * b.x + Turn(a, b, p) * c.x
  {
  }

  lemma BarycentricY(a: PlatePoint, b: PlatePoint, c: PlatePoint, p: PlatePoint)
    ensures Turn(a, b, c) * p.y == Turn(b, c, p) * a.y + Turn(c, a, p) * b.y + Turn(a, b, p) * c.y
  {
  }

  lemma Combine(k: real, l: real, m: real, p: PlatePoint, n: real, a: PlatePoint, s: real, b: PlatePoint, t: real, c: PlatePoint, u: real)
    requires n == s + t + u
    requires n * p.x == s * a.x + t * b.x + u * c.x
    requires n * p.y == s * a.y + t * b.y + u * c.y
    ensures n * Affine(k, l, m, p) == s * Affine(k, l, m, a) + t * Affine(k, l, m, b) + u * Affine(k, l, m, c)
  {
    assert n * Affine(k, l, m, p) == k * (n * p.x) + l * (n * p.y) + m * n;
    assert k * (s * a.x + t * b.x + u * c.x) == s * (k * a.x) + t * (k * b.x) + u * (k * c.x);
    assert l * (s * a.y + t * b.y + u * c.y) == s * (l * a.y) + t * (l * b.y) + u * (l * c.y);
  }

  /** An affine function at `p` is the area-weighted mean of its values at the corners of any triangle. */
  lemma Barycentric(k: real, l: real, m: real, a: PlatePoint, b: PlatePoint, c: PlatePoint, p: PlatePoint)
    ensures Turn(a, b, c) * Affine(k, l, m, p) ==
            Turn(b, c, p) * Affine(k, l, m, a) + Turn(c, a, p) * Affine(k, l, m, b) + Turn(a, b, p) * Affine(k, l, m, c)
  {
    AreasAddUp(a, b, c, p);
    BarycentricX(a, b, c, p);
    BarycentricY(a, b, c, p);
    hide Turn;
    Combine(k, l, m, p, Turn(a, b, c), a, Turn(b, c, p), b, Turn(c, a, p), c, Turn(a, b, p));
  }

  // ----- how the homography weighs the four edges -----

  lemma HomogeneousAt(h: Vector, a: PlatePoint, b: PlatePoint, c: PlatePoint, p: PlatePoint)
    ensures Turn(a, b, c) * Denominator(h, p) ==
            Turn(b, c, p) * Denominator(h, a) + Turn(c, a, p) * Denominator(h, b) + Turn(a, b, p) * Denominator(h, c)
    ensures Turn(a, b, c) * NumeratorU(h, p) ==
            Turn(b, c, p) * NumeratorU(h, a) + Turn(c, a, p) * NumeratorU(h, b) + Turn(a, b, p) * NumeratorU(h, c)
    ensures Turn(a, b, c) * NumeratorV(h, p) ==
            Turn(b, c, p) * NumeratorV(h, a) + Turn(c, a, p) * NumeratorV(h, b) + Turn(a, b, p) * NumeratorV(h, c)
  {
    Barycentric(h[6], h[7], 1.0, a, b, c, p);
    Barycentric(h[0], h[1], h[2], a, b, c, p);
    Barycentric(h[3], h[4], h[5], a, b, c, p);
    hide Turn;
  }

  /** Each edge's area at `p`, weighted by a corner's denominator, is that edge's share of the unit square. */
  ghost predicate EdgeShares(h: Vector, q: PlateQuadrilateral, p: PlatePoint) {
    var a, b, c, d := q.topLeft, q.topRight, q.bottomRight, q.bottomLeft;
    && Turn(a, b, c) * NumeratorV(h, p) == Turn(a, b, p) * Denominator(h, c)
    && Turn(a, b, c) * (Denominator(h, p) - NumeratorU(h, p)) == Turn(b, c, p) * Denominator(h, a)
    && Turn(c, d, a) * NumeratorU(h, p) == Turn(d, a, p) * Denominator(h, c)
    && Turn(c, d, a) * (Denominator(h, p) - NumeratorV(h, p)) == Turn(c, d, p) * Denominator(h, a)
  }

  lemma SentCornersShareEdges(h: Vector, q: PlateQuadrilateral, p: PlatePoint)
    requires SendsCorners(h, q)
    ensures EdgeShares(h, q, p)
  {
    var a, b, c, d := q.topLeft, q.topRight, q.bottomRight, q.bottomLeft;
    HomogeneousAt(h, a, b, c, p);
    HomogeneousAt(h, c, d, a, p);
    hide Turn, NumeratorU, NumeratorV, Denominator;
    var x, y := Turn(a, b, c), Turn(c, d, a);
    assert x * (Denominator(h, p) - NumeratorU(h, p)) == x * Denominator(h, p) - x * NumeratorU(h, p);
    assert y * (Denominator(h, p) - NumeratorV(h, p)) == y * Denominator(h, p) - y * NumeratorV(h, p);
  }

  /** The denominators at two opposite corners have the same sign, or the third of a triangle's vanishes with them. */
  lemma OppositeCornersAgree(h: Vector, q: PlateQuadrilateral)
    requires SendsCorners(h, q)
    ensures var a, b, c, d := q.topLeft, q.topRight, q.bottomRight, q.bottomLeft;
            && Turn(a, b, c) * Denominator(h, d) == Turn(d, a, b) * Denominator(h, c)
            && Turn(a, b, c) * Denominator(h, d) == Turn(b, c, d) * Denominator(h, a)
  {
    SentCornersShareEdges(h, q, q.bottomLeft);
    TurnCycles(q.topLeft, q.topRight, q.bottomLeft);
    hide Turn, NumeratorU, NumeratorV, Denominator;
  }

  lemma SameSign(k: real, x: real, l: real, y: real)
    requires k > 0.0 && l > 0.0 && k * x == l * y
    ensures x > 0.0 <==> y > 0.0
    ensures x < 0.0 <==> y < 0.0
  {
  }

  lemma CornerSigns(h: Vector, q: PlateQuadrilateral, p: PlatePoint)
    requires TurnsAtEveryCorner(q) && SendsCorners(h, q) && Denominator(h, p) != 0.0
    ensures Denominator(h, q.topLeft) > 0.0 <==> Denominator(h, q.bottomRight) > 0.0
    ensures Denominator(h, q.topLeft) < 0.0 <==> Denominator(h, q.bottomRight) < 0.0
    ensures Denominator(h, q.topLeft) != 0.0
  {
    var a, b, c, d := q.topLeft, q.topRight, q.bottomRight, q.bottomLeft;
    OppositeCornersAgree(h, q);
    SentCornersShareEdges(h, q, p);
    hide Turn, NumeratorU, NumeratorV, Denominator, SendsCorners;
    var dp, u, v := Denominator(h, p), NumeratorU(h, p), NumeratorV(h, p);
    SameSign(Turn(d, a, b), Denominator(h, c), Turn(b, c, d), Denominator(h, a));
    if Denominator(h, a) == 0.0 {
      ZeroProduct(Turn(a, b, c), v);
      ZeroProduct(Turn(a, b, c), dp - u);
      ZeroProduct(Turn(c, d, a), u);
      assert false;
    }
  }

  lemma ZeroProduct(k: real, x: real)
    requires k > 0.0 && k * x == 0.0
    ensures x == 0.0
  {
  }

  /** From `k * s == t * w`: the sign of `t` is the sign of `s` times that of `w`. */
  lemma SignOfShare(k: real, s: real, t: real, w: real)
    requires k > 0.0 && w != 0.0 && k * s == t * w
    ensures s >= 0.0 && w > 0.0 ==> t >= 0.0
    ensures s <= 0.0 && w > 0.0 ==> t <= 0.0
    ensures s >= 0.0 && w < 0.0 ==> t <= 0.0
    ensures s <= 0.0 && w < 0.0 ==> t >= 0.0
  {
    var m := k * s;
    if s >= 0.0 { assert m >= 0.0; }
    if s <= 0.0 { assert m <= 0.0; }
    SignOfFactor(t, w);
  }

  lemma SignOfFactor(t: real, w: real)
    requires w != 0.0
    ensures w > 0.0 && t * w >= 0.0 ==> t >= 0.0
    ensures w > 0.0 && t * w <= 0.0 ==> t <= 0.0
    ensures w < 0.0 && t * w >= 0.0 ==> t <= 0.0
    ensures w < 0.0 && t * w <= 0.0 ==> t >= 0.0
  {
  }

  /** The unit-square test of the overlay. */
  predicate InUnitSquare(uv: PlatePoint) {
    0.0 <= uv.x <= 1.0 && 0.0 <= uv.y <= 1.0
  }

  lemma UnitScale(k: real, r: real, n: real)
    requires k > 0.0 && 0.0 <= r <= 1.0 && k * r == n
    ensures 0.0 <= n <= k
  {
    ProductSign(k, r);
    ProductSign(k, 1.0 - r);
    assert k * (1.0 - r) == k - k * r;
  }

  lemma RatioBounds(n: real, d: real)
    requires d != 0.0 && 0.0 <= n / d <= 1.0
    ensures d > 0.0 ==> 0.0 <= n <= d
    ensures d < 0.0 ==> d <= n <= 0.0
  {
    var r := n / d;
    assert r * d == n;
    Commute(r, d);
    if d > 0.0 { UnitScale(d, r, n); } else { UnitScale(-d, r, -n); }
  }

  lemma ScaleStrictly(k: real, low: real, high: real)
    requires k > 0.0 && low < high
    ensures k * low < k * high
  {
  }

  lemma Commute(r: real, d: real)
    ensures r * d == d * r && -d * r == -(d * r)
  {
  }

  lemma ScaleOrder(k: real, low: real, high: real)
    requires k >= 0.0 && low <= high
    ensures k * low <= k * high
  {
  }

  lemma FourEdgesSum(q: PlateQuadrilateral, p: PlatePoint)
    ensures Turn(q.topLeft, q.topRight, p) + Turn(q.topRight, q.bottomRight, p)
          + Turn(q.bottomRight, q.bottomLeft, p) + Turn(q.bottomLeft, q.topLeft, p)
          == Turn(q.topLeft, q.topRight, q.bottomRight) + Turn(q.bottomRight, q.bottomLeft, q.topLeft)
  {
  }

  /** A point whose projection lies in the unit square lies inside the plate: it cannot fail all four edges. */
  lemma ProjectedInsideIsInside(h: Vector, q: PlateQuadrilateral, p: PlatePoint)
    requires TurnsAtEveryCorner(q) && SendsCorners(h, q)
    requires Project(h, p).Some? && InUnitSquare(Project(h, p).value)
    ensures Inside(q, p)
  {
    var a, b, c, d := q.topLeft, q.topRight, q.bottomRight, q.bottomLeft;
    hide Turn, NumeratorU, NumeratorV, Denominator, SendsCorners, Project, InUnitSquare;
    ProjectionBounds(h, p);
    CornerSigns(h, q, p);
    SentCornersShareEdges(h, q, p);
    FourEdgesSum(q, p);
    SignsOfShares(Turn(a, b, c), Turn(c, d, a), Denominator(h, p), NumeratorU(h, p), NumeratorV(h, p), Denominator(h, a),
                  Denominator(h, c), Turn(a, b, p), Turn(b, c, p), Turn(c, d, p), Turn(d, a, p));
  }

  lemma ProjectionBounds(h: Vector, p: PlatePoint)
    requires Project(h, p).Some? && InUnitSquare(Project(h, p).value)
    ensures Denominator(h, p) != 0.0
    ensures Denominator(h, p) > 0.0 ==> 0.0 <= NumeratorU(h, p) <= Denominator(h, p) && 0.0 <= NumeratorV(h, p) <= Denominator(h, p)
    ensures Denominator(h, p) < 0.0 ==> Denominator(h, p) <= NumeratorU(h, p) <= 0.0 && Denominator(h, p) <= NumeratorV(h, p) <= 0.0
  {
    hide NumeratorU, NumeratorV, Denominator;
    RatioBounds(NumeratorU(h, p), Denominator(h, p));
    RatioBounds(NumeratorV(h, p), Denominator(h, p));
  }

  /** Four shares of one sign that add up to something positive are none of them negative. */
  lemma SignsOfShares(x: real, y: real, dp: real, u: real, v: real, da: real, dc: real, ab: real, bc: real, cd: real, ad: real)
    requires x > 0.0 && y > 0.0 && ab + bc + cd + ad == x + y
    requires (da > 0.0 && dc > 0.0) || (da < 0.0 && dc < 0.0)
    requires (dp > 0.0 && 0.0 <= u <= dp && 0.0 <= v <= dp) || (dp < 0.0 && dp <= u <= 0.0 && dp <= v <= 0.0)
    requires x * v == ab * dc && x * (dp - u) == bc * da && y * u == ad * dc && y * (dp - v) == cd * da
    ensures ab >= 0.0 && bc >= 0.0 && cd >= 0.0 && ad >= 0.0
  {
    SignOfShare(x, v, ab, dc);
    SignOfShare(x, dp - u, bc, da);
    SignOfShare(y, u, ad, dc);
    SignOfShare(y, dp - v, cd, da);
  }

  /** A point inside the plate that has a projection has it in the unit square. */
  lemma InsideIsProjectedInside(h: Vector, q: PlateQuadrilateral, p: PlatePoint)
    requires TurnsAtEveryCorner(q) && SendsCorners(h, q) && Inside(q, p) && Project(h, p).Some?
    ensures InUnitSquare(Project(h, p).value)
  {
    var a, b, c, d := q.topLeft, q.topRight, q.bottomRight, q.bottomLeft;
    hide Turn, NumeratorU, NumeratorV, Denominator, SendsCorners, InUnitSquare;
    var dp, u, v := Denominator(h, p), NumeratorU(h, p), NumeratorV(h, p);
    CornerSigns(h, q, p);
    SentCornersShareEdges(h, q, p);
    var x, y := Turn(a, b, c), Turn(c, d, a);
    SignOfPart(x, v, Turn(a, b, p), Denominator(h, c));
    SignOfPart(x, dp - u, Turn(b, c, p), Denominator(h, a));
    SignOfPart(y, u, Turn(d, a, p), Denominator(h, c));
    SignOfPart(y, dp - v, Turn(c, d, p), Denominator(h, a));
    RatioWithin(u, dp);
    RatioWithin(v, dp);
    RatiosAreInSquare(u / dp, v / dp);
  }

  lemma RatiosAreInSquare(u: real, v: real)
    requires 0.0 <= u <= 1.0 && 0.0 <= v <= 1.0
    ensures InUnitSquare(PlatePoint(u, v))
  {
  }

  /** From `k * s == t * w` with `k` positive: a share `t` that is not negative gives `s` the sign of `w`. */
  lemma SignOfPart(k: real, s: real, t: real, w: real)
    requires k > 0.0 && t >= 0.0 && k * s == t * w
    ensures w > 0.0 ==> s >= 0.0
    ensures w < 0.0 ==> s <= 0.0
  {
    if w > 0.0 { ProductSign(t, w); } else if w < 0.0 { ProductSign(t, -w); Commute(w, t); assert t * -w == -(t * w); }
    if s > 0.0 { ScaleStrictly(k, 0.0, s); } else if s < 0.0 { ScaleStrictly(k, s, 0.0); }
  }

  lemma RatioWithin(n: real, d: real)
    requires d != 0.0 && ((d > 0.0 && 0.0 <= n <= d) || (d < 0.0 && d <= n <= 0.0))
    ensures 0.0 <= n / d <= 1.0
  {
    var r := n / d;
    Commute(r, d);
    assert r * d == n;
    if r < 0.0 { if d > 0.0 { ScaleStrictly(d, r, 0.0); } else { ScaleStrictly(-d, r, 0.0); } }
    if r > 1.0 { if d > 0.0 { ScaleStrictly(d, 1.0, r); } else { ScaleStrictly(-d, 1.0, r); } }
  }

  /** The sides of the unit square are the edges of the plate. */
  lemma SidesAreEdges(h: Vector, q: PlateQuadrilateral, p: PlatePoint)
    requires TurnsAtEveryCorner(q) && SendsCorners(h, q) && Project(h, p).Some?
    ensures Project(h, p).value.x == 0.0 <==> Turn(q.bottomLeft, q.topLeft, p) == 0.0
    ensures Project(h, p).value.x == 1.0 <==> Turn(q.topRight, q.bottomRight, p) == 0.0
    ensures Project(h, p).value.y == 0.0 <==> Turn(q.topLeft, q.topRight, p) == 0.0
    ensures Project(h, p).value.y == 1.0 <==> Turn(q.bottomRight, q.bottomLeft, p) == 0.0
  {
    var a, b, c, d := q.topLeft, q.topRight, q.bottomRight, q.bottomLeft;
    hide Turn, NumeratorU, NumeratorV, Denominator, SendsCorners;
    var dp, u, v := Denominator(h, p), NumeratorU(h, p), NumeratorV(h, p);
    CornerSigns(h, q, p);
    SentCornersShareEdges(h, q, p);
    ZeroTogether(Turn(a, b, c), v, Turn(a, b, p), Denominator(h, c));
    ZeroTogether(Turn(a, b, c), dp - u, Turn(b, c, p), Denominator(h, a));
    ZeroTogether(Turn(c, d, a), u, Turn(d, a, p), Denominator(h, c));
    ZeroTogether(Turn(c, d, a), dp - v, Turn(c, d, p), Denominator(h, a));
    EndsOfRatio(u, dp);
    EndsOfRatio(v, dp);
  }

  lemma ZeroTogether(k: real, s: real, t: real, w: real)
    requires k != 0.0 && w != 0.0 && k * s == t * w
    ensures s == 0.0 <==> t == 0.0
  {
  }

  lemma EndsOfRatio(n: real, d: real)
    requires d != 0.0
    ensures n / d == 0.0 <==> n == 0.0
    ensures n / d == 1.0 <==> d - n == 0.0
  {
    assert n / d * d == n;
  }

  /** The box around the corners: it holds them all, and each of its sides touches one. */
  lemma BoxIsTight(c: PlateQuadrilateral)
    ensures forall p :: p in {c.topLeft, c.topRight, c.bottomRight, c.bottomLeft} ==> MinX(c) <= p.x <= MaxX(c) && MinY(c) <= p.y <= MaxY(c)
    ensures MinX(c) in {c.topLeft.x, c.topRight.x, c.bottomRight.x, c.bottomLeft.x}
    ensures MaxX(c) in {c.topLeft.x, c.topRight.x, c.bottomRight.x, c.bottomLeft.x}
    ensures MinY(c) in {c.topLeft.y, c.topRight.y, c.bottomRight.y, c.bottomLeft.y}
    ensures MaxY(c) in {c.topLeft.y, c.topRight.y, c.bottomRight.y, c.bottomLeft.y}
  {
  }

  /** What the guard demands of the corners and of the box around them. */
  lemma GuardMeans(c: PlateQuadrilateral, width: nat, height: nat)
    ensures ValidatePlateQuadrilateral(c, width, height) <==>
              && (forall p :: p in {c.topLeft, c.topRight, c.bottomRight, c.bottomLeft} ==>
                    0.0 <= p.x < width as real && 0.0 <= p.y < height as real)
              && TurnsBy(c.topLeft, c.topRight, c.bottomRight, 0.000001) && TurnsBy(c.topRight, c.bottomRight, c.bottomLeft, 0.000001)
              && TurnsBy(c.bottomRight, c.bottomLeft, c.topLeft, 0.000001) && TurnsBy(c.bottomLeft, c.topLeft, c.topRight, 0.000001)
              && MaxX(c) - MinX(c) >= 2.0 && MaxY(c) - MinY(c) >= 2.0
              && Ceil(MaxX(c) - MinX(c) + 1.0) * Ceil(MaxY(c) - MinY(c) + 1.0) <= 1_000_000
  {
    hide Ceil, MaxX, MinX, MaxY, MinY;
    TurnMeans(c.topLeft, c.topRight, c.bottomRight);
    TurnMeans(c.topRight, c.bottomRight, c.bottomLeft);
    TurnMeans(c.bottomRight, c.bottomLeft, c.topLeft);
    TurnMeans(c.bottomLeft, c.topLeft, c.topRight);
    hide Turn, TurnsBy;
  }

  lemma TurnMeans(a: PlatePoint, b: PlatePoint, c: PlatePoint)
    ensures Turn(a, b, c) > PLATE_GEOMETRY_EPSILON <==> TurnsBy(a, b, c, 0.000001)
  {
  }

  /** Going from `a` over `b` to `c` turns clockwise on screen, by a triangle of more than half of `least`. */
  ghost predicate TurnsBy(a: PlatePoint, b: PlatePoint, c: PlatePoint, least: real) {
    (b.x - a.x) * (c.y - b.y) - (b.y - a.y) * (c.x - b.x) > least
  }

  // ----- an inner point lies between the extreme corners -----

  lemma MeanIsBetween(n: real, x: real, s: real, ax: real, t: real, bx: real, u: real, cx: real, low: real, high: real)
    requires n > 0.0 && s >= 0.0 && t >= 0.0 && u >= 0.0 && n == s + t + u
    requires n * x == s * ax + t * bx + u * cx
    requires low <= ax <= high && low <= bx <= high && low <= cx <= high
    ensures low <= x <= high
  {
    MeanIsAtMost(n, x, s, ax, t, bx, u, cx, high);
    MeanIsAtMost(n, -x, s, -ax, t, -bx, u, -cx, -low);
  }

  lemma MeanIsAtMost(n: real, x: real, s: real, ax: real, t: real, bx: real, u: real, cx: real, high: real)
    requires n > 0.0 && s >= 0.0 && t >= 0.0 && u >= 0.0 && n == s + t + u
    requires n * x == s * ax + t * bx + u * cx
    requires ax <= high && bx <= high && cx <= high
    ensures x <= high
  {
    ScaleOrder(s, ax, high);
    ScaleOrder(t, bx, high);
    ScaleOrder(u, cx, high);
    SumTimes(n, s, t, u, high);
    OrderOfScaled(n, x, high, n * x, n * high);
  }

  lemma SumTimes(n: real, s: real, t: real, u: real, k: real)
    requires n == s + t + u
    ensures n * k == s * k + t * k + u * k
  {
  }

  lemma OrderOfScaled(n: real, x: real, y: real, nx: real, ny: real)
    requires n > 0.0 && nx == n * x && ny == n * y && nx <= ny
    ensures x <= y
  {
    if x > y { ScaleStrictly(n, y, x); }
  }

  lemma TriangleBounds(a: PlatePoint, b: PlatePoint, c: PlatePoint, p: PlatePoint, lowX: real, highX: real, lowY: real, highY: real)
    requires Turn(a, b, c) > 0.0 && Turn(a, b, p) >= 0.0 && Turn(b, c, p) >= 0.0 && Turn(c, a, p) >= 0.0
    requires lowX <= a.x <= highX && lowX <= b.x <= highX && lowX <= c.x <= highX
    requires lowY <= a.y <= highY && lowY <= b.y <= highY && lowY <= c.y <= highY
    ensures lowX <= p.x <= highX && lowY <= p.y <= highY
  {
    AreasAddUp(a, b, c, p);
    BarycentricX(a, b, c, p);
    BarycentricY(a, b, c, p);
    hide Turn;
    MeanIsBetween(Turn(a, b, c), p.x, Turn(b, c, p), a.x, Turn(c, a, p), b.x, Turn(a, b, p), c.x, lowX, highX);
    MeanIsBetween(Turn(a, b, c), p.y, Turn(b, c, p), a.y, Turn(c, a, p), b.y, Turn(a, b, p), c.y, lowY, highY);
  }

  lemma InsideIsWithinBox(q: PlateQuadrilateral, p: PlatePoint)
    requires TurnsAtEveryCorner(q) && Inside(q, p)
    ensures MinX(q) <= p.x <= MaxX(q) && MinY(q) <= p.y <= MaxY(q)
  {
    TurnCycles(q.bottomRight, q.topLeft, p);
    hide Turn;
    if Turn(q.bottomRight, q.topLeft, p) >= 0.0 {
      TriangleBounds(q.topLeft, q.topRight, q.bottomRight, p, MinX(q), MaxX(q), MinY(q), MaxY(q));
    } else {
      TriangleBounds(q.bottomRight, q.bottomLeft, q.topLeft, p, MinX(q), MaxX(q), MinY(q), MaxY(q));
    }
  }
}
