/** Integer points of the plane, the turn test, and the one identity that orders directions. */
module PlanePoints {

  datatype Point = Point(x: int, y: int)

  function Sub(p: Point, q: Point): Point {
    Point(p.x - q.x, p.y - q.y)
  }

  function Det(u: Point, v: Point): int {
    u.x * v.y - u.y * v.x
  }

  /** Twice the signed area of the triangle `a b c`; positive when the path turns left. */
  function Cross(a: Point, b: Point, c: Point): int {
    (b.x - a.x) * (c.y - a.y) - (b.y - a.y) * (c.x - a.x)
  }

  /** The nonzero vector `u` points ahead: rightwards, or straight up; mirrored when not `rising`. */
  predicate Ahead(rising: bool, u: Point) {
    if rising then u.x > 0 || (u.x == 0 && u.y > 0)
    else u.x < 0 || (u.x == 0 && u.y < 0)
  }

  predicate AheadOrZero(rising: bool, u: Point) {
    (u.x == 0 && u.y == 0) || Ahead(rising, u)
  }

  lemma CrossIsDet(a: Point, b: Point, c: Point)
    ensures Cross(a, b, c) == Det(Sub(b, a), Sub(c, a))
    ensures Cross(a, b, c) == Det(Sub(b, a), Sub(c, b))
  {
    DetPlus(Sub(b, a), Sub(c, b), Sub(b, a));
  }

  lemma CrossCycles(a: Point, b: Point, c: Point)
    ensures Cross(a, b, c) == Cross(b, c, a) == Cross(c, a, b)
    ensures Cross(b, a, c) == -Cross(a, b, c)
    ensures Cross(a, c, b) == -Cross(a, b, c)
  {
  }

  lemma DetPlus(u: Point, v: Point, w: Point)
    ensures Det(u, Point(v.x + w.x, v.y + w.y)) == Det(u, v) + Det(u, w)
    ensures Det(Point(v.x + w.x, v.y + w.y), u) == Det(v, u) + Det(w, u)
    ensures Det(u, u) == 0
    ensures Det(v, u) == -Det(u, v)
  {
  }

  /** The Plücker identity of four plane vectors. */
  lemma Pluecker(r: Point, u: Point, v: Point, w: Point)
    ensures Det(r, v) * Det(u, w) == Det(r, u) * Det(v, w) + Det(r, w) * Det(u, v)
  {
  }

  /** Turning left is transitive among directions of one open half plane `Det(r, _) > 0`. */
  lemma TurnTransitive(r: Point, u: Point, v: Point, w: Point)
    requires Det(r, u) >= 0 && Det(r, v) > 0 && Det(r, w) > 0
    requires Det(u, v) > 0 && Det(v, w) > 0
    ensures Det(u, w) > 0
  {
    Pluecker(r, u, v, w);
    var p, q, m := Det(r, u) * Det(v, w), Det(r, w) * Det(u, v), Det(r, v);
    Positive(Det(r, w), Det(u, v));
    NonNegative(Det(r, u), Det(v, w));
    assert m * Det(u, w) > 0;
    PositiveFactor(m, Det(u, w));
  }

  lemma Positive(a: int, b: int)
    requires a > 0 && b > 0
    ensures a * b > 0
  {
  }

  lemma NonNegative(a: int, b: int)
    requires a >= 0 && b >= 0
    ensures a * b >= 0
  {
  }

  lemma PositiveFactor(a: int, b: int)
    requires a > 0
    ensures a * b > 0 <==> b > 0
    ensures a * b >= 0 <==> b >= 0
    ensures a * b == 0 <==> b == 0
  {
    if b > 0 {
      Positive(a, b);
    } else if b < 0 {
      Positive(a, -b);
      assert a * b == -(a * -b);
    }
  }

  /** The sign of `m` in `v * m == a * p + b * q`, for a positive `v` and non-negative coefficients. */
  lemma SignOfCombination(v: int, m: int, a: int, p: int, b: int, q: int)
    requires v > 0 && a >= 0 && b >= 0 && p >= 0 && q >= 0
    requires v * m == a * p + b * q
    ensures m >= 0
    ensures (a > 0 && p > 0) || (b > 0 && q > 0) ==> m > 0
  {
    NonNegative(a, p);
    NonNegative(b, q);
    PositiveFactor(v, m);
    if a > 0 && p > 0 { Positive(a, p); }
    if b > 0 && q > 0 { Positive(b, q); }
  }

  /** `Pluecker` with the downward axis as the reference direction. */
  lemma PlueckerDown(u: Point, v: Point, w: Point)
    ensures v.x * Det(u, w) == u.x * Det(v, w) + w.x * Det(u, v)
  {
  }

  lemma PlueckerAcross(u: Point, v: Point, w: Point)
    ensures v.y * Det(u, w) == u.y * Det(v, w) + w.y * Det(u, v)
  {
  }

  /** Two directions parallel to a nonzero third are parallel. */
  lemma ParallelTransitive(u: Point, v: Point, w: Point)
    requires v.x != 0 || v.y != 0
    requires Det(u, v) == 0 && Det(v, w) == 0
    ensures Det(u, w) == 0
  {
    PlueckerDown(u, v, w);
    PlueckerAcross(u, v, w);
    hide Det;
    var m := Det(u, w);
    assert v.x * m == 0 && v.y * m == 0;
    ZeroFactor(v.x, m);
    ZeroFactor(v.y, m);
  }

  lemma ZeroFactor(a: int, b: int)
    requires a * b == 0
    ensures a == 0 || b == 0
  {
  }

  /** Against a direction that is not vertical, one straight ahead on the y axis lies strictly to the left. */
  lemma VerticalIsLeft(rising: bool, v: Point, u: Point)
    requires Ahead(rising, v) && v.x != 0
    requires Ahead(rising, u) && u.x == 0
    ensures Det(v, u) > 0 && Det(u, v) < 0
  {
    if rising { Positive(v.x, u.y); } else { Positive(-v.x, -u.y); }
    assert Det(v, u) == v.x * u.y;
    assert Det(u, v) == -(v.x * u.y);
  }

  lemma DetThroughVertical(u: Point, v: Point, w: Point)
    requires v.x == 0
    ensures Det(u, v) == v.y * u.x && Det(v, w) == v.y * -w.x
    ensures w.x == 0 ==> Det(u, w) == u.x * w.y
  {
  }

  /** The case of `AheadTransitive` whose middle direction is vertical. */
  lemma TransitiveThroughVertical(rising: bool, u: Point, v: Point, w: Point)
    requires AheadOrZero(rising, u) && Ahead(rising, v) && v.x == 0 && AheadOrZero(rising, w)
    requires Det(u, v) >= 0 && Det(v, w) >= 0
    ensures Det(u, w) >= 0
    ensures Ahead(rising, w) && (Det(u, v) > 0 || Det(v, w) > 0) ==> Det(u, w) > 0
  {
    DetThroughVertical(u, v, w);
    hide Det;
    var vy, ux, wx, wy := if rising then v.y else -v.y, if rising then u.x else -u.x,
                          if rising then w.x else -w.x, if rising then w.y else -w.y;
    SameProduct(v.y, u.x);
    SameProduct(v.y, -w.x);
    SameProduct(u.x, w.y);
    PositiveFactor(vy, ux);
    PositiveFactor(vy, -wx);
    NonNegative(ux, wy);
    if wy > 0 && ux > 0 { Positive(ux, wy); }
  }

  lemma SameProduct(a: int, b: int)
    ensures -a * -b == a * b
  {
  }

  /** Turning left is transitive among the directions that point ahead, strictly or not. */
  lemma AheadTransitive(rising: bool, u: Point, v: Point, w: Point)
    requires AheadOrZero(rising, u) && Ahead(rising, v) && AheadOrZero(rising, w)
    requires Det(u, v) >= 0 && Det(v, w) >= 0
    ensures Det(u, w) >= 0
    ensures Ahead(rising, u) && Ahead(rising, w) && (Det(u, v) > 0 || Det(v, w) > 0) ==> Det(u, w) > 0
  {
    hide Det;
    if v.x == 0 {
      TransitiveThroughVertical(rising, u, v, w);
    } else {
      PlueckerDown(u, v, w);
      var uw, vw, uv := Det(u, w), Det(v, w), Det(u, v);
      if rising {
        SignOfCombination(v.x, uw, u.x, vw, w.x, uv);
      } else {
        SignOfCombination(-v.x, uw, -u.x, vw, -w.x, uv);
      }
      if u.x == 0 && Ahead(rising, u) { VerticalIsLeft(rising, v, u); }
      if w.x == 0 && Ahead(rising, w) && u.x != 0 { VerticalIsLeft(rising, u, w); }
    }
  }
}
