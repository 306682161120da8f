/** Which plates have a projection at all: those whose horizon does not pass through the image's origin. */
module PlateHorizon {
  import opened PlateProjection
  import opened PlateQuadrilaterals

  const ORIGIN := PlatePoint(0.0, 0.0)
  const UNIT_X := PlatePoint(1.0, 0.0)
  const UNIT_Y := PlatePoint(0.0, 1.0)

  /**
   * The line on which the plate's plane vanishes, as an affine function of `p`, up to a factor. The projection's
   * denominator is the multiple of it that is one at the image's origin.
   */
  function Horizon(q: PlateQuadrilateral, p: PlatePoint): real {
    var a, b, c, d := q.topLeft, q.topRight, q.bottomRight, q.bottomLeft;
    Mixed(Times(Turn(a, b, c), Turn(b, c, d)), Times(Turn(d, a, b), Turn(b, c, d)), Times(Turn(a, b, c), Turn(d, a, b)),
          Turn(d, a, p), Turn(a, c, p), Turn(c, d, p))
  }

  function Times(x: real, y: real): real { x * y }

  function Mixed(u: real, v: real, w: real, da: real, ac: real, cd: real): real {
    u * da + v * ac + w * cd
  }

  // ----- a projection needs the origin off the horizon -----

  lemma DenominatorsMakeHorizon(abc: real, bcd: real, dab: real, cda: real, atA: real, atC: real, atD: real, da: real, ac: real, cd: real)
    requires abc * atD == dab * atC == bcd * atA && cda == da * atC + ac * atD + cd * atA
    requires Mixed(Times(abc, bcd), Times(dab, bcd), Times(abc, dab), da, ac, cd) == 0.0
    ensures abc * bcd * dab * cda == 0.0
  {
    var m := abc * atD;
    assert abc * bcd * dab * cda == abc * bcd * da * (dab * atC) + bcd * dab * ac * (abc * atD) + abc * dab * cd * (bcd * atA);
    assert abc * bcd * dab * cda == Mixed(Times(abc, bcd), Times(dab, bcd), Times(abc, dab), da, ac, cd) * m;
  }

  lemma ProductIsPositive(x: real, y: real)
    requires x > 0.0 && y > 0.0
    ensures x * y > 0.0
  {
  }

  /** A plate whose horizon passes through the image's origin has no projection. */
  lemma SentCornersMissHorizon(h: Vector, q: PlateQuadrilateral)
    requires TurnsAtEveryCorner(q) && SendsCorners(h, q)
    ensures Horizon(q, ORIGIN) != 0.0
  {
    var a, b, c, d := q.topLeft, q.topRight, q.bottomRight, q.bottomLeft;
    OppositeCornersAgree(h, q);
    HomogeneousAt(h, c, d, a, ORIGIN);
    TurnCycles(a, c, ORIGIN);
    assert Denominator(h, ORIGIN) == 1.0;
    hide Turn, NumeratorU, NumeratorV, Denominator, SendsCorners, Mixed, Times;
    if Horizon(q, ORIGIN) == 0.0 {
      DenominatorsMakeHorizon(Turn(a, b, c), Turn(b, c, d), Turn(d, a, b), Turn(c, d, a), Denominator(h, a), Denominator(h, c), Denominator(h, d),
                              Turn(d, a, ORIGIN), Turn(a, c, ORIGIN), Turn(c, d, ORIGIN));
      ProductIsPositive(Turn(a, b, c), Turn(b, c, d));
      ProductIsPositive(Turn(a, b, c) * Turn(b, c, d), Turn(d, a, b));
      ProductIsPositive(Turn(a, b, c) * Turn(b, c, d) * Turn(d, a, b), Turn(c, d, a));
    }
  }

  // ----- and then has one -----

  /** An affine function is determined by its values at three points. */
  lemma TurnByValues(a: PlatePoint, b: PlatePoint, p: PlatePoint)
    ensures Turn(a, b, p) ==
            (Turn(a, b, UNIT_X) - Turn(a, b, ORIGIN)) * p.x + (Turn(a, b, UNIT_Y) - Turn(a, b, ORIGIN)) * p.y + Turn(a, b, ORIGIN)
  {
  }

  lemma DegenerateTurns(a: PlatePoint, b: PlatePoint)
    ensures Turn(a, b, a) == 0.0 && Turn(a, b, b) == 0.0
  {
  }

  function Weighed(x: real, y: real, z: real, q: PlateQuadrilateral, p: PlatePoint): real {
    Mixed(x, y, z, Turn(q.bottomLeft, q.topLeft, p), Turn(q.topLeft, q.bottomRight, p), Turn(q.bottomRight, q.bottomLeft, p))
  }

  lemma MixedByValues(x: real, y: real, z: real, px: real, py: real, t: (real, real, real),
                      o: (real, real, real), i: (real, real, real), j: (real, real, real))
    requires t.0 == (i.0 - o.0) * px + (j.0 - o.0) * py + o.0
    requires t.1 == (i.1 - o.1) * px + (j.1 - o.1) * py + o.1
    requires t.2 == (i.2 - o.2) * px + (j.2 - o.2) * py + o.2
    ensures Mixed(x, y, z, t.0, t.1, t.2)
            == (Mixed(x, y, z, i.0, i.1, i.2) - Mixed(x, y, z, o.0, o.1, o.2)) * px
               + (Mixed(x, y, z, j.0, j.1, j.2) - Mixed(x, y, z, o.0, o.1, o.2)) * py + Mixed(x, y, z, o.0, o.1, o.2)
  {
  }

  function Turns(q: PlateQuadrilateral, p: PlatePoint): (real, real, real) {
    (Turn(q.bottomLeft, q.topLeft, p), Turn(q.topLeft, q.bottomRight, p), Turn(q.bottomRight, q.bottomLeft, p))
  }

  lemma WeighedByValues(x: real, y: real, z: real, q: PlateQuadrilateral, p: PlatePoint)
    ensures Weighed(x, y, z, q, p) ==
            (Weighed(x, y, z, q, UNIT_X) - Weighed(x, y, z, q, ORIGIN)) * p.x
            + (Weighed(x, y, z, q, UNIT_Y) - Weighed(x, y, z, q, ORIGIN)) * p.y + Weighed(x, y, z, q, ORIGIN)
  {
    hide Turn, Mixed;
    TurnByValues(q.bottomLeft, q.topLeft, p);
    TurnByValues(q.topLeft, q.bottomRight, p);
    TurnByValues(q.bottomRight, q.bottomLeft, p);
    MixedByValues(x, y, z, p.x, p.y, Turns(q, p), Turns(q, ORIGIN), Turns(q, UNIT_X), Turns(q, UNIT_Y));
  }

  /** The coefficients with numerators `x * Turn(d, a, _)` and `n * Turn(a, b, _)` over the weighed denominator. */
  function Coefficients(x: real, y: real, z: real, n: real, q: PlateQuadrilateral): Vector {
    var a, b, d := q.topLeft, q.topRight, q.bottomLeft;
    [ x * (Turn(d, a, UNIT_X) - Turn(d, a, ORIGIN)), x * (Turn(d, a, UNIT_Y) - Turn(d, a, ORIGIN)), x * Turn(d, a, ORIGIN),
      n * (Turn(a, b, UNIT_X) - Turn(a, b, ORIGIN)), n * (Turn(a, b, UNIT_Y) - Turn(a, b, ORIGIN)), n * Turn(a, b, ORIGIN),
      Weighed(x, y, z, q, UNIT_X) - Weighed(x, y, z, q, ORIGIN), Weighed(x, y, z, q, UNIT_Y) - Weighed(x, y, z, q, ORIGIN) ]
  }

  lemma ScaledTurn(k: real, a: PlatePoint, b: PlatePoint, p: PlatePoint)
    ensures k * (Turn(a, b, UNIT_X) - Turn(a, b, ORIGIN)) * p.x + k * (Turn(a, b, UNIT_Y) - Turn(a, b, ORIGIN)) * p.y + k * Turn(a, b, ORIGIN)
            == k * Turn(a, b, p)
  {
    TurnByValues(a, b, p);
    hide Turn;
  }

  lemma CoefficientsAt(x: real, y: real, z: real, n: real, q: PlateQuadrilateral, p: PlatePoint)
    requires Weighed(x, y, z, q, ORIGIN) == 1.0
    ensures var h := Coefficients(x, y, z, n, q);
            && NumeratorU(h, p) == x * Turn(q.bottomLeft, q.topLeft, p)
            && NumeratorV(h, p) == n * Turn(q.topLeft, q.topRight, p)
            && Denominator(h, p) == Weighed(x, y, z, q, p)
  {
    hide Turn, Weighed, NumeratorU, NumeratorV, Denominator, Coefficients;
    NumeratorUAt(x, y, z, n, q, p);
    NumeratorVAt(x, y, z, n, q, p);
    DenominatorAt(x, y, z, n, q, p);
  }

  lemma NumeratorUAt(x: real, y: real, z: real, n: real, q: PlateQuadrilateral, p: PlatePoint)
    ensures NumeratorU(Coefficients(x, y, z, n, q), p) == x * Turn(q.bottomLeft, q.topLeft, p)
  {
    hide Turn, Weighed;
    ScaledTurn(x, q.bottomLeft, q.topLeft, p);
  }

  lemma NumeratorVAt(x: real, y: real, z: real, n: real, q: PlateQuadrilateral, p: PlatePoint)
    ensures NumeratorV(Coefficients(x, y, z, n, q), p) == n * Turn(q.topLeft, q.topRight, p)
  {
    hide Turn, Weighed;
    ScaledTurn(n, q.topLeft, q.topRight, p);
  }

  lemma DenominatorAt(x: real, y: real, z: real, n: real, q: PlateQuadrilateral, p: PlatePoint)
    requires Weighed(x, y, z, q, ORIGIN) == 1.0
    ensures Denominator(Coefficients(x, y, z, n, q), p) == Weighed(x, y, z, q, p)
  {
    hide Turn, Weighed;
    WeighedByValues(x, y, z, q, p);
  }

  /** Weights in the proportions of the opposite corners' areas send every corner to its own. */
  lemma WeightsSendCorners(x: real, y: real, z: real, n: real, q: PlateQuadrilateral)
    requires Weighed(x, y, z, q, ORIGIN) == 1.0
    requires var a, b, c, d := q.topLeft, q.topRight, q.bottomRight, q.bottomLeft;
             && y * Turn(a, b, c) == z * Turn(b, c, d)
             && n * Turn(a, b, c) == x * Turn(c, d, a)
             && n * Turn(d, a, b) == y * Turn(c, d, a)
    ensures SendsCorners(Coefficients(x, y, z, n, q), q)
  {
    var a, b, c, d := q.topLeft, q.topRight, q.bottomRight, q.bottomLeft;
    CoefficientsAt(x, y, z, n, q, a);
    CoefficientsAt(x, y, z, n, q, b);
    CoefficientsAt(x, y, z, n, q, c);
    CoefficientsAt(x, y, z, n, q, d);
    DegenerateTurns(d, a);
    DegenerateTurns(a, b);
    DegenerateTurns(a, c);
    DegenerateTurns(c, d);
    TurnCycles(a, b, c);
    TurnCycles(b, c, d);
    TurnCycles(d, a, b);
    TurnCycles(c, d, a);
    TurnCycles(a, c, b);
    hide Turn, NumeratorU, NumeratorV, Denominator, Coefficients;
  }

  lemma WeightsInProportion(abc: real, bcd: real, dab: real, cda: real, r: real)
    ensures Times(r, Times(dab, bcd)) * abc == Times(r, Times(abc, dab)) * bcd
    ensures Times(r, Times(cda, bcd)) * abc == Times(r, Times(abc, bcd)) * cda
    ensures Times(r, Times(cda, bcd)) * dab == Times(r, Times(dab, bcd)) * cda
  {
  }

  lemma ScaledHorizon(r: real, u: real, v: real, w: real, da: real, ac: real, cd: real)
    ensures Mixed(Times(r, u), Times(r, v), Times(r, w), da, ac, cd) == r * Mixed(u, v, w, da, ac, cd)
  {
  }

  /** Off the horizon, the corner equations have a solution. */
  lemma OffHorizonHasProjection(q: PlateQuadrilateral) returns (h: Vector)
    requires Horizon(q, ORIGIN) != 0.0
    ensures SendsCorners(h, q)
  {
    var a, b, c, d := q.topLeft, q.topRight, q.bottomRight, q.bottomLeft;
    hide Turn, Mixed, Times, Coefficients, SendsCorners;
    var r := Inverse(Horizon(q, ORIGIN));
    var abc, bcd, dab, cda := Turn(a, b, c), Turn(b, c, d), Turn(d, a, b), Turn(c, d, a);
    var x, y, z, n := Times(r, Times(abc, bcd)), Times(r, Times(dab, bcd)), Times(r, Times(abc, dab)), Times(r, Times(cda, bcd));
    WeightsInProportion(abc, bcd, dab, cda, r);
    ScaledHorizon(r, Times(abc, bcd), Times(dab, bcd), Times(abc, dab), Turn(d, a, ORIGIN), Turn(a, c, ORIGIN), Turn(c, d, ORIGIN));
    h := Coefficients(x, y, z, n, q);
    WeightsSendCorners(x, y, z, n, q);
  }

  lemma Inverse(x: real) returns (r: real)
    requires x != 0.0
    ensures r * x == 1.0
  {
    r := 1.0 / x;
  }

  /** A plate that turns at every corner has a projection exactly when its horizon misses the image's origin. */
  lemma ProjectionExistsOffHorizon(q: PlateQuadrilateral)
    requires TurnsAtEveryCorner(q)
    ensures (exists h: Vector :: SendsCorners(h, q)) <==> Horizon(q, ORIGIN) != 0.0
  {
    hide Horizon, SendsCorners;
    if h: Vector :| SendsCorners(h, q) { SentCornersMissHorizon(h, q); }
    if Horizon(q, ORIGIN) != 0.0 { var h := OffHorizonHasProjection(q); }
  }
}
