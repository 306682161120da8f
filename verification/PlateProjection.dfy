/** The inverse homography of a plate: image pixels to unit-square artwork coordinates, over exact reals. */
module PlateProjection {
  import opened Options

  datatype PlatePoint = PlatePoint(x: real, y: real)

  datatype PlateQuadrilateral = PlateQuadrilateral(
    topLeft: PlatePoint, topRight: PlatePoint, bottomRight: PlatePoint, bottomLeft: PlatePoint)

  const PLATE_GEOMETRY_EPSILON: real := 0.000001

  function Abs(r: real): (a: real)
    ensures a >= 0.0
  {
    if r < 0.0 then -r else r
  }

  // ----- linear equations in eight unknowns: eight coefficients and a right-hand side -----

  type Row = row: seq<real> | |row| == 9 witness seq(9, _ => 0.0)

  type Vector = x: seq<real> | |x| == 8 witness seq(8, _ => 0.0)

  ghost function DotUpTo(row: Row, x: Vector, n: nat): real
    requires n <= 8
  {
    if n == 0 then 0.0 else DotUpTo(row, x, n - 1) + row[n - 1] * x[n - 1]
  }

  ghost predicate Holds(row: Row, x: Vector) {
    DotUpTo(row, x, 8) == row[8]
  }

  ghost predicate Solves(rows: seq<Row>, x: Vector) {
    forall r :: 0 <= r < |rows| ==> Holds(rows[r], x)
  }

  ghost predicate SameSolutions(a: seq<Row>, b: seq<Row>) {
    forall x: Vector :: Solves(a, x) <==> Solves(b, x)
  }

  // ----- the three row operations keep the solution set -----

  lemma {:induction false} ScaledDot(row: Row, scaled: Row, divisor: real, x: Vector, n: nat)
    requires n <= 8 && forall c :: 0 <= c < n ==> scaled[c] * divisor == row[c]
    ensures DotUpTo(scaled, x, n) * divisor == DotUpTo(row, x, n)
  {
    if n > 0 {
      ScaledDot(row, scaled, divisor, x, n - 1);
      var s, t, v := DotUpTo(scaled, x, n - 1), scaled[n - 1], x[n - 1];
      ScaledTerm(s, t, v, divisor);
    }
  }

  lemma ScaledTerm(s: real, t: real, v: real, divisor: real)
    ensures (s + t * v) * divisor == s * divisor + (t * divisor) * v
  {
  }

  lemma {:induction false} SubtractedDot(target: Row, pivot: Row, r: Row, factor: real, x: Vector, n: nat)
    requires n <= 8 && forall c :: 0 <= c < n ==> r[c] == target[c] - factor * pivot[c]
    ensures DotUpTo(r, x, n) == DotUpTo(target, x, n) - factor * DotUpTo(pivot, x, n)
  {
    if n > 0 {
      SubtractedDot(target, pivot, r, factor, x, n - 1);
      SubtractedTerm(target[n - 1], pivot[n - 1], DotUpTo(pivot, x, n - 1), factor, x[n - 1]);
    }
  }

  lemma SubtractedTerm(t: real, p: real, sum: real, factor: real, v: real)
    ensures (t - factor * p) * v - factor * sum == t * v - factor * (sum + p * v)
  {
  }

  lemma NonzeroFactor(a: real, b: real, d: real)
    requires d != 0.0
    ensures a * d == b * d <==> a == b
  {
  }

  lemma ScaleKeepsSolutions(rows: seq<Row>, r: nat, scaled: Row, divisor: real)
    requires r < |rows| && divisor != 0.0
    requires forall c :: 0 <= c < 9 ==> scaled[c] * divisor == rows[r][c]
    ensures SameSolutions(rows, rows[r := scaled])
  {
    forall x: Vector ensures Solves(rows, x) <==> Solves(rows[r := scaled], x) {
      ScaledDot(rows[r], scaled, divisor, x, 8);
      NonzeroFactor(DotUpTo(scaled, x, 8), scaled[8], divisor);
      OneRowDecides(rows, r, scaled, x);
    }
  }

  lemma OneRowDecides(rows: seq<Row>, r: nat, other: Row, x: Vector)
    requires r < |rows|
    ensures Holds(rows[r], x) && Holds(other, x) ==> (Solves(rows, x) <==> Solves(rows[r := other], x))
    ensures !Holds(rows[r], x) ==> !Solves(rows, x)
    ensures !Holds(other, x) ==> !Solves(rows[r := other], x)
  {
    var after := rows[r := other];
    hide Holds;
    if Holds(rows[r], x) && Holds(other, x) {
      assert forall k :: 0 <= k < |rows| && k != r ==> after[k] == rows[k];
    }
    assert after[r] == other;
  }

  lemma SubtractKeepsSolutions(rows: seq<Row>, r: nat, p: nat, changed: Row, factor: real)
    requires r < |rows| && p < |rows| && r != p
    requires forall c :: 0 <= c < 9 ==> changed[c] == rows[r][c] - factor * rows[p][c]
    ensures SameSolutions(rows, rows[r := changed])
  {
    hide Solves, Holds;
    forall x: Vector ensures Solves(rows, x) <==> Solves(rows[r := changed], x) {
      SubtractedRowHolds(rows[r], rows[p], changed, factor, x);
      OneRowDecides(rows, r, changed, x);
      SolvesHas(rows, p, x);
      SolvesHas(rows[r := changed], p, x);
    }
  }

  lemma SolvesHas(rows: seq<Row>, p: nat, x: Vector)
    requires p < |rows|
    ensures Solves(rows, x) ==> Holds(rows[p], x)
  {
  }

  lemma SubtractedRowHolds(row: Row, pivot: Row, changed: Row, factor: real, x: Vector)
    requires forall c :: 0 <= c < 9 ==> changed[c] == row[c] - factor * pivot[c]
    ensures Holds(pivot, x) ==> (Holds(row, x) <==> Holds(changed, x))
  {
    SubtractedDot(row, pivot, changed, factor, x, 8);
    hide DotUpTo;
  }

  lemma SwapKeepsSolutions(rows: seq<Row>, i: nat, j: nat)
    requires i < |rows| && j < |rows|
    ensures SameSolutions(rows, rows[i := rows[j]][j := rows[i]])
  {
    hide Holds;
    var after := rows[i := rows[j]][j := rows[i]];
    forall x: Vector ensures Solves(rows, x) <==> Solves(after, x) {
      if Solves(after, x) {
        forall k | 0 <= k < |rows| ensures Holds(rows[k], x) {
          assert rows[k] == after[if k == i then j else if k == j then i else k];
        }
      }
    }
  }

  // ----- Gauss-Jordan elimination -----

  /** The first `columns` columns are those of the identity matrix. */
  ghost predicate Reduced(rows: seq<Row>, columns: nat) {
    forall r, c :: 0 <= r < |rows| && 0 <= c < columns <= 8 ==> rows[r][c] == if r == c then 1.0 else 0.0
  }

  function Divided(row: Row, column: nat, divisor: real): (scaled: Row)
    requires divisor != 0.0
    ensures forall c :: 0 <= c < 9 ==> scaled[c] == if c < column then row[c] else row[c] / divisor
  {
    seq(9, c requires 0 <= c < 9 => if c < column then row[c] else row[c] / divisor)
  }

  function Subtracted(row: Row, column: nat, factor: real, pivot: Row): (r: Row)
    ensures forall c :: 0 <= c < 9 ==> r[c] == if c < column then row[c] else row[c] - factor * pivot[c]
  {
    seq(9, c requires 0 <= c < 9 => if c < column then row[c] else row[c] - factor * pivot[c])
  }

  method DivideFrom(row: Row, column: nat, divisor: real) returns (scaled: Row)
    requires column < 8 && divisor != 0.0
    ensures scaled == Divided(row, column, divisor)
  {
    scaled := row;
    for index := column to 9
      invariant |scaled| == 9
      invariant forall c :: 0 <= c < 9 ==> scaled[c] == if column <= c < index then row[c] / divisor else row[c]
    {
      scaled := scaled[index := scaled[index] / divisor];
    }
  }

  method SubtractFrom(row: Row, column: nat, factor: real, pivot: Row) returns (r: Row)
    requires column < 8
    ensures r == Subtracted(row, column, factor, pivot)
  {
    r := row;
    for index := column to 9
      invariant |r| == 9
      invariant forall c :: 0 <= c < 9 ==> r[c] == if column <= c < index then row[c] - factor * pivot[c] else row[c]
    {
      r := r[index := r[index] - factor * pivot[index]];
    }
  }

  lemma DividedBack(row: Row, scaled: Row, column: nat, divisor: real)
    requires column < 8 && divisor != 0.0 && row[column] == divisor
    requires forall c :: 0 <= c < column ==> row[c] == 0.0
    requires forall c :: 0 <= c < 9 ==> scaled[c] == if c < column then row[c] else row[c] / divisor
    ensures forall c :: 0 <= c < 9 ==> scaled[c] * divisor == row[c]
    ensures scaled[column] == 1.0
  {
  }

  /** The first row, from `column` on, whose entry in that column is largest in magnitude among the first `n`. */
  function PivotAmong(rows: seq<Row>, column: nat, n: nat): (pivot: nat)
    requires column < n <= |rows| && column < 8
    ensures column <= pivot < n
    ensures forall r :: column <= r < n ==> Abs(rows[r][column]) <= Abs(rows[pivot][column])
    decreases n
  {
    if n == column + 1 then column
    else
      var p := PivotAmong(rows, column, n - 1);
      if Abs(rows[n - 1][column]) > Abs(rows[p][column]) then n - 1 else p
  }

  method FindPivot(rows: array<Row>, column: nat) returns (pivot: nat)
    requires rows.Length == 8 && column < 8
    ensures pivot == PivotAmong(rows[..], column, 8)
  {
    pivot := column;
    for row := column + 1 to 8
      invariant pivot == PivotAmong(rows[..], column, row)
    {
      if Abs(rows[row][column]) > Abs(rows[pivot][column]) { pivot := row; }
    }
  }

  /** One step: swap the pivot row up, divide it by its pivot, clear the column elsewhere. */
  function EliminationStep(rows: seq<Row>, column: nat, pivot: nat): (after: seq<Row>)
    requires |rows| == 8 && column <= pivot < 8 && rows[pivot][column] != 0.0
    ensures |after| == 8
  {
    var swapped := rows[column := rows[pivot]][pivot := rows[column]];
    var scaled := Divided(swapped[column], column, rows[pivot][column]);
    seq(8, r requires 0 <= r < 8 => if r == column then scaled else Subtracted(swapped[r], column, swapped[r][column], scaled))
  }

  /** The rows after the first `columns` steps; nothing once a pivot was too small. */
  function Eliminated(rows: seq<Row>, columns: nat): (after: Option<seq<Row>>)
    requires |rows| == 8 && columns <= 8
    ensures after.Some? ==> |after.value| == 8
    decreases columns
  {
    if columns == 0 then Some(rows)
    else match Eliminated(rows, columns - 1)
      case None => None
      case Some(now) =>
        var pivot := PivotAmong(now, columns - 1, 8);
        if Abs(now[pivot][columns - 1]) < PLATE_GEOMETRY_EPSILON then None else Some(EliminationStep(now, columns - 1, pivot))
  }

  /** Once a step fails there is no later one. */
  lemma {:induction false} FailureStays(rows: seq<Row>, columns: nat, later: nat)
    requires |rows| == 8 && columns <= later <= 8 && Eliminated(rows, columns) == None
    ensures Eliminated(rows, later) == None
    decreases later
  {
    if columns < later { FailureStays(rows, columns, later - 1); }
  }

  lemma SameSolutionsTrans(a: seq<Row>, b: seq<Row>, c: seq<Row>)
    requires SameSolutions(a, b) && SameSolutions(b, c)
    ensures SameSolutions(a, c)
  {
    hide Solves;
  }

  /** Clears column `column` in every row but the pivot's. */
  method ClearColumn(rows: array<Row>, column: nat)
    requires rows.Length == 8 && column < 8
    requires Reduced(rows[..], column) && rows[column][column] == 1.0
    modifies rows
    ensures SameSolutions(old(rows[..]), rows[..])
    ensures Reduced(rows[..], column + 1)
    ensures forall r :: 0 <= r < 8 ==>
              rows[r] == if r == column then old(rows[r]) else Subtracted(old(rows[r]), column, old(rows[r][column]), old(rows[column]))
  {
    hide Solves, Subtracted;
    ghost var before := rows[..];
    for row := 0 to 8
      invariant SameSolutions(before, rows[..])
      invariant Reduced(rows[..], column) && rows[column][column] == 1.0
      invariant forall r :: 0 <= r < row && r != column ==> rows[r][column] == 0.0
      invariant forall r :: 0 <= r < 8 ==>
        rows[r] == if r == column || r >= row then before[r] else Subtracted(before[r], column, before[r][column], before[column])
    {
      if row == column { continue; }
      var factor := rows[row][column];
      ghost var now := rows[..];
      var changed := SubtractFrom(rows[row], column, factor, rows[column]);
      SubtractKeepsSolutions(now, row, column, changed, factor);
      rows[row] := changed;
      assert rows[..] == now[row := changed];
      SameSolutionsTrans(before, now, rows[..]);
    }
  }

  /** Swaps the pivot row up, divides it and clears the column. */
  method Pivot(rows: array<Row>, column: nat, pivot: nat)
    requires rows.Length == 8 && column <= pivot < 8 && rows[pivot][column] != 0.0 && Reduced(rows[..], column)
    modifies rows
    ensures SameSolutions(old(rows[..]), rows[..]) && Reduced(rows[..], column + 1)
    ensures rows[..] == EliminationStep(old(rows[..]), column, pivot)
  {
    hide Solves, Divided, Subtracted;
    ghost var now := rows[..];
    var divisor := rows[pivot][column];
    SwapKeepsSolutions(now, column, pivot);
    rows[column], rows[pivot] := rows[pivot], rows[column];
    ghost var swapped := rows[..];
    assert swapped == now[column := now[pivot]][pivot := now[column]];
    assert Reduced(swapped, column);
    var scaled := DivideFrom(rows[column], column, divisor);
    DividedBack(rows[column], scaled, column, divisor);
    ScaleKeepsSolutions(swapped, column, scaled, divisor);
    rows[column] := scaled;
    ghost var divided := rows[..];
    assert divided == swapped[column := scaled];
    SameSolutionsTrans(now, swapped, divided);
    ClearColumn(rows, column);
    SameSolutionsTrans(now, divided, rows[..]);
    assert rows[..] == EliminationStep(now, column, pivot);
  }

  lemma NextStep(rows: seq<Row>, now: seq<Row>, column: nat)
    requires |rows| == |now| == 8 && column < 8 && Eliminated(rows, column) == Some(now)
    ensures var pivot := PivotAmong(now, column, 8);
            Eliminated(rows, column + 1) ==
              if Abs(now[pivot][column]) < PLATE_GEOMETRY_EPSILON then None else Some(EliminationStep(now, column, pivot))
  {
  }

  /** A column stops the elimination exactly when it has no entry of usable size from its own row on. */
  lemma StopsWithoutPivot(rows: seq<Row>, now: seq<Row>, column: nat)
    requires |rows| == |now| == 8 && column < 8 && Eliminated(rows, column) == Some(now)
    ensures Eliminated(rows, column + 1) == None <==> forall r :: column <= r < 8 ==> -0.000001 < now[r][column] < 0.000001
  {
    hide Eliminated, EliminationStep;
    NextStep(rows, now, column);
  }

  /** False exactly when some pivot is too small; otherwise the rows become the identity next to the solution. */
  method Eliminate(rows: array<Row>) returns (solved: bool)
    requires rows.Length == 8
    modifies rows
    ensures solved <==> Eliminated(old(rows[..]), 8).Some?
    ensures solved ==> SameSolutions(old(rows[..]), rows[..]) && Reduced(rows[..], 8)
  {
    ghost var original := rows[..];
    assert Eliminated(original, 0) == Some(original);
    hide Solves, SameSolutions, Reduced, Eliminated, EliminationStep, PivotAmong;
    StartsReduced(original);
    for column := 0 to 8
      invariant SameSolutions(original, rows[..]) && Reduced(rows[..], column)
      invariant Eliminated(original, column) == Some(rows[..])
    {
      ghost var now := rows[..];
      NextStep(original, now, column);
      var pivot := FindPivot(rows, column);
      if Abs(rows[pivot][column]) < PLATE_GEOMETRY_EPSILON {
        FailureStays(original, column + 1, 8);
        return false;
      }
      Pivot(rows, column, pivot);
      SameSolutionsTrans(original, now, rows[..]);
    }
    return true;
  }

  lemma StartsReduced(rows: seq<Row>)
    ensures SameSolutions(rows, rows) && Reduced(rows, 0)
  {
  }

  lemma {:induction false} IdentityDot(rows: seq<Row>, r: nat, x: Vector, n: nat)
    requires |rows| == 8 && Reduced(rows, 8) && r < 8 && n <= 8
    ensures DotUpTo(rows[r], x, n) == if r < n then x[r] else 0.0
  {
    if n > 0 { IdentityDot(rows, r, x, n - 1); }
  }

  /** A reduced system has one solution: its right-hand sides. */
  lemma ReducedIsSolved(rows: seq<Row>, x: Vector)
    requires |rows| == 8 && Reduced(rows, 8)
    ensures Solves(rows, x) <==> x == seq(8, r requires 0 <= r < 8 => rows[r][8])
  {
    var rhs := seq(8, r requires 0 <= r < 8 => rows[r][8]);
    forall r | 0 <= r < 8 ensures Holds(rows[r], x) <==> x[r] == rhs[r] {
      IdentityDot(rows, r, x, 8);
    }
    hide Holds;
    if Solves(rows, x) {
      assert forall r :: 0 <= r < 8 ==> Holds(rows[r], x) && x[r] == rhs[r];
      assert x == rhs;
    }
  }

  // ----- the corner equations -----

  /** The unit-square corner each plate corner is sent to. */
  const TOP_LEFT := PlatePoint(0.0, 0.0)
  const TOP_RIGHT := PlatePoint(1.0, 0.0)
  const BOTTOM_RIGHT := PlatePoint(1.0, 1.0)
  const BOTTOM_LEFT := PlatePoint(0.0, 1.0)

  function RowU(p: PlatePoint, u: real): Row {
    [p.x, p.y, 1.0, 0.0, 0.0, 0.0, -u * p.x, -u * p.y, u]
  }

  function RowV(p: PlatePoint, v: real): Row {
    [0.0, 0.0, 0.0, p.x, p.y, 1.0, -v * p.x, -v * p.y, v]
  }

  function PairRows(source: PlatePoint, target: PlatePoint): (rows: seq<Row>)
    ensures |rows| == 2
  {
    [RowU(source, target.x), RowV(source, target.y)]
  }

  function CornerRows(c: PlateQuadrilateral): (rows: seq<Row>)
    ensures |rows| == 8
  {
    PairRows(c.topLeft, TOP_LEFT) + PairRows(c.topRight, TOP_RIGHT) +
    PairRows(c.bottomRight, BOTTOM_RIGHT) + PairRows(c.bottomLeft, BOTTOM_LEFT)
  }

  function Denominator(h: Vector, p: PlatePoint): real {
    h[6] * p.x + h[7] * p.y + 1.0
  }

  function NumeratorU(h: Vector, p: PlatePoint): real {
    h[0] * p.x + h[1] * p.y + h[2]
  }

  function NumeratorV(h: Vector, p: PlatePoint): real {
    h[3] * p.x + h[4] * p.y + h[5]
  }

  /** The homography `h` sends `source` to `target`, in homogeneous form. */
  ghost predicate Sends(h: Vector, source: PlatePoint, target: PlatePoint) {
    && NumeratorU(h, source) == target.x * Denominator(h, source)
    && NumeratorV(h, source) == target.y * Denominator(h, source)
  }

  ghost predicate SendsCorners(h: Vector, c: PlateQuadrilateral) {
    && Sends(h, c.topLeft, TOP_LEFT) && Sends(h, c.topRight, TOP_RIGHT)
    && Sends(h, c.bottomRight, BOTTOM_RIGHT) && Sends(h, c.bottomLeft, BOTTOM_LEFT)
  }

  lemma EightTerms(row: Row, x: Vector)
    ensures DotUpTo(row, x, 8) == row[0] * x[0] + row[1] * x[1] + row[2] * x[2] + row[3] * x[3]
                                + row[4] * x[4] + row[5] * x[5] + row[6] * x[6] + row[7] * x[7]
  {
    assert DotUpTo(row, x, 1) == row[0] * x[0];
    assert DotUpTo(row, x, 2) == DotUpTo(row, x, 1) + row[1] * x[1];
    assert DotUpTo(row, x, 3) == DotUpTo(row, x, 2) + row[2] * x[2];
    assert DotUpTo(row, x, 4) == DotUpTo(row, x, 3) + row[3] * x[3];
    assert DotUpTo(row, x, 5) == DotUpTo(row, x, 4) + row[4] * x[4];
    assert DotUpTo(row, x, 6) == DotUpTo(row, x, 5) + row[5] * x[5];
    assert DotUpTo(row, x, 7) == DotUpTo(row, x, 6) + row[6] * x[6];
  }

  lemma PairRowsMeanSends(h: Vector, source: PlatePoint, target: PlatePoint)
    ensures Solves(PairRows(source, target), h) <==> Sends(h, source, target)
  {
    RowForU(h, source, target.x);
    RowForV(h, source, target.y);
    hide Holds, RowU, RowV, NumeratorU, NumeratorV, Denominator;
    var rows := PairRows(source, target);
    assert Solves(rows, h) <==> Holds(rows[0], h) && Holds(rows[1], h);
  }

  lemma RowForU(h: Vector, p: PlatePoint, u: real)
    ensures Holds(RowU(p, u), h) <==> NumeratorU(h, p) == u * Denominator(h, p)
  {
    EightTerms(RowU(p, u), h);
    hide DotUpTo;
    SendsEquation(h[0], h[1], h[2], h[6], h[7], p, u);
  }

  lemma RowForV(h: Vector, p: PlatePoint, v: real)
    ensures Holds(RowV(p, v), h) <==> NumeratorV(h, p) == v * Denominator(h, p)
  {
    EightTerms(RowV(p, v), h);
    hide DotUpTo;
    SendsEquation(h[3], h[4], h[5], h[6], h[7], p, v);
  }

  lemma SendsEquation(a: real, b: real, c: real, d: real, e: real, p: PlatePoint, t: real)
    ensures p.x * a + p.y * b + 1.0 * c + (-t * p.x) * d + (-t * p.y) * e == t
            <==> a * p.x + b * p.y + c == t * (d * p.x + e * p.y + 1.0)
  {
  }

  lemma CornerRowsMeanSends(h: Vector, c: PlateQuadrilateral)
    ensures Solves(CornerRows(c), h) <==> SendsCorners(h, c)
  {
    PairRowsMeanSends(h, c.topLeft, TOP_LEFT);
    PairRowsMeanSends(h, c.topRight, TOP_RIGHT);
    PairRowsMeanSends(h, c.bottomRight, BOTTOM_RIGHT);
    PairRowsMeanSends(h, c.bottomLeft, BOTTOM_LEFT);
    hide PairRows, Sends;
    var p, q, r, s := PairRows(c.topLeft, TOP_LEFT), PairRows(c.topRight, TOP_RIGHT),
                      PairRows(c.bottomRight, BOTTOM_RIGHT), PairRows(c.bottomLeft, BOTTOM_LEFT);
    FourPairs(p, q, r, s, h);
  }

  lemma FourPairs(p: seq<Row>, q: seq<Row>, r: seq<Row>, s: seq<Row>, h: Vector)
    ensures Solves(p + q + r + s, h) <==> Solves(p, h) && Solves(q, h) && Solves(r, h) && Solves(s, h)
  {
    hide Holds;
    TwoSystems(p, q, h);
    TwoSystems(p + q, r, h);
    TwoSystems(p + q + r, s, h);
  }

  lemma TwoSystems(p: seq<Row>, q: seq<Row>, h: Vector)
    ensures Solves(p + q, h) <==> Solves(p, h) && Solves(q, h)
  {
    hide Holds;
    if Solves(p + q, h) {
      forall r | 0 <= r < |p| ensures Holds(p[r], h) { assert (p + q)[r] == p[r]; }
      forall r | 0 <= r < |q| ensures Holds(q[r], h) { assert (p + q)[|p| + r] == q[r]; }
    }
  }

  // ----- the projection -----

  /** The coefficients of the projection, or nothing for corners that do not determine one. */
  method CreatePlateProjection(corners: PlateQuadrilateral) returns (coefficients: Option<Vector>)
    ensures coefficients == None <==> Eliminated(CornerRows(corners), 8) == None
    ensures coefficients.Some? ==> SendsCorners(coefficients.value, corners)
    ensures coefficients.Some? ==> forall h: Vector :: SendsCorners(h, corners) ==> h == coefficients.value
  {
    hide Solves, SendsCorners, Holds, DotUpTo, Eliminated;
    var rows := new Row[8](i requires 0 <= i < 8 => CornerRows(corners)[i]);
    assert rows[..] == CornerRows(corners);
    var solved := Eliminate(rows);
    if !solved { return None; }
    var h: Vector := seq(8, r requires 0 <= r < 8 reads rows => rows[r][8]);
    ghost var reduced := rows[..];
    assert h == seq(8, r requires 0 <= r < 8 => reduced[r][8]);
    forall x: Vector ensures SendsCorners(x, corners) <==> x == h {
      ReducedIsSolved(reduced, x);
      CornerRowsMeanSends(x, corners);
    }
    return Some(h);
  }

  /** The returned closure: where the projection sends a point, unless it is too close to the horizon. */
  function Project(h: Vector, p: PlatePoint): Option<PlatePoint> {
    var denominator := Denominator(h, p);
    if Abs(denominator) < PLATE_GEOMETRY_EPSILON then None
    else Some(PlatePoint(NumeratorU(h, p) / denominator, NumeratorV(h, p) / denominator))
  }

  lemma SentPointProjects(h: Vector, source: PlatePoint, target: PlatePoint)
    requires Sends(h, source, target)
    ensures Project(h, source) == None || Project(h, source) == Some(target)
  {
    var d := Denominator(h, source);
    hide Denominator, NumeratorU, NumeratorV;
    if Abs(d) >= PLATE_GEOMETRY_EPSILON {
      Quotient(NumeratorU(h, source), target.x, d);
      Quotient(NumeratorV(h, source), target.y, d);
    }
  }

  lemma Quotient(n: real, t: real, d: real)
    requires d != 0.0 && n == t * d
    ensures n / d == t
  {
  }

  /** Every corner of the plate lands on its own corner of the artwork or is rejected, never elsewhere. */
  lemma CornersProjectExactly(h: Vector, c: PlateQuadrilateral)
    requires SendsCorners(h, c)
    ensures Project(h, c.topLeft) in {None, Some(PlatePoint(0.0, 0.0))}
    ensures Project(h, c.topRight) in {None, Some(PlatePoint(1.0, 0.0))}
    ensures Project(h, c.bottomRight) in {None, Some(PlatePoint(1.0, 1.0))}
    ensures Project(h, c.bottomLeft) in {None, Some(PlatePoint(0.0, 1.0))}
  {
    SentPointProjects(h, c.topLeft, TOP_LEFT);
    SentPointProjects(h, c.topRight, TOP_RIGHT);
    SentPointProjects(h, c.bottomRight, BOTTOM_RIGHT);
    SentPointProjects(h, c.bottomLeft, BOTTOM_LEFT);
  }
}
