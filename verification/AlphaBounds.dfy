/** Where the visible part of a cutout is, from its alpha channel alone. */
module AlphaBounds {
  import opened Numbers
  import opened Options
  import opened Rasters

  const VEHICLE_ALPHA_THRESHOLD: nat := 128
  const CONTENT_ALPHA_THRESHOLD: nat := 8
  const MINIMUM_VEHICLE_COVERAGE: real := 0.002

  /** A pixel rectangle: left and top inclusive. */
  datatype SubjectBox = SubjectBox(left: int, top: int, width: int, height: int)

  datatype Bounds = Bounds(box: SubjectBox, pixelCount: nat)

  datatype CutoutMeasurement = CutoutMeasurement(content: SubjectBox, vehicle: SubjectBox, vehicleCoverage: real)

  predicate InBox(box: SubjectBox, x: int, y: int) {
    box.left <= x < box.left + box.width && box.top <= y < box.top + box.height
  }

  /** Pixel `i` is at least as opaque as the threshold. */
  predicate Reaches(alpha: seq<Byte>, threshold: nat, i: int) {
    0 <= i < |alpha| && alpha[i] >= threshold
  }

  function Count(alpha: seq<Byte>, threshold: nat): nat {
    if alpha == [] then 0 else Count(alpha[..|alpha| - 1], threshold) + if alpha[|alpha| - 1] >= threshold then 1 else 0
  }

  /** How many pixels are at least as opaque as the threshold. */
  ghost function Visible(alpha: seq<Byte>, threshold: nat): nat {
    |set i | 0 <= i < |alpha| && alpha[i] >= threshold|
  }

  /** The box holds every pixel that reaches the threshold, and each of its four sides touches one. */
  ghost predicate IsTight(alpha: seq<Byte>, width: nat, threshold: nat, box: SubjectBox)
    requires width > 0
  {
    && (forall i :: Reaches(alpha, threshold, i) ==> InBox(box, Column(width, i), Row(width, i)))
    && (exists i :: Reaches(alpha, threshold, i) && Column(width, i) == box.left)
    && (exists i :: Reaches(alpha, threshold, i) && Column(width, i) == box.left + box.width - 1)
    && (exists i :: Reaches(alpha, threshold, i) && Row(width, i) == box.top)
    && (exists i :: Reaches(alpha, threshold, i) && Row(width, i) == box.top + box.height - 1)
  }

  /** There is one tight box at most. */
  lemma TightBoxIsUnique(alpha: seq<Byte>, width: nat, threshold: nat, a: SubjectBox, b: SubjectBox)
    requires width > 0 && IsTight(alpha, width, threshold, a) && IsTight(alpha, width, threshold, b)
    ensures a == b
  {
    hide Column, Row, Reaches;
  }

  /** A tight box lies within the raster. */
  lemma TightBoxIsInRaster(alpha: seq<Byte>, width: nat, height: nat, threshold: nat, box: SubjectBox)
    requires width > 0 && |alpha| == width * height && IsTight(alpha, width, threshold, box)
    ensures 0 <= box.left && 0 <= box.top && box.width >= 1 && box.height >= 1
    ensures box.left + box.width <= width && box.top + box.height <= height
  {
    var l :| Reaches(alpha, threshold, l) && Column(width, l) == box.left;
    var r :| Reaches(alpha, threshold, r) && Column(width, r) == box.left + box.width - 1;
    var t :| Reaches(alpha, threshold, t) && Row(width, t) == box.top;
    var b :| Reaches(alpha, threshold, b) && Row(width, b) == box.top + box.height - 1;
    RowInRange(width, height, b);
  }

  /** The stricter threshold's box lies inside the other's: the vehicle is part of the content. */
  lemma StricterBoxIsInside(alpha: seq<Byte>, width: nat, loose: nat, strict: nat, outer: SubjectBox, inner: SubjectBox)
    requires width > 0 && loose <= strict && IsTight(alpha, width, loose, outer) && IsTight(alpha, width, strict, inner)
    ensures outer.left <= inner.left && inner.left + inner.width <= outer.left + outer.width
    ensures outer.top <= inner.top && inner.top + inner.height <= outer.top + outer.height
  {
    hide Column, Row;
    assert forall i :: Reaches(alpha, strict, i) ==> Reaches(alpha, loose, i);
  }

  /** One of the first `n` pixels reaches the threshold in column `x`. */
  ghost predicate ColumnSeen(alpha: seq<Byte>, width: nat, threshold: nat, n: nat, x: int)
    requires width > 0
  {
    exists i :: i < n && Reaches(alpha, threshold, i) && Column(width, i) == x
  }

  ghost predicate RowSeen(alpha: seq<Byte>, width: nat, threshold: nat, n: nat, y: int)
    requires width > 0
  {
    exists i :: i < n && Reaches(alpha, threshold, i) && Row(width, i) == y
  }

  /** Of the first `n` pixels: those that reach the threshold lie between the limits, which they touch. */
  ghost predicate Spans(alpha: seq<Byte>, width: nat, threshold: nat, n: nat, left: int, right: int, top: int, bottom: int)
    requires width > 0
  {
    && (forall i :: i < n && Reaches(alpha, threshold, i) ==> left <= Column(width, i) <= right && top <= Row(width, i) <= bottom)
    && (left <= right ==>
          && ColumnSeen(alpha, width, threshold, n, left) && ColumnSeen(alpha, width, threshold, n, right)
          && RowSeen(alpha, width, threshold, n, top) && RowSeen(alpha, width, threshold, n, bottom))
  }

  lemma SpansMore(alpha: seq<Byte>, width: nat, threshold: nat, n: nat, left: int, right: int, top: int, bottom: int,
                  left': int, right': int, top': int)
    requires width > 0 && n < |alpha| && Spans(alpha, width, threshold, n, left, right, top, bottom)
    requires left <= right || (left == width && right == -1)
    requires alpha[n] >= threshold
    requires left' == if Column(width, n) < left then Column(width, n) else left
    requires right' == if Column(width, n) > right then Column(width, n) else right
    requires top' == if Row(width, n) < top then Row(width, n) else top
    requires bottom <= Row(width, n) && (left > right ==> top >= Row(width, n))
    ensures Spans(alpha, width, threshold, n + 1, left', right', top', Row(width, n))
    ensures left' <= right'
  {
    hide Column, Row, Reaches, ColumnSeen, RowSeen;
    CellSeen(alpha, width, threshold, n);
    if left <= right {
      SeenStays(alpha, width, threshold, n, left, top);
      SeenStays(alpha, width, threshold, n, right, bottom);
    }
  }

  lemma CellSeen(alpha: seq<Byte>, width: nat, threshold: nat, n: nat)
    requires width > 0 && n < |alpha| && alpha[n] >= threshold
    ensures ColumnSeen(alpha, width, threshold, n + 1, Column(width, n)) && RowSeen(alpha, width, threshold, n + 1, Row(width, n))
    ensures Reaches(alpha, threshold, n) && Column(width, n) < width
  {
    assert Reaches(alpha, threshold, n);
  }

  lemma SeenStays(alpha: seq<Byte>, width: nat, threshold: nat, n: nat, x: int, y: int)
    requires width > 0
    ensures ColumnSeen(alpha, width, threshold, n, x) ==> ColumnSeen(alpha, width, threshold, n + 1, x)
    ensures RowSeen(alpha, width, threshold, n, y) ==> RowSeen(alpha, width, threshold, n + 1, y)
  {
    hide Column, Row, Reaches;
  }

  lemma CountMore(alpha: seq<Byte>, threshold: nat, n: nat)
    requires n < |alpha|
    ensures Count(alpha[..n + 1], threshold) == Count(alpha[..n], threshold) + if alpha[n] >= threshold then 1 else 0
  {
    assert alpha[..n + 1][..n] == alpha[..n];
  }

  /** The limits found so far: either some pixel reached the threshold, above row `y`, or they are the initial ones. */
  predicate Sane(width: nat, height: nat, y: int, left: int, right: int, top: int, bottom: int) {
    (left <= right && bottom < y) || (left == width && right == -1 && top == height && bottom == -1)
  }

  /** Row `y` starts at position `row`. */
  predicate StartsRow(width: nat, y: nat, row: nat) {
    row == y * width
  }

  lemma CellOfRow(width: nat, y: nat, row: nat, x: nat)
    requires StartsRow(width, y, row) && x < width
    ensures Column(width, row + x) == x && Row(width, row + x) == y
  {
    CellCoordinates(width, x, y);
  }

  lemma NextRow(width: nat, height: nat, y: nat, row: nat)
    requires StartsRow(width, y, row) && y < height
    ensures StartsRow(width, y + 1, row + width) && row + width <= width * height
  {
    assert (y + 1) * width == y * width + width;
    if y + 1 < height { MultipleGap(width, y + 1, height); }
  }

  lemma FirstAndLastRow(width: nat, height: nat, row: nat)
    ensures StartsRow(width, 0, 0)
    ensures StartsRow(width, height, row) <==> row == width * height
  {
  }

  /** Scans row `y`, which starts at position `row`. */
  method ScanRow(alpha: seq<Byte>, width: nat, height: nat, threshold: nat, y: nat, row: nat, left0: int, right0: int, top0: int, bottom0: int)
    returns (left: int, right: int, top: int, bottom: int, count: nat)
    requires width > 0 && y < height && row + width <= |alpha| && Sane(width, height, y, left0, right0, top0, bottom0)
    requires StartsRow(width, y, row)
    requires Spans(alpha, width, threshold, row, left0, right0, top0, bottom0)
    ensures Sane(width, height, y + 1, left, right, top, bottom)
    ensures Spans(alpha, width, threshold, row + width, left, right, top, bottom)
    ensures Count(alpha[..row], threshold) + count == Count(alpha[..row + width], threshold)
  {
    hide Column, Row, Spans, Count, Reaches, StartsRow;
    left, right, top, bottom, count := left0, right0, top0, bottom0, 0;
    for x := 0 to width
      invariant Sane(width, height, y + 1, left, right, top, bottom)
      invariant Spans(alpha, width, threshold, row + x, left, right, top, bottom)
      invariant Count(alpha[..row], threshold) + count == Count(alpha[..row + x], threshold)
    {
      CountMore(alpha, threshold, row + x);
      CellOfRow(width, y, row, x);
      if alpha[row + x] < threshold {
        SpansSame(alpha, width, threshold, row + x, left, right, top, bottom);
      } else {
        ghost var l, r, t, b := left, right, top, bottom;
        count := count + 1;
        if x < left { left := x; }
        if x > right { right := x; }
        if y < top { top := y; }
        bottom := y;
        SpansMore(alpha, width, threshold, row + x, l, r, t, b, left, right, top);
      }
    }
  }

  /** The tight box of the pixels that reach the threshold, and how many they are; none when there are none. */
  method FindAlphaBounds(alpha: seq<Byte>, width: int, height: int, threshold: nat) returns (bounds: Option<Bounds>)
    ensures bounds == None <==>
              width <= 0 || height <= 0 || |alpha| != width * height || forall i :: 0 <= i < |alpha| ==> alpha[i] < threshold
    ensures bounds.Some? ==>
              && IsTight(alpha, width, threshold, bounds.value.box)
              && bounds.value.pixelCount == Visible(alpha, threshold)
  {
    hide Column, Row, Spans, Count, Reaches, IsTight, StartsRow, Visible;
    if width <= 0 || height <= 0 || |alpha| != width * height { return None; }
    var left, top, right, bottom, pixelCount := width, height, -1, -1, 0;
    var row := 0;
    FirstAndLastRow(width, height, row);
    NothingSpanned(alpha, width, threshold, left, right, top, bottom);
    CountNothing(alpha, threshold);
    for y := 0 to height
      invariant 0 <= row <= |alpha| && StartsRow(width, y, row) && Sane(width, height, y, left, right, top, bottom)
      invariant Spans(alpha, width, threshold, row, left, right, top, bottom)
      invariant pixelCount == Count(alpha[..row], threshold)
    {
      NextRow(width, height, y, row);
      var count;
      left, right, top, bottom, count := ScanRow(alpha, width, height, threshold, y, row, left, right, top, bottom);
      pixelCount := pixelCount + count;
      row := row + width;
    }
    FirstAndLastRow(width, height, row);
    assert alpha[..|alpha|] == alpha;
    SpansAll(alpha, width, threshold, left, right, top, bottom);
    CountIsSize(alpha, threshold);
    NoneReaches(alpha, threshold);
    if right < left { return None; }
    return Some(Bounds(SubjectBox(left, top, right - left + 1, bottom - top + 1), pixelCount));
  }

  /** The count is the number of pixels at least as opaque as the threshold. */
  lemma {:induction false} CountIsSize(alpha: seq<Byte>, threshold: nat)
    ensures Count(alpha, threshold) == Visible(alpha, threshold)
    decreases |alpha|
  {
    if alpha != [] {
      var last, front := |alpha| - 1, alpha[..|alpha| - 1];
      CountIsSize(front, threshold);
      var earlier := set i | 0 <= i < |front| && front[i] >= threshold;
      assert (set i | 0 <= i < |alpha| && alpha[i] >= threshold) == if alpha[last] >= threshold then earlier + {last} else earlier;
    }
  }

  lemma NoneVisible(alpha: seq<Byte>, threshold: nat)
    ensures Visible(alpha, threshold) == 0 <==> forall i :: 0 <= i < |alpha| ==> alpha[i] < threshold
  {
    hide Visible, Count, Reaches;
    CountIsSize(alpha, threshold);
    CountZero(alpha, threshold);
    NoneReaches(alpha, threshold);
  }

  lemma NoneReaches(alpha: seq<Byte>, threshold: nat)
    ensures (forall i :: !Reaches(alpha, threshold, i)) <==> forall i :: 0 <= i < |alpha| ==> alpha[i] < threshold
  {
    if forall i :: !Reaches(alpha, threshold, i) {
      forall i | 0 <= i < |alpha| ensures alpha[i] < threshold { assert !Reaches(alpha, threshold, i); }
    }
  }

  lemma CountNothing(alpha: seq<Byte>, threshold: nat)
    ensures Count(alpha[..0], threshold) == 0
  {
  }

  lemma NothingSpanned(alpha: seq<Byte>, width: nat, threshold: nat, left: int, right: int, top: int, bottom: int)
    requires width > 0 && right < left
    ensures Spans(alpha, width, threshold, 0, left, right, top, bottom)
  {
  }

  lemma SpansSame(alpha: seq<Byte>, width: nat, threshold: nat, n: nat, left: int, right: int, top: int, bottom: int)
    requires width > 0 && n < |alpha| && Spans(alpha, width, threshold, n, left, right, top, bottom) && alpha[n] < threshold
    ensures Spans(alpha, width, threshold, n + 1, left, right, top, bottom)
  {
    hide Column, Row, ColumnSeen, RowSeen;
    assert !Reaches(alpha, threshold, n);
    SeenStays(alpha, width, threshold, n, left, top);
    SeenStays(alpha, width, threshold, n, right, bottom);
  }

  lemma SpansAll(alpha: seq<Byte>, width: nat, threshold: nat, left: int, right: int, top: int, bottom: int)
    requires width > 0 && Spans(alpha, width, threshold, |alpha|, left, right, top, bottom)
    ensures left <= right ==> IsTight(alpha, width, threshold, SubjectBox(left, top, right - left + 1, bottom - top + 1))
    ensures left > right <==> forall i :: !Reaches(alpha, threshold, i)
  {
    hide Column, Row;
    assert forall i :: Reaches(alpha, threshold, i) ==> i < |alpha|;
  }

  function AlphaAt(image: RawImage, i: nat): Byte
    requires image.Valid() && i < image.width * image.height
    reads image.data
  {
    if image.channels == 4 then image.data[i * 4 + 3] else 255
  }

  /** The alpha of every pixel; an image without an alpha channel is opaque. */
  ghost function AlphaPlane(image: RawImage): (plane: seq<Byte>)
    requires image.Valid()
    reads image.data
    ensures |plane| == image.width * image.height
  {
    seq(image.width * image.height, i requires 0 <= i < image.width * image.height reads image.data => AlphaAt(image, i))
  }

  method ExtractAlpha(image: RawImage) returns (alpha: seq<Byte>)
    requires image.Valid()
    ensures alpha == AlphaPlane(image)
  {
    var pixels := image.width * image.height;
    if image.channels != 4 { return seq(pixels, _ => 255); }
    alpha := [];
    for index := 0 to pixels
      invariant |alpha| == index
      invariant forall i :: 0 <= i < index ==> alpha[i] == AlphaAt(image, i)
    {
      alpha := alpha + [image.data[index * 4 + 3]];
    }
  }

  function Coverage(count: nat, pixels: nat): real
    requires pixels > 0
  {
    Quotient(count as real, pixels as real)
  }

  lemma {:induction false} CountZero(alpha: seq<Byte>, threshold: nat)
    ensures Count(alpha, threshold) == 0 <==> forall i :: !Reaches(alpha, threshold, i)
    decreases |alpha|
  {
    if alpha != [] {
      var front := alpha[..|alpha| - 1];
      CountZero(front, threshold);
      if Count(alpha, threshold) != 0 {
        if Count(front, threshold) != 0 {
          var i :| Reaches(front, threshold, i);
          assert Reaches(alpha, threshold, i);
        } else {
          assert Reaches(alpha, threshold, |alpha| - 1);
        }
      } else {
        forall i ensures !Reaches(alpha, threshold, i) {
          assert !Reaches(front, threshold, i);
        }
      }
    }
  }

  /** The plane holds every fourth byte from the fourth on; without an alpha channel every pixel is opaque. */
  lemma AlphaPlaneMeans(image: RawImage, x: nat, y: nat)
    requires image.Valid() && x < image.width && y < image.height
    ensures |AlphaPlane(image)| == image.width * image.height && y * image.width + x < |AlphaPlane(image)|
    ensures image.channels == 3 ==> AlphaPlane(image)[y * image.width + x] == 255
    ensures image.channels == 4 ==>
              At(image.width, 4, x, y, 3) < image.data.Length && AlphaPlane(image)[y * image.width + x] == image.data[At(image.width, 4, x, y, 3)]
  {
    CellInRange(image.width, image.height, x, y);
    AtInRange(image.width, image.height, 4, x, y, 3);
  }

  /** Below the least coverage: the count over the pixels, and the count against their share. */
  lemma CoverageMeans(count: nat, pixels: nat)
    requires pixels > 0
    ensures Coverage(count, pixels) < MINIMUM_VEHICLE_COVERAGE <==> count as real < 0.002 * pixels as real
    ensures Coverage(count, pixels) * pixels as real == count as real
  {
    hide Quotient;
    QuotientTimes(count as real, pixels as real);
    SmallerFactor(0.002, Coverage(count, pixels), pixels as real);
  }

  /**
   * The content is the tight box of the pixels of alpha 8 or more, the vehicle that of those of 128 or more. Nothing is
   * measured exactly when no pixel, or less than a five-hundredth of them, is of the vehicle.
   */
  method MeasureCutout(cutout: RawImage) returns (measurement: Option<CutoutMeasurement>)
    requires cutout.Valid()
    ensures measurement == None <==>
              Visible(AlphaPlane(cutout), 128) == 0 || Visible(AlphaPlane(cutout), 128) as real < 0.002 * |AlphaPlane(cutout)| as real
    ensures measurement.Some? ==>
              && cutout.width > 0 && AlphaPlane(cutout) != []
              && IsTight(AlphaPlane(cutout), cutout.width, 8, measurement.value.content)
              && IsTight(AlphaPlane(cutout), cutout.width, 128, measurement.value.vehicle)
              && measurement.value.vehicleCoverage * |AlphaPlane(cutout)| as real == Visible(AlphaPlane(cutout), 128) as real
  {
    hide IsTight, Reaches, Coverage, Count, Visible, AlphaPlane;
    var plane := ExtractAlpha(cutout);
    var vehicle := FindAlphaBounds(plane, cutout.width, cutout.height, VEHICLE_ALPHA_THRESHOLD);
    var content := FindAlphaBounds(plane, cutout.width, cutout.height, CONTENT_ALPHA_THRESHOLD);
    EmptyRaster(cutout.width, cutout.height);
    NoneVisible(plane, VEHICLE_ALPHA_THRESHOLD);
    if vehicle == None || content == None { return None; }
    var pixels := cutout.width * cutout.height;
    CoverageMeans(vehicle.value.pixelCount, pixels);
    var vehicleCoverage := Coverage(vehicle.value.pixelCount, pixels);
    if vehicleCoverage < MINIMUM_VEHICLE_COVERAGE { return None; }
    return Some(CutoutMeasurement(content.value.box, vehicle.value.box, vehicleCoverage));
  }

  lemma EmptyRaster(width: nat, height: nat)
    ensures width == 0 || height == 0 <==> width * height == 0
  {
  }
}
