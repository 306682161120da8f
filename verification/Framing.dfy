/** How a cutout is framed on its canvas and which part of it is drawn, over exact reals. */
module Framing {
  import opened AlphaBounds
  import opened Numbers
  import opened Rasters

  const SQUARE_OUTPUT_EDGE_PIXELS: int := 1600
  const FIT_OUTPUT_WIDTH_PIXELS: int := 1600
  const FIT_OUTPUT_HEIGHT_PIXELS: int := 1200
  const FIT_VEHICLE_MAXIMUM_ENLARGEMENT: real := 1.3

  datatype CropMode = MaintainComposition | Square | FitToVehicle

  /** A canvas, and how source positions map to it: multiplied by the scale, then moved. */
  datatype VehicleFraming = VehicleFraming(canvasWidth: int, canvasHeight: int, offsetX: real, offsetY: real, scale: real)

  predicate ValidPadding(paddingPercent: int) {
    0 <= paddingPercent <= 40
  }

  /** A measured content box lies within its cutout and is not empty. */
  predicate InCutout(content: SubjectBox, width: int, height: int) {
    && 0 <= content.left && content.width >= 1 && content.left + content.width <= width
    && 0 <= content.top && content.height >= 1 && content.top + content.height <= height
  }

  function Margin(edge: int, paddingPercent: int): int {
    Round(edge as real * (paddingPercent as real / 100.0))
  }

  /** `n` source pixels on the canvas. */
  function Spread(scale: real, n: int): real { n as real * scale }

  function Scaled(canvas: int, margin: int, size: int): real
    requires size >= 1
  {
    Quotient((canvas - margin * 2) as real, size as real)
  }

  /** The offset that centres `size` pixels from `start` on the canvas. */
  function Centring(canvas: int, start: int, size: int, scale: real): real {
    (canvas as real - Spread(scale, size)) / 2.0 - Spread(scale, start)
  }

  function FrameVehicle(content: SubjectBox, crop: CropMode, cutoutWidth: int, cutoutHeight: int, paddingPercent: int): VehicleFraming
    requires InCutout(content, cutoutWidth, cutoutHeight)
  {
    match crop
    case MaintainComposition =>
      var padding := Margin(MinInt(cutoutWidth, cutoutHeight), paddingPercent);
      VehicleFraming(cutoutWidth + padding * 2, cutoutHeight + padding * 2, padding as real, padding as real, 1.0)
    case Square =>
      var edge, margin := SQUARE_OUTPUT_EDGE_PIXELS, Margin(SQUARE_OUTPUT_EDGE_PIXELS, paddingPercent);
      var scale := Min(Min(Scaled(edge, margin, cutoutWidth), Scaled(edge, margin, cutoutHeight)), 1.0);
      VehicleFraming(edge, edge, Centring(edge, 0, cutoutWidth, scale), Centring(edge, 0, cutoutHeight, scale), scale)
    case FitToVehicle =>
      var margin := Margin(MinInt(FIT_OUTPUT_WIDTH_PIXELS, FIT_OUTPUT_HEIGHT_PIXELS), paddingPercent);
      var scale := Min(Min(Scaled(FIT_OUTPUT_WIDTH_PIXELS, margin, content.width), Scaled(FIT_OUTPUT_HEIGHT_PIXELS, margin, content.height)),
                       FIT_VEHICLE_MAXIMUM_ENLARGEMENT);
      VehicleFraming(FIT_OUTPUT_WIDTH_PIXELS, FIT_OUTPUT_HEIGHT_PIXELS,
                     Centring(FIT_OUTPUT_WIDTH_PIXELS, content.left, content.width, scale),
                     Centring(FIT_OUTPUT_HEIGHT_PIXELS, content.top, content.height, scale), scale)
  }

  // ----- the drawn layer, one axis at a time -----

  /**
   * Source pixels `sourceStart` to `sourceEnd` are resampled to `target` canvas pixels; the first `clip` of
   * those are dropped and the next `visible` drawn from canvas position `at`.
   */
  datatype Span = Span(sourceStart: int, sourceEnd: int, target: int, clip: int, at: int, visible: int)

  function PlaceAxis(extent: int, canvas: int, scale: real, offset: real): Span
    requires scale > 0.0
  {
    var sourceStart := ClampInt(Quotient(-offset, scale).Floor, 0, extent - 1);
    var sourceEnd := ClampInt(Ceil(Quotient(canvas as real - offset, scale)), sourceStart + 1, extent);
    var target := MaxInt(1, Round(Spread(scale, sourceEnd - sourceStart)));
    var at := Round(offset + Spread(scale, sourceStart));
    var clip := MaxInt(0, -at);
    Span(sourceStart, sourceEnd, target, clip, MaxInt(0, at), MinInt(target - clip, canvas - MaxInt(0, at)))
  }

  /** The layer's two axes. */
  datatype PlacedLayer = PlacedLayer(across: Span, down: Span)

  function PlaceCutoutLayer(width: int, height: int, framing: VehicleFraming): PlacedLayer
    requires framing.scale > 0.0
  {
    PlacedLayer(PlaceAxis(width, framing.canvasWidth, framing.scale, framing.offsetX),
                PlaceAxis(height, framing.canvasHeight, framing.scale, framing.offsetY))
  }

  /** What is extracted lies in the cutout, what is kept lies in the resampled layer, and what is drawn lies on the canvas. */
  predicate InBounds(span: Span, extent: int, canvas: int) {
    && 0 <= span.sourceStart < span.sourceEnd <= extent
    && 0 <= span.clip && span.visible >= 1 && span.clip + span.visible <= span.target
    && 0 <= span.at && span.at + span.visible <= canvas
  }

  /** Source pixels `start` to `start + size` are all extracted. */
  predicate Extracts(span: Span, start: int, size: int) {
    span.sourceStart <= start && start + size <= span.sourceEnd
  }

  /** The resampled images of those pixels all lie in the part that is drawn. */
  predicate Draws(span: Span, start: int, size: int) {
    && span.clip * (span.sourceEnd - span.sourceStart) <= (start - span.sourceStart) * span.target
    && (start + size - span.sourceStart) * span.target <= (span.clip + span.visible) * (span.sourceEnd - span.sourceStart)
  }

  /** On the canvas the pixels from `start` are centred and keep `margin` from both edges. */
  predicate Centred(canvas: int, scale: real, offset: real, start: int, size: int, margin: int) {
    var a, b := offset + Spread(scale, start), offset + Spread(scale, start + size);
    margin as real <= a && b <= (canvas - margin) as real && a + b == canvas as real
  }

  // ----- one axis -----

  lemma StartIsBefore(offset: real, scale: real, start: int)
    requires scale > 0.0 && offset + Spread(scale, start) >= 0.0
    ensures Quotient(-offset, scale).Floor <= start
  {
    hide Quotient;
    QuotientAtMost(-offset, scale, start as real);
  }

  lemma EndIsAfter(offset: real, scale: real, canvas: int, end: int)
    requires scale > 0.0 && offset + Spread(scale, end) <= canvas as real
    ensures end <= Ceil(Quotient(canvas as real - offset, scale))
  {
    hide Quotient;
    var q := Quotient(canvas as real - offset, scale);
    QuotientTimes(canvas as real - offset, scale);
    SmallerFactor(end as real, q, scale);
  }

  lemma CentredIsExtracted(extent: int, canvas: int, scale: real, offset: real, start: int, size: int, margin: int)
    requires scale > 0.0 && 0 <= start && size >= 1 && start + size <= extent && margin >= 0
    requires Centred(canvas, scale, offset, start, size, margin)
    ensures var span := PlaceAxis(extent, canvas, scale, offset); 0 <= span.sourceStart && span.sourceEnd <= extent && Extracts(span, start, size)
  {
    StartIsBefore(offset, scale, start);
    EndIsAfter(offset, scale, canvas, start + size);
    hide Quotient, Ceil, Round;
  }

  lemma RoundBounds(r: real)
    ensures r - 0.5 < Round(r) as real <= r + 0.5
  {
  }

  lemma Product(x: real, y: real, d: real)
    requires x <= y && d >= 0.0
    ensures x * d <= y * d
  {
    ProductSign(y - x, d);
  }

  lemma SpreadSplits(scale: real, n: int, more: int)
    requires scale > 0.0 && more >= 0
    ensures Spread(scale, n + more) == Spread(scale, n) + Spread(scale, more)
    ensures Spread(scale, more) >= 0.0 && (more > 0 ==> Spread(scale, more) > 0.0)
  {
    Product(0.0, more as real, scale);
    assert (n + more) as real * scale == n as real * scale + more as real * scale;
  }

  /** Where the extracted part lands, unrounded, around the pixels of interest. */
  lemma CentredLands(scale: real, offset: real, start: int, size: int, canvas: int, margin: int, from: int, to: int)
    requires scale > 0.0 && margin >= 0 && Centred(canvas, scale, offset, start, size, margin) && from <= start && start + size <= to && size >= 1
    ensures offset + Spread(scale, from) < canvas as real / 2.0
    ensures offset + Spread(scale, from) + Spread(scale, to - from) > canvas as real / 2.0
  {
    hide Spread;
    SpreadSplits(scale, start, size);
    SpreadSplits(scale, from, start - from);
    SpreadSplits(scale, from, to - from);
    SpreadSplits(scale, start + size, to - (start + size));
  }

  lemma CentredIsInBounds(extent: int, canvas: int, scale: real, offset: real, start: int, size: int, margin: int)
    requires scale > 0.0 && 0 <= start && size >= 1 && start + size <= extent && margin >= 0 && canvas >= 2
    requires Centred(canvas, scale, offset, start, size, margin)
    ensures InBounds(PlaceAxis(extent, canvas, scale, offset), extent, canvas)
  {
    hide Centred, Quotient, Ceil, Round, Spread;
    CentredIsExtracted(extent, canvas, scale, offset, start, size, margin);
    var span := PlaceAxis(extent, canvas, scale, offset);
    CentredLands(scale, offset, start, size, canvas, margin, span.sourceStart, span.sourceEnd);
    RoundBounds(offset + Spread(scale, span.sourceStart));
    RoundBounds(Spread(scale, span.sourceEnd - span.sourceStart));
  }

  /** Reals of one axis: `width` source pixels become `target`, the first at `y`; those before `x` are not needed. */
  lemma ClipIsBefore(ahead: real, width: real, scale: real, target: real, y: real, x: real, clip: real)
    requires 0.0 <= ahead <= width && target >= width * scale - 0.5 && x == y + ahead * scale && x >= 1.0
    requires clip <= 0.5 - y && width > 0.0
    ensures clip * width <= ahead * target
  {
    var low, need, moved := ahead * target, clip * width, (x - y) * width;
    assert low >= moved - 0.5 * ahead by {
      Product(width * scale - 0.5, target, ahead);
      assert (width * scale - 0.5) * ahead == width * (ahead * scale) - 0.5 * ahead;
      assert width * (ahead * scale) == width * (x - y);
    }
    var shift := y * width;
    assert moved >= width - shift by { Product(1.0 - y, x - y, width); }
    assert need <= 0.5 * width - shift by { Product(clip, 0.5 - y, width); }
  }

  lemma DrawnReachesEnd(upTo: real, width: real, scale: real, target: real, y: real, x: real, drawn: real, canvas: real)
    requires 0.0 <= upTo <= width && target <= width * scale + 0.5 && x == y + upTo * scale && x <= canvas - 1.0
    requires drawn >= canvas - y - 0.5 && width > 0.0
    ensures upTo * target <= drawn * width
  {
    var high, room, moved := upTo * target, drawn * width, (x - y) * width;
    assert high <= moved + 0.5 * upTo by {
      Product(target, width * scale + 0.5, upTo);
      assert (width * scale + 0.5) * upTo == width * (upTo * scale) + 0.5 * upTo;
      assert width * (upTo * scale) == width * (x - y);
    }
    var span := (canvas - y) * width;
    assert moved <= span - width by { Product(x - y, canvas - 1.0 - y, width); }
    assert room >= span - 0.5 * width by { Product(canvas - y - 0.5, drawn, width); }
  }

  lemma SpanLands(extent: int, canvas: int, scale: real, offset: real)
    requires scale > 0.0
    ensures var span := PlaceAxis(extent, canvas, scale, offset);
            && span.target as real >= Spread(scale, span.sourceEnd - span.sourceStart) - 0.5
            && (span.target == 1 || span.target as real <= Spread(scale, span.sourceEnd - span.sourceStart) + 0.5)
            && (span.clip == 0 || span.clip as real <= 0.5 - (offset + Spread(scale, span.sourceStart)))
            && span.target >= 1 && span.clip >= 0
            && (span.clip + span.visible == span.target
                || (span.clip + span.visible) as real >= canvas as real - (offset + Spread(scale, span.sourceStart)) - 0.5)
  {
    hide Quotient, Ceil, Round, Spread;
    var span := PlaceAxis(extent, canvas, scale, offset);
    RoundBounds(offset + Spread(scale, span.sourceStart));
    RoundBounds(Spread(scale, span.sourceEnd - span.sourceStart));
  }

  lemma NatProduct(x: int, y: int, d: int)
    requires x <= y && d >= 0
    ensures x * d <= y * d
  {
    assert (y - x) * d >= 0;
  }

  lemma ClippedBefore(ahead: int, width: int, scale: real, target: int, y: real, x: real, clip: int)
    requires 0 <= ahead <= width && width > 0 && target >= 1 && target as real >= Spread(scale, width) - 0.5
    requires x == y + Spread(scale, ahead) && x >= 1.0 && (clip == 0 || clip as real <= 0.5 - y)
    ensures clip * width <= ahead * target
  {
    if clip == 0 {
      NatProduct(0, ahead, target);
    } else {
      ClipIsBefore(ahead as real, width as real, scale, target as real, y, x, clip as real);
      CastProduct(clip, width);
      CastProduct(ahead, target);
    }
  }

  lemma DrawnUpTo(upTo: int, width: int, scale: real, target: int, y: real, x: real, drawn: int, canvas: int)
    requires 0 <= upTo <= width && width > 0 && target >= 1 && drawn >= 1
    requires x == y + Spread(scale, upTo) && x <= canvas as real - 1.0
    requires target == 1 || target as real <= Spread(scale, width) + 0.5
    requires drawn == target || drawn as real >= canvas as real - y - 0.5
    ensures upTo * target <= drawn * width
  {
    if drawn == target {
      NatProduct(upTo, width, target);
    } else if target == 1 {
      NatProduct(1, drawn, width);
    } else {
      DrawnReachesEnd(upTo as real, width as real, scale, target as real, y, x, drawn as real, canvas as real);
      CastProduct(upTo, target);
      CastProduct(drawn, width);
    }
  }

  lemma CastProduct(a: int, b: int)
    ensures a as real * b as real == (a * b) as real
  {
  }

  /** With a pixel of margin, everything of interest is drawn. */
  lemma CentredIsDrawn(extent: int, canvas: int, scale: real, offset: real, start: int, size: int, margin: int)
    requires scale > 0.0 && 0 <= start && size >= 1 && start + size <= extent && margin >= 1 && canvas >= 2
    requires Centred(canvas, scale, offset, start, size, margin)
    ensures Draws(PlaceAxis(extent, canvas, scale, offset), start, size)
  {
    CentredIsExtracted(extent, canvas, scale, offset, start, size, margin);
    CentredIsInBounds(extent, canvas, scale, offset, start, size, margin);
    SpanLands(extent, canvas, scale, offset);
    hide PlaceAxis, Spread;
    var span := PlaceAxis(extent, canvas, scale, offset);
    var ahead, width, y := start - span.sourceStart, span.sourceEnd - span.sourceStart, offset + Spread(scale, span.sourceStart);
    SpreadSplits(scale, span.sourceStart, ahead);
    SpreadSplits(scale, span.sourceStart, ahead + size);
    ClippedBefore(ahead, width, scale, span.target, y, offset + Spread(scale, start), span.clip);
    DrawnUpTo(ahead + size, width, scale, span.target, y, offset + Spread(scale, start + size), span.clip + span.visible, canvas);
  }

  // ----- when a centred axis is drawn whole -----

  /** The canvas left free on each side of the centred pixels. */
  function Gap(canvas: int, size: int, scale: real): real {
    (canvas as real - Spread(scale, size)) / 2.0
  }

  /** The source pixels in front of the centred ones that reach into the gap. */
  function Before(canvas: int, scale: real, start: int, size: int): int
    requires scale > 0.0
  {
    MinInt(start, Ceil(Quotient(Gap(canvas, size, scale), scale)))
  }

  /** The source pixels behind them that do. */
  function Behind(extent: int, canvas: int, scale: real, start: int, size: int): int
    requires scale > 0.0
  {
    MinInt(extent - start - size, Ceil(Quotient(Gap(canvas, size, scale), scale)))
  }

  /** All source pixels that reach the canvas. */
  function Reaching(extent: int, canvas: int, scale: real, start: int, size: int): int
    requires scale > 0.0
  {
    Before(canvas, scale, start, size) + size + Behind(extent, canvas, scale, start, size)
  }

  /** The whole canvas pixels they are resampled to. */
  function Resampled(extent: int, canvas: int, scale: real, start: int, size: int): int
    requires scale > 0.0
  {
    MaxInt(1, Round(Spread(scale, Reaching(extent, canvas, scale, start, size))))
  }

  /** Where the first of them is put, possibly in front of the canvas. */
  function Origin(canvas: int, scale: real, start: int, size: int): int
    requires scale > 0.0
  {
    Round(Gap(canvas, size, scale) - Spread(scale, Before(canvas, scale, start, size)))
  }

  /** How far the last of them is put behind the canvas. */
  function Overhang(extent: int, canvas: int, scale: real, start: int, size: int): int
    requires scale > 0.0
  {
    Origin(canvas, scale, start, size) + Resampled(extent, canvas, scale, start, size) - canvas
  }

  /** The gap is a fraction of a pixel that pulls a whole canvas pixel off the near edge, more than the pixel in front covers. */
  predicate ClipsStart(extent: int, canvas: int, scale: real, start: int, size: int)
    requires scale > 0.0
  {
    && start >= 1 && 0.0 < Gap(canvas, size, scale) < scale - 0.5
    && Resampled(extent, canvas, scale, start, size) < Reaching(extent, canvas, scale, start, size)
  }

  /** The rounded layer hangs over the far edge by more than the pixels behind cover. */
  predicate ClipsEnd(extent: int, canvas: int, scale: real, start: int, size: int)
    requires scale > 0.0
  {
    var over := Overhang(extent, canvas, scale, start, size);
    && over >= 1
    && over * Reaching(extent, canvas, scale, start, size)
         > Behind(extent, canvas, scale, start, size) * Resampled(extent, canvas, scale, start, size)
  }

  lemma CeilShift(r: real, n: int)
    ensures (n as real - r).Floor == n - Ceil(r)
    ensures Ceil(n as real + r) == n + Ceil(r)
  {
  }

  /** The offset's first and last source positions, counted from the centred pixels. */
  lemma CentringQuotients(canvas: int, start: int, size: int, scale: real)
    requires scale > 0.0
    ensures var offset, q := Centring(canvas, start, size, scale), Quotient(Gap(canvas, size, scale), scale);
            && Quotient(-offset, scale) == start as real - q
            && Quotient(canvas as real - offset, scale) == (start + size) as real + q
  {
    hide Quotient;
    var gap, offset := Gap(canvas, size, scale), Centring(canvas, start, size, scale);
    var q := Quotient(gap, scale);
    QuotientTimes(gap, scale);
    assert (start as real - q) * scale == start as real * scale - q * scale;
    QuotientIs(-offset, scale, start as real - q);
    assert ((start + size) as real + q) * scale == start as real * scale + size as real * scale + q * scale;
    QuotientIs(canvas as real - offset, scale, (start + size) as real + q);
  }

  lemma GapReach(gap: real, scale: real)
    requires scale > 0.0 && gap >= 0.0
    ensures var n := Ceil(Quotient(gap, scale)); n >= 0 && gap <= Spread(scale, n) && (n >= 1 ==> Spread(scale, n - 1) < gap)
  {
    hide Quotient, Spread;
    var q := Quotient(gap, scale);
    QuotientTimes(gap, scale);
    SmallerFactor(0.0, q, scale);
    SpreadAround(scale, Ceil(q), q);
    SpreadAround(scale, Ceil(q) - 1, q);
  }

  lemma SpreadAround(scale: real, n: int, q: real)
    requires scale > 0.0
    ensures q <= n as real ==> q * scale <= Spread(scale, n)
    ensures n as real < q ==> Spread(scale, n) < q * scale
  {
    var x := n as real;
    SmallerFactor(q, x, scale);
  }

  /** The code's span, in terms of the photo: what is extracted, resampled, clipped and drawn. */
  lemma CentredSpan(extent: int, canvas: int, scale: real, start: int, size: int)
    requires scale > 0.0 && 0 <= start && size >= 1 && start + size <= extent && Gap(canvas, size, scale) >= 0.0
    ensures var span := PlaceAxis(extent, canvas, scale, Centring(canvas, start, size, scale));
            && span.sourceStart == start - Before(canvas, scale, start, size)
            && span.sourceEnd == start + size + Behind(extent, canvas, scale, start, size)
            && span.target == Resampled(extent, canvas, scale, start, size)
            && span.clip == MaxInt(0, -Origin(canvas, scale, start, size))
            && span.clip + span.visible == span.target - MaxInt(0, Overhang(extent, canvas, scale, start, size))
  {
    var offset, q := Centring(canvas, start, size, scale), Quotient(Gap(canvas, size, scale), scale);
    CentringQuotients(canvas, start, size, scale);
    CeilShift(q, start);
    CeilShift(q, start + size);
    GapReach(Gap(canvas, size, scale), scale);
    var before := Before(canvas, scale, start, size);
    SpreadSplits(scale, start - before, before);
    hide Quotient, Spread, Ceil, Round;
  }

  lemma RoundStrictly(r: real)
    ensures r - 0.5 < Round(r) as real
    ensures -1.5 <= r < -0.5 ==> Round(r) == -1
    ensures r >= -0.5 ==> Round(r) >= 0
  {
  }

  /** When pixels in front are clipped, it is one canvas pixel, and every source pixel that reaches the gap is there. */
  lemma ClipIsOne(gap: real, scale: real, start: int, reach: int, before: int, origin: int)
    requires 0.0 < scale <= FIT_VEHICLE_MAXIMUM_ENLARGEMENT && gap >= 0.0 && start >= 0 && reach >= 0
    requires gap <= Spread(scale, reach) && (reach >= 1 ==> Spread(scale, reach - 1) < gap)
    requires before == MinInt(start, reach) && origin == Round(gap - Spread(scale, before)) && origin < 0
    ensures origin == -1 && before == reach >= 1 && gap < Spread(scale, reach) - 0.5 && scale > 0.5 && gap > 0.0
  {
    hide Spread;
    RoundStrictly(gap - Spread(scale, before));
    if before == 0 { SpreadSplits(scale, 0, 0); }
    if before < reach { SpreadSplits(scale, before, reach - 1 - before); }
    SpreadSplits(scale, reach - 1, 1);
    OnePixel(scale);
    if reach >= 1 { SpreadSplits(scale, 0, reach - 1); }
  }

  lemma OnePixel(scale: real)
    ensures Spread(scale, 1) == scale && Spread(scale, 0) == 0.0
  {
  }

  /** At more than half size, a layer has at least half as many pixels as its source. */
  lemma HalfAtLeast(scale: real, width: int, target: int)
    requires scale > 0.5 && width >= 0 && target as real > Spread(scale, width) - 0.5
    ensures 2 * target >= width
  {
    ProductSign(scale - 0.5, width as real);
    assert width as real * scale == (scale - 0.5) * width as real + 0.5 * width as real;
  }

  /** The near edge loses part of what is wanted exactly when the canvas pixel clipped holds more than the one pixel in front. */
  lemma ClippedAtStart(gap: real, scale: real, start: int, reach: int, before: int, width: int, target: int, origin: int)
    requires 0.0 < scale <= FIT_VEHICLE_MAXIMUM_ENLARGEMENT && gap >= 0.0 && start >= 0 && width >= 1
    requires reach >= 0 && gap <= Spread(scale, reach) && (reach >= 1 ==> Spread(scale, reach - 1) < gap)
    requires before == MinInt(start, reach) && origin == Round(gap - Spread(scale, before))
    requires target >= 1 && target as real > Spread(scale, width) - 0.5
    ensures MaxInt(0, -origin) * width > before * target <==> start >= 1 && 0.0 < gap < scale - 0.5 && target < width
  {
    hide Spread;
    OnePixel(scale);
    if start >= 1 && 0.0 < gap < scale - 0.5 {
      if reach >= 2 { SpreadSplits(scale, 1, reach - 2); }
      assert reach == 1 && before == 1;
      RoundStrictly(gap - Spread(scale, before));
    } else {
      NatProduct(0, before, target);
      if origin < 0 {
        ClipIsOne(gap, scale, start, reach, before, origin);
        assert reach >= 2;
        HalfAtLeast(scale, width, target);
        NatProduct(2, before, target);
      }
    }
  }

  /** The far edge does exactly when the overhang is more than the pixels behind. */
  lemma ClippedAtEnd(width: int, behind: int, target: int, over: int)
    requires 0 <= behind <= width && target >= 1
    ensures (width - behind) * target <= (target - MaxInt(0, over)) * width <==> !(over >= 1 && over * width > behind * target)
  {
    assert (width - behind) * target == width * target - behind * target;
    assert (target - MaxInt(0, over)) * width == width * target - MaxInt(0, over) * width;
    NatProduct(0, behind, target);
  }

  lemma AxisStart(extent: int, canvas: int, scale: real, start: int, size: int)
    requires 0.0 < scale <= FIT_VEHICLE_MAXIMUM_ENLARGEMENT && 0 <= start && size >= 1 && start + size <= extent
    requires Gap(canvas, size, scale) >= 0.0
    ensures MaxInt(0, -Origin(canvas, scale, start, size)) * Reaching(extent, canvas, scale, start, size)
              > Before(canvas, scale, start, size) * Resampled(extent, canvas, scale, start, size)
            <==> ClipsStart(extent, canvas, scale, start, size)
  {
    GapReach(Gap(canvas, size, scale), scale);
    hide Quotient, Ceil, Spread, Gap;
    var width := Reaching(extent, canvas, scale, start, size);
    RoundStrictly(Spread(scale, width));
    ClippedAtStart(Gap(canvas, size, scale), scale, start, Ceil(Quotient(Gap(canvas, size, scale), scale)), Before(canvas, scale, start, size),
                   width, Resampled(extent, canvas, scale, start, size), Origin(canvas, scale, start, size));
  }

  /** On a centred axis, everything wanted is drawn exactly when neither edge clips it. */
  lemma AxisIsDrawn(extent: int, canvas: int, scale: real, start: int, size: int)
    requires 0.0 < scale <= FIT_VEHICLE_MAXIMUM_ENLARGEMENT && 0 <= start && size >= 1 && start + size <= extent
    requires Gap(canvas, size, scale) >= 0.0
    ensures Draws(PlaceAxis(extent, canvas, scale, Centring(canvas, start, size, scale)), start, size) <==>
              !ClipsStart(extent, canvas, scale, start, size) && !ClipsEnd(extent, canvas, scale, start, size)
  {
    CentredSpan(extent, canvas, scale, start, size);
    AxisStart(extent, canvas, scale, start, size);
    GapReach(Gap(canvas, size, scale), scale);
    ReachingParts(extent, canvas, scale, start, size);
    hide PlaceAxis, Quotient, Ceil, Spread, Gap, Centring, ClipsStart, Before, Behind, Reaching, Resampled, Origin, Overhang;
    ClippedAtEnd(Reaching(extent, canvas, scale, start, size), Behind(extent, canvas, scale, start, size),
                 Resampled(extent, canvas, scale, start, size), Overhang(extent, canvas, scale, start, size));
  }

  lemma ReachingParts(extent: int, canvas: int, scale: real, start: int, size: int)
    requires scale > 0.0 && 0 <= start && size >= 1 && start + size <= extent && Gap(canvas, size, scale) >= 0.0
    ensures 0 <= Behind(extent, canvas, scale, start, size) <= Reaching(extent, canvas, scale, start, size)
    ensures Reaching(extent, canvas, scale, start, size)
            == Before(canvas, scale, start, size) + size + Behind(extent, canvas, scale, start, size)
    ensures Resampled(extent, canvas, scale, start, size) >= 1
  {
    GapReach(Gap(canvas, size, scale), scale);
    hide Quotient, Ceil, Spread, Gap;
  }

  /** A gap of nothing, or of a whole pixel and more, clips nothing. */
  lemma WholeGapIsDrawn(extent: int, canvas: int, scale: real, start: int, size: int)
    requires 0.0 < scale <= FIT_VEHICLE_MAXIMUM_ENLARGEMENT && 0 <= start && size >= 1 && start + size <= extent && canvas >= 2
    requires Gap(canvas, size, scale) == 0.0 || Gap(canvas, size, scale) >= 1.0
    ensures Draws(PlaceAxis(extent, canvas, scale, Centring(canvas, start, size, scale)), start, size)
  {
    hide PlaceAxis, Draws;
    if Gap(canvas, size, scale) >= 1.0 {
      CentringCentres(canvas, start, size, scale, 1);
      CentredIsDrawn(extent, canvas, scale, Centring(canvas, start, size, scale), start, size, 1);
    } else {
      AxisIsDrawn(extent, canvas, scale, start, size);
      QuotientIs(0.0, scale, 0.0);
      hide Quotient;
      assert Before(canvas, scale, start, size) == 0 && Behind(extent, canvas, scale, start, size) == 0;
      OnePixel(scale);
      hide Spread;
      assert Overhang(extent, canvas, scale, start, size) == 0;
    }
  }

  // ----- the three modes -----

  lemma MarginIs(edge: int, paddingPercent: int)
    requires edge % 100 == 0
    ensures Margin(edge, paddingPercent) == edge / 100 * paddingPercent
  {
    var e := edge / 100;
    assert edge as real == 100.0 * e as real;
    assert edge as real * (paddingPercent as real / 100.0) == e as real * paddingPercent as real;
    CastProduct(e, paddingPercent);
  }

  lemma SpreadWithin(canvas: int, margin: int, size: int, scale: real)
    requires size >= 1 && scale <= Scaled(canvas, margin, size)
    ensures Spread(scale, size) <= (canvas - margin * 2) as real
  {
    hide Quotient;
    QuotientTimes((canvas - margin * 2) as real, size as real);
    SmallerFactor(scale, Scaled(canvas, margin, size), size as real);
  }

  lemma ScaledIsPositive(canvas: int, margin: int, size: int)
    requires size >= 1 && canvas - margin * 2 > 0
    ensures Scaled(canvas, margin, size) > 0.0
  {
    hide Quotient;
    QuotientSign((canvas - margin * 2) as real, size as real);
  }

  lemma CentringCentres(canvas: int, start: int, size: int, scale: real, margin: int)
    requires size >= 1 && scale > 0.0 && Spread(scale, size) <= (canvas - margin * 2) as real
    ensures Centred(canvas, scale, Centring(canvas, start, size, scale), start, size, margin)
  {
    hide Spread;
    SpreadSplits(scale, start, size);
  }

  /** Both axes of the drawn layer are in bounds and hold the box, which is centred within the margin. */
  predicate KeepsBox(box: SubjectBox, width: int, height: int, framing: VehicleFraming, margin: int) {
    && framing.scale > 0.0
    && Centred(framing.canvasWidth, framing.scale, framing.offsetX, box.left, box.width, margin)
    && Centred(framing.canvasHeight, framing.scale, framing.offsetY, box.top, box.height, margin)
    && var layer := PlaceCutoutLayer(width, height, framing);
       && InBounds(layer.across, width, framing.canvasWidth) && InBounds(layer.down, height, framing.canvasHeight)
       && Extracts(layer.across, box.left, box.width) && Extracts(layer.down, box.top, box.height)
  }

  predicate DrawsBox(box: SubjectBox, width: int, height: int, framing: VehicleFraming)
    requires framing.scale > 0.0
  {
    var layer := PlaceCutoutLayer(width, height, framing);
    Draws(layer.across, box.left, box.width) && Draws(layer.down, box.top, box.height)
  }

  lemma CentredBoxIsKept(box: SubjectBox, width: int, height: int, framing: VehicleFraming, margin: int)
    requires InCutout(box, width, height) && framing.scale > 0.0 && margin >= 0 && framing.canvasWidth >= 2 && framing.canvasHeight >= 2
    requires Centred(framing.canvasWidth, framing.scale, framing.offsetX, box.left, box.width, margin)
    requires Centred(framing.canvasHeight, framing.scale, framing.offsetY, box.top, box.height, margin)
    ensures KeepsBox(box, width, height, framing, margin)
    ensures margin >= 1 ==> DrawsBox(box, width, height, framing)
  {
    hide Centred, PlaceAxis, InBounds, Extracts, Draws;
    CentredIsExtracted(width, framing.canvasWidth, framing.scale, framing.offsetX, box.left, box.width, margin);
    CentredIsExtracted(height, framing.canvasHeight, framing.scale, framing.offsetY, box.top, box.height, margin);
    CentredIsInBounds(width, framing.canvasWidth, framing.scale, framing.offsetX, box.left, box.width, margin);
    CentredIsInBounds(height, framing.canvasHeight, framing.scale, framing.offsetY, box.top, box.height, margin);
    if margin >= 1 {
      CentredIsDrawn(width, framing.canvasWidth, framing.scale, framing.offsetX, box.left, box.width, margin);
      CentredIsDrawn(height, framing.canvasHeight, framing.scale, framing.offsetY, box.top, box.height, margin);
    }
  }

  /** Fit mode extracts the whole content box, centres it inside the padding and enlarges it by 1.3 at most. */
  lemma FitKeepsContent(content: SubjectBox, width: int, height: int, paddingPercent: int)
    requires InCutout(content, width, height) && ValidPadding(paddingPercent)
    ensures var framing := FrameVehicle(content, FitToVehicle, width, height, paddingPercent);
            && KeepsBox(content, width, height, framing, 12 * paddingPercent)
            && framing.scale <= FIT_VEHICLE_MAXIMUM_ENLARGEMENT
            && (paddingPercent >= 1 ==> DrawsBox(content, width, height, framing))
  {
    hide Centred, Centring, Scaled, Margin, KeepsBox, DrawsBox;
    var margin := 12 * paddingPercent;
    MarginIs(FIT_OUTPUT_HEIGHT_PIXELS, paddingPercent);
    ScaledIsPositive(FIT_OUTPUT_WIDTH_PIXELS, margin, content.width);
    ScaledIsPositive(FIT_OUTPUT_HEIGHT_PIXELS, margin, content.height);
    var framing := FrameVehicle(content, FitToVehicle, width, height, paddingPercent);
    SpreadWithin(FIT_OUTPUT_WIDTH_PIXELS, margin, content.width, framing.scale);
    SpreadWithin(FIT_OUTPUT_HEIGHT_PIXELS, margin, content.height, framing.scale);
    CentringCentres(FIT_OUTPUT_WIDTH_PIXELS, content.left, content.width, framing.scale, margin);
    CentringCentres(FIT_OUTPUT_HEIGHT_PIXELS, content.top, content.height, framing.scale, margin);
    CentredBoxIsKept(content, width, height, framing, margin);
  }

  /** Fit mode cuts no content: every pixel at or above the content threshold is extracted and lands inside the padding. */
  lemma FitCutsNoContentPixel(alpha: seq<Byte>, width: nat, height: nat, content: SubjectBox, paddingPercent: int, i: int)
    requires width > 0 && |alpha| == width * height && IsTight(alpha, width, CONTENT_ALPHA_THRESHOLD, content)
    requires ValidPadding(paddingPercent) && Reaches(alpha, CONTENT_ALPHA_THRESHOLD, i)
    ensures InCutout(content, width, height)
    ensures var framing := FrameVehicle(content, FitToVehicle, width, height, paddingPercent);
            framing.scale > 0.0 &&
            var layer, x, y := PlaceCutoutLayer(width, height, framing), Column(width, i), Row(width, i);
            && Extracts(layer.across, x, 1) && Extracts(layer.down, y, 1)
            && (12 * paddingPercent) as real <= framing.offsetX + Spread(framing.scale, x)
            && framing.offsetX + Spread(framing.scale, x + 1) <= (1600 - 12 * paddingPercent) as real
            && (12 * paddingPercent) as real <= framing.offsetY + Spread(framing.scale, y)
            && framing.offsetY + Spread(framing.scale, y + 1) <= (1200 - 12 * paddingPercent) as real
  {
    TightBoxIsInRaster(alpha, width, height, CONTENT_ALPHA_THRESHOLD, content);
    var x, y := Column(width, i), Row(width, i);
    assert InBox(content, x, y);
    hide IsTight, Reaches, Column, Row, Spread, PlaceAxis;
    FitKeepsContent(content, width, height, paddingPercent);
    var framing := FrameVehicle(content, FitToVehicle, width, height, paddingPercent);
    hide FrameVehicle;
    PixelLands(framing.scale, framing.offsetX, 1600, 12 * paddingPercent, content.left, content.width, x);
    PixelLands(framing.scale, framing.offsetY, 1200, 12 * paddingPercent, content.top, content.height, y);
  }

  lemma PixelLands(scale: real, offset: real, canvas: int, margin: int, start: int, size: int, x: int)
    requires scale > 0.0 && start <= x < start + size && Centred(canvas, scale, offset, start, size, margin)
    ensures margin as real <= offset + Spread(scale, x) && offset + Spread(scale, x + 1) <= (canvas - margin) as real
  {
    hide Spread;
    SpreadSplits(scale, start, x - start);
    SpreadSplits(scale, x + 1, start + size - (x + 1));
  }

  /** Without padding, rounding may clip the content's first row: this one loses its top row. */
  lemma FitWithoutPaddingMayClip()
    ensures var content := SubjectBox(0, 1, 2667, 2000);
            && InCutout(content, 2667, 2001)
            && FrameVehicle(content, FitToVehicle, 2667, 2001, 0).scale > 0.0
            && !DrawsBox(content, 2667, 2001, FrameVehicle(content, FitToVehicle, 2667, 2001, 0))
  {
    var content := SubjectBox(0, 1, 2667, 2000);
    MarginIs(FIT_OUTPUT_HEIGHT_PIXELS, 0);
    var scale := 1600.0 / 2667.0;
    assert Scaled(FIT_OUTPUT_WIDTH_PIXELS, 0, 2667) == scale && Scaled(FIT_OUTPUT_HEIGHT_PIXELS, 0, 2000) == 0.6;
    var framing := FrameVehicle(content, FitToVehicle, 2667, 2001, 0);
    assert framing.scale == scale;
    var offset := (1200.0 - 2000.0 * scale) / 2.0 - scale;
    assert framing.offsetY == offset;
    assert -0.53 < offset < -0.52;
    var span := PlaceAxis(2001, 1200, scale, offset);
    assert 0.86 < Quotient(-offset, scale) < 0.89;
    assert Quotient(1200.0 - offset, scale) > 2001.0;
    assert span.sourceStart == 0 && span.sourceEnd == 2001 && span.target == 1200;
    assert span.clip == 1;
  }

  /** Nor need the last row be drawn: this content touches the top of its photo and loses part of its bottom row. */
  lemma FitWithoutPaddingMayClipEnd()
    ensures var content := SubjectBox(0, 0, 3200, 2398);
            && InCutout(content, 3200, 2399)
            && FrameVehicle(content, FitToVehicle, 3200, 2399, 0).scale > 0.0
            && !DrawsBox(content, 3200, 2399, FrameVehicle(content, FitToVehicle, 3200, 2399, 0))
  {
    var content := SubjectBox(0, 0, 3200, 2398);
    MarginIs(FIT_OUTPUT_HEIGHT_PIXELS, 0);
    assert Scaled(FIT_OUTPUT_WIDTH_PIXELS, 0, 3200) == 0.5 && Scaled(FIT_OUTPUT_HEIGHT_PIXELS, 0, 2398) > 0.5;
    var framing := FrameVehicle(content, FitToVehicle, 3200, 2399, 0);
    assert framing.scale == 0.5 && framing.offsetY == 0.5;
    assert Quotient(-0.5, 0.5) == -1.0 && Quotient(1199.5, 0.5) == 2399.0;
    var span := PlaceAxis(2399, 1200, 0.5, 0.5);
    assert span == Span(0, 2399, 1200, 0, 1, 1199);
  }

  /** Fit mode clips the content on one of its axes. */
  predicate FitClips(content: SubjectBox, width: int, height: int, scale: real)
    requires scale > 0.0
  {
    || ClipsStart(width, FIT_OUTPUT_WIDTH_PIXELS, scale, content.left, content.width)
    || ClipsEnd(width, FIT_OUTPUT_WIDTH_PIXELS, scale, content.left, content.width)
    || ClipsStart(height, FIT_OUTPUT_HEIGHT_PIXELS, scale, content.top, content.height)
    || ClipsEnd(height, FIT_OUTPUT_HEIGHT_PIXELS, scale, content.top, content.height)
  }

  /** The framing of fit mode: both axes centred at one scale, with at least the padding as gap. */
  lemma FitGaps(content: SubjectBox, width: int, height: int, paddingPercent: int)
    requires InCutout(content, width, height) && ValidPadding(paddingPercent)
    ensures var framing := FrameVehicle(content, FitToVehicle, width, height, paddingPercent);
            && 0.0 < framing.scale <= FIT_VEHICLE_MAXIMUM_ENLARGEMENT
            && framing.canvasWidth == FIT_OUTPUT_WIDTH_PIXELS && framing.canvasHeight == FIT_OUTPUT_HEIGHT_PIXELS
            && framing.offsetX == Centring(FIT_OUTPUT_WIDTH_PIXELS, content.left, content.width, framing.scale)
            && framing.offsetY == Centring(FIT_OUTPUT_HEIGHT_PIXELS, content.top, content.height, framing.scale)
            && Gap(FIT_OUTPUT_WIDTH_PIXELS, content.width, framing.scale) >= (12 * paddingPercent) as real
            && Gap(FIT_OUTPUT_HEIGHT_PIXELS, content.height, framing.scale) >= (12 * paddingPercent) as real
  {
    hide Scaled, Margin, Spread, Centring;
    MarginIs(FIT_OUTPUT_HEIGHT_PIXELS, paddingPercent);
    ScaledIsPositive(FIT_OUTPUT_WIDTH_PIXELS, 12 * paddingPercent, content.width);
    ScaledIsPositive(FIT_OUTPUT_HEIGHT_PIXELS, 12 * paddingPercent, content.height);
    var scale := FrameVehicle(content, FitToVehicle, width, height, paddingPercent).scale;
    SpreadWithin(FIT_OUTPUT_WIDTH_PIXELS, 12 * paddingPercent, content.width, scale);
    SpreadWithin(FIT_OUTPUT_HEIGHT_PIXELS, 12 * paddingPercent, content.height, scale);
  }

  /** For every photo, content box and padding: fit mode draws the content whole exactly when no axis clips it. */
  lemma FitDrawsContentExactly(content: SubjectBox, width: int, height: int, paddingPercent: int)
    requires InCutout(content, width, height) && ValidPadding(paddingPercent)
    ensures var framing := FrameVehicle(content, FitToVehicle, width, height, paddingPercent);
            framing.scale > 0.0 && (DrawsBox(content, width, height, framing) <==> !FitClips(content, width, height, framing.scale))
  {
    FitGaps(content, width, height, paddingPercent);
    hide FrameVehicle, PlaceAxis, Draws, Gap, Centring, ClipsStart, ClipsEnd;
    var scale := FrameVehicle(content, FitToVehicle, width, height, paddingPercent).scale;
    AxisIsDrawn(width, FIT_OUTPUT_WIDTH_PIXELS, scale, content.left, content.width);
    AxisIsDrawn(height, FIT_OUTPUT_HEIGHT_PIXELS, scale, content.top, content.height);
  }

  /** Only a gap that is a fraction of a pixel can clip: none, or a whole pixel and more, is safe at any padding. */
  lemma FitDrawsUnlessGapIsFraction(content: SubjectBox, width: int, height: int, paddingPercent: int)
    requires InCutout(content, width, height) && ValidPadding(paddingPercent)
    ensures var framing := FrameVehicle(content, FitToVehicle, width, height, paddingPercent);
            && framing.scale > 0.0
            && var across := Gap(FIT_OUTPUT_WIDTH_PIXELS, content.width, framing.scale);
               var down := Gap(FIT_OUTPUT_HEIGHT_PIXELS, content.height, framing.scale);
               (across == 0.0 || across >= 1.0) && (down == 0.0 || down >= 1.0) ==> DrawsBox(content, width, height, framing)
  {
    FitGaps(content, width, height, paddingPercent);
    hide FrameVehicle, PlaceAxis, Draws, Gap, Centring;
    var scale := FrameVehicle(content, FitToVehicle, width, height, paddingPercent).scale;
    var across, down := Gap(FIT_OUTPUT_WIDTH_PIXELS, content.width, scale), Gap(FIT_OUTPUT_HEIGHT_PIXELS, content.height, scale);
    if (across == 0.0 || across >= 1.0) && (down == 0.0 || down >= 1.0) {
      WholeGapIsDrawn(width, FIT_OUTPUT_WIDTH_PIXELS, scale, content.left, content.width);
      WholeGapIsDrawn(height, FIT_OUTPUT_HEIGHT_PIXELS, scale, content.top, content.height);
    }
  }

  /** The paddings that are safe for every photo at once: all but none. */
  lemma PaddingIsSafeUnlessNone(paddingPercent: int)
    requires ValidPadding(paddingPercent)
    ensures paddingPercent >= 1 <==>
              forall content, width, height :: InCutout(content, width, height) ==>
                var framing := FrameVehicle(content, FitToVehicle, width, height, paddingPercent);
                framing.scale > 0.0 && DrawsBox(content, width, height, framing)
  {
    hide DrawsBox, FrameVehicle;
    if paddingPercent >= 1 {
      forall content, width, height | InCutout(content, width, height)
        ensures var framing := FrameVehicle(content, FitToVehicle, width, height, paddingPercent);
                framing.scale > 0.0 && DrawsBox(content, width, height, framing)
      {
        FitKeepsContent(content, width, height, paddingPercent);
      }
    } else {
      FitWithoutPaddingMayClip();
    }
  }

  /** Square mode shows the whole photo, centred inside the padding, never enlarged, and clips nothing at all. */
  lemma SquareKeepsPhoto(content: SubjectBox, width: int, height: int, paddingPercent: int)
    requires InCutout(content, width, height) && ValidPadding(paddingPercent)
    ensures var framing, photo := FrameVehicle(content, Square, width, height, paddingPercent), SubjectBox(0, 0, width, height);
            && KeepsBox(photo, width, height, framing, 16 * paddingPercent) && framing.scale <= 1.0
            && var layer := PlaceCutoutLayer(width, height, framing);
               layer.across.clip == 0 && layer.across.visible == layer.across.target
               && layer.down.clip == 0 && layer.down.visible == layer.down.target
  {
    hide Centred, Centring, Scaled, Margin, KeepsBox, DrawsBox, PlaceAxis;
    var margin, edge := 16 * paddingPercent, SQUARE_OUTPUT_EDGE_PIXELS;
    MarginIs(edge, paddingPercent);
    ScaledIsPositive(edge, margin, width);
    ScaledIsPositive(edge, margin, height);
    var framing := FrameVehicle(content, Square, width, height, paddingPercent);
    SpreadWithin(edge, margin, width, framing.scale);
    SpreadWithin(edge, margin, height, framing.scale);
    CentringCentres(edge, 0, width, framing.scale, margin);
    CentringCentres(edge, 0, height, framing.scale, margin);
    CentredBoxIsKept(SubjectBox(0, 0, width, height), width, height, framing, margin);
    WholeAxisIsDrawn(width, edge, framing.scale, framing.offsetX, margin);
    WholeAxisIsDrawn(height, edge, framing.scale, framing.offsetY, margin);
  }

  lemma WholeAxisIsDrawn(extent: int, canvas: int, scale: real, offset: real, margin: int)
    requires extent >= 1 && canvas >= 3 && scale > 0.0 && margin >= 0 && Centred(canvas, scale, offset, 0, extent, margin)
    ensures var span := PlaceAxis(extent, canvas, scale, offset); span.clip == 0 && span.visible == span.target
  {
    CentredIsExtracted(extent, canvas, scale, offset, 0, extent, margin);
    hide Quotient, Ceil, Spread;
    assert Spread(scale, 0) == 0.0 by { SpreadSplits(scale, 0, 0); }
    var span := PlaceAxis(extent, canvas, scale, offset);
    assert span.sourceStart == 0 && span.sourceEnd == extent;
    var at, target := Round(offset), Round(Spread(scale, extent));
    assert at as real <= offset + 0.5 && target as real <= Spread(scale, extent) + 0.5;
    if offset == 0.0 { assert at == 0 && target == canvas; }
  }

  /** Composition mode keeps the photo at its own size, pixel for pixel, with the padding around it. */
  lemma MaintainIsExact(content: SubjectBox, width: int, height: int, paddingPercent: int)
    requires InCutout(content, width, height) && ValidPadding(paddingPercent)
    ensures var framing := FrameVehicle(content, MaintainComposition, width, height, paddingPercent);
            && framing.scale == 1.0 && framing.canvasWidth - width == framing.canvasHeight - height
            && var padding := (framing.canvasWidth - width) / 2;
               && padding >= 0
               && PlaceCutoutLayer(width, height, framing) == PlacedLayer(Span(0, width, width, 0, padding, width),
                                                                      Span(0, height, height, 0, padding, height))
  {
    hide Margin, PlaceAxis;
    var padding := Margin(MinInt(width, height), paddingPercent);
    MarginIsNatural(MinInt(width, height), paddingPercent);
    UnscaledAxis(width, padding);
    UnscaledAxis(height, padding);
  }

  lemma MarginIsNatural(edge: int, paddingPercent: int)
    requires edge >= 0 && paddingPercent >= 0
    ensures Margin(edge, paddingPercent) >= 0
  {
    Product(0.0, edge as real, paddingPercent as real / 100.0);
  }

  lemma UnscaledAxis(extent: int, padding: int)
    requires extent >= 1 && padding >= 0
    ensures PlaceAxis(extent, extent + padding * 2, 1.0, padding as real) == Span(0, extent, extent, 0, padding, extent)
  {
    QuotientIs(-(padding as real), 1.0, -(padding as real));
    QuotientIs((extent + padding) as real, 1.0, (extent + padding) as real);
    hide Quotient;
    assert Spread(1.0, extent) == extent as real && Spread(1.0, 0) == 0.0;
  }
}
