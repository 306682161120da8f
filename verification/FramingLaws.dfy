/** How large the framing draws a photo, and where an axis of it lands, in canvas pixels. */
module FramingLaws {
  import opened AlphaBounds
  import opened Framing
  import opened Numbers

  // ----- the scales are the largest allowed -----

  lemma ScaledFills(canvas: int, margin: int, size: int, scale: real)
    requires size >= 1
    ensures scale <= Scaled(canvas, margin, size) <==> size as real * scale <= (canvas - margin * 2) as real
    ensures scale == Scaled(canvas, margin, size) ==> size as real * scale == (canvas - margin * 2) as real
  {
    hide Quotient;
    QuotientTimes((canvas - margin * 2) as real, size as real);
    SmallerFactor(scale, Scaled(canvas, margin, size), size as real);
  }

  /**
   * Fit mode draws the content on 1600 by 1200, as large as the padding lets it and at most 1.3 times its size: one of
   * the three limits is reached.
   */
  lemma FitIsLargest(content: SubjectBox, width: int, height: int, paddingPercent: int)
    requires InCutout(content, width, height) && ValidPadding(paddingPercent)
    ensures var framing := FrameVehicle(content, FitToVehicle, width, height, paddingPercent);
            var across, down := content.width as real * framing.scale, content.height as real * framing.scale;
            && framing.canvasWidth == 1600 && framing.canvasHeight == 1200
            && framing.scale <= 1.3 && across <= (1600 - 24 * paddingPercent) as real && down <= (1200 - 24 * paddingPercent) as real
            && (framing.scale == 1.3 || across == (1600 - 24 * paddingPercent) as real || down == (1200 - 24 * paddingPercent) as real)
  {
    hide Scaled, Centring, Margin;
    MarginIs(FIT_OUTPUT_HEIGHT_PIXELS, paddingPercent);
    var framing := FrameVehicle(content, FitToVehicle, width, height, paddingPercent);
    ScaledFills(FIT_OUTPUT_WIDTH_PIXELS, 12 * paddingPercent, content.width, framing.scale);
    ScaledFills(FIT_OUTPUT_HEIGHT_PIXELS, 12 * paddingPercent, content.height, framing.scale);
  }

  /** Square mode draws the photo on 1600 by 1600, as large as the padding lets it and at most at its size. */
  lemma SquareIsLargest(content: SubjectBox, width: int, height: int, paddingPercent: int)
    requires InCutout(content, width, height) && ValidPadding(paddingPercent)
    ensures var framing := FrameVehicle(content, Square, width, height, paddingPercent);
            var across, down := width as real * framing.scale, height as real * framing.scale;
            && framing.canvasWidth == 1600 && framing.canvasHeight == 1600
            && framing.scale <= 1.0 && across <= (1600 - 32 * paddingPercent) as real && down <= (1600 - 32 * paddingPercent) as real
            && (framing.scale == 1.0 || across == (1600 - 32 * paddingPercent) as real || down == (1600 - 32 * paddingPercent) as real)
  {
    hide Scaled, Centring, Margin;
    MarginIs(SQUARE_OUTPUT_EDGE_PIXELS, paddingPercent);
    var framing := FrameVehicle(content, Square, width, height, paddingPercent);
    ScaledFills(SQUARE_OUTPUT_EDGE_PIXELS, 16 * paddingPercent, width, framing.scale);
    ScaledFills(SQUARE_OUTPUT_EDGE_PIXELS, 16 * paddingPercent, height, framing.scale);
  }

  /** Composition mode pads every side by the percentage of the shorter edge, to the nearest pixel. */
  lemma CompositionPadding(content: SubjectBox, width: int, height: int, paddingPercent: int)
    requires InCutout(content, width, height) && ValidPadding(paddingPercent)
    ensures var framing := FrameVehicle(content, MaintainComposition, width, height, paddingPercent);
            var shorter, padding := if width <= height then width else height, (framing.canvasWidth - width) / 2;
            && framing.canvasWidth == width + 2 * padding && framing.canvasHeight == height + 2 * padding
            && -50 < 100 * padding - shorter * paddingPercent <= 50
  {
    hide Margin;
    MarginIsNearest(MinInt(width, height), paddingPercent);
  }

  lemma MarginIsNearest(edge: int, paddingPercent: int)
    ensures -50 < 100 * Margin(edge, paddingPercent) - edge * paddingPercent <= 50
  {
    var m := edge as real * (paddingPercent as real / 100.0);
    assert 100.0 * m == edge as real * paddingPercent as real;
    CastProduct(edge, paddingPercent);
    RoundBounds(m);
    assert 100.0 * Round(m) as real == (100 * Round(m)) as real;
  }

  // ----- one axis of the layer -----

  /** Source pixel `x` has part of its image on the canvas. */
  ghost predicate ReachesCanvas(canvas: int, scale: real, offset: real, x: int) {
    offset + x as real * scale < canvas as real && offset + (x + 1) as real * scale > 0.0
  }

  /** Before the first extracted pixel none reaches the canvas, and that one does unless it is the last there is. */
  lemma StartReaches(offset: real, scale: real, x: int)
    requires scale > 0.0
    ensures x < Quotient(-offset, scale).Floor ==> offset + (x + 1) as real * scale <= 0.0
    ensures x >= Quotient(-offset, scale).Floor ==> offset + (x + 1) as real * scale > 0.0
  {
    hide Quotient;
    var q := Quotient(-offset, scale);
    QuotientTimes(-offset, scale);
    SmallerFactor((x + 1) as real, q, scale);
    SmallerFactor(q, (x + 1) as real, scale);
    if x >= q.Floor { StrictlySmaller(q, (x + 1) as real, scale); }
  }

  lemma StrictlySmaller(x: real, y: real, d: real)
    requires d > 0.0 && x < y
    ensures x * d < y * d
  {
    assert (y - x) * d > 0.0;
  }

  lemma EndReaches(offset: real, scale: real, canvas: int, x: int)
    requires scale > 0.0
    ensures x < Ceil(Quotient(canvas as real - offset, scale)) <==> offset + x as real * scale < canvas as real
  {
    hide Quotient;
    var q := Quotient(canvas as real - offset, scale);
    QuotientTimes(canvas as real - offset, scale);
    if x as real < q { StrictlySmaller(x as real, q, scale); } else { SmallerFactor(q, x as real, scale); }
  }

  /** Every pixel that reaches the canvas is extracted, and where any does, only those are. */
  lemma ExtractsWhatReaches(extent: int, canvas: int, scale: real, offset: real, x: int)
    requires extent >= 1 && scale > 0.0 && 0 <= x < extent
    ensures var span := PlaceAxis(extent, canvas, scale, offset);
            && (ReachesCanvas(canvas, scale, offset, x) ==> span.sourceStart <= x < span.sourceEnd)
            && ((exists z :: 0 <= z < extent && ReachesCanvas(canvas, scale, offset, z)) ==>
                  (span.sourceStart <= x < span.sourceEnd ==> ReachesCanvas(canvas, scale, offset, x)))
  {
    hide Quotient, Ceil, Round, Spread;
    StartReaches(offset, scale, x);
    EndReaches(offset, scale, canvas, x);
    if z :| 0 <= z < extent && ReachesCanvas(canvas, scale, offset, z) {
      StartReaches(offset, scale, z);
      EndReaches(offset, scale, canvas, z);
    }
  }

  /**
   * The extracted pixels become their number times the scale, to the nearest pixel but at least one; the first lands on
   * the canvas pixel nearest its place, what lies before the canvas is clipped, and what is left is drawn up to its edge.
   */
  lemma AxisLandsNearest(extent: int, canvas: int, scale: real, offset: real)
    requires extent >= 1 && scale > 0.0
    ensures var span := PlaceAxis(extent, canvas, scale, offset);
            var wanted, place := (span.sourceEnd - span.sourceStart) as real * scale, offset + span.sourceStart as real * scale;
            && 0 <= span.sourceStart < span.sourceEnd <= extent
            && ((span.target == 1 && wanted < 0.5) || (-0.5 < span.target as real - wanted <= 0.5))
            && -0.5 < (span.at - span.clip) as real - place <= 0.5
            && span.at >= 0 && span.clip >= 0 && (span.at == 0 || span.clip == 0)
            && (span.clip + span.visible == span.target || span.at + span.visible == canvas)
            && span.clip + span.visible <= span.target && span.at + span.visible <= canvas
  {
    hide Quotient, Ceil, Round;
    var span := PlaceAxis(extent, canvas, scale, offset);
    RoundBounds(Spread(scale, span.sourceEnd - span.sourceStart));
    RoundBounds(offset + Spread(scale, span.sourceStart));
  }
}
