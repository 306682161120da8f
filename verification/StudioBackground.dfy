/** Which part of the background artwork is shown on the canvas, over exact reals. */
module StudioBackground {
  import opened Numbers
  import opened Options

  datatype Asset = Asset(width: real, height: real, seamY: Option<real>)

  datatype Placement = Placement(left: real, top: real, width: real, height: real)

  predicate ValidAsset(asset: Asset) {
    asset.width > 0.0 && asset.height > 0.0 && (asset.seamY.Some? ==> 0.0 < asset.seamY.value < asset.height)
  }

  function Cover(asset: Asset, canvasWidth: real, canvasHeight: real): real
    requires ValidAsset(asset)
  {
    Max(Quotient(canvasWidth, asset.width), Quotient(canvasHeight, asset.height))
  }

  function Scale(asset: Asset, canvasWidth: real, canvasHeight: real, targetSeamY: real): (scale: real)
    requires ValidAsset(asset) && canvasWidth > 0.0 && canvasHeight > 0.0
    ensures scale > 0.0
  {
    QuotientSign(canvasWidth, asset.width);
    var cover := Cover(asset, canvasWidth, canvasHeight);
    match asset.seamY
    case None => cover
    case Some(seamY) =>
      var seam := Clamp(targetSeamY, 0.0, canvasHeight);
      Max(Max(cover, Quotient(seam, seamY)), Quotient(canvasHeight - seam, asset.height - seamY))
  }

  function OffsetX(asset: Asset, scale: real, canvasWidth: real): real {
    (canvasWidth - asset.width * scale) / 2.0
  }

  function OffsetY(asset: Asset, scale: real, canvasHeight: real, targetSeamY: real): real {
    match asset.seamY
    case None => (canvasHeight - asset.height * scale) / 2.0
    case Some(seamY) => Clamp(targetSeamY, 0.0, canvasHeight) - seamY * scale
  }

  function PlaceStudioBackground(asset: Asset, canvasWidth: real, canvasHeight: real, targetSeamY: real): Placement
    requires ValidAsset(asset) && canvasWidth > 0.0 && canvasHeight > 0.0
  {
    var scale := Scale(asset, canvasWidth, canvasHeight, targetSeamY);
    var offsetX, offsetY := OffsetX(asset, scale, canvasWidth), OffsetY(asset, scale, canvasHeight, targetSeamY);
    var width, height := Min(asset.width, Quotient(canvasWidth, scale)), Min(asset.height, Quotient(canvasHeight, scale));
    Placement(Clamp(Quotient(-offsetX, scale), 0.0, asset.width - width), Clamp(Quotient(-offsetY, scale), 0.0, asset.height - height),
              width, height)
  }

  // ----- one axis: a window of `size` canvas pixels in `extent` asset pixels, at scale `s` -----

  predicate FitsAxis(extent: real, size: real, s: real, start: real) {
    0.0 <= start && start * s + size <= extent * s
  }

  lemma CoverIsLeast(extent: real, size: real, s: real, start: real)
    requires extent > 0.0 && s > 0.0 && FitsAxis(extent, size, s, start)
    ensures Quotient(size, extent) <= s
  {
    hide Quotient;
    ProductSign(start, s);
    QuotientAtMost(size, extent, s);
  }

  lemma SeamIsLeast(extent: real, size: real, s: real, start: real, y: real, seam: real)
    requires 0.0 < y < extent && s > 0.0 && FitsAxis(extent, size, s, start) && (y - start) * s == seam
    ensures Quotient(seam, y) <= s && Quotient(size - seam, extent - y) <= s
  {
    hide Quotient;
    ProductSign(start, s);
    assert (y - start) * s == y * s - start * s && (extent - y) * s == extent * s - y * s;
    QuotientAtMost(seam, y, s);
    QuotientAtMost(size - seam, extent - y, s);
  }

  /** The window is as wide as the canvas at this scale, and fits. */
  lemma WindowFits(extent: real, size: real, s: real)
    requires extent > 0.0 && s > 0.0 && Quotient(size, extent) <= s
    ensures Quotient(size, s) <= extent && Quotient(size, s) * s == size
  {
    hide Quotient;
    QuotientAtMost(size, extent, s);
    QuotientAtMost(size, s, extent);
    QuotientTimes(size, s);
  }

  lemma CentredStart(extent: real, size: real, s: real)
    requires s > 0.0
    ensures Quotient(-((size - extent * s) / 2.0), s) == (extent - Quotient(size, s)) / 2.0
  {
    hide Quotient;
    var q := Quotient(size, s);
    QuotientTimes(size, s);
    assert (extent - q) / 2.0 * s == (extent * s - q * s) / 2.0;
    QuotientIs(-((size - extent * s) / 2.0), s, (extent - q) / 2.0);
  }

  /** Where the window starts so that the seam shows at its target, and why it then fits. */
  lemma SeamStart(extent: real, size: real, s: real, y: real, seam: real, offset: real)
    requires 0.0 < y < extent && s > 0.0 && offset == seam - y * s && Quotient(seam, y) <= s && Quotient(size - seam, extent - y) <= s
    ensures var start := Quotient(-offset, s); (y - start) * s == seam && 0.0 <= start <= extent - Quotient(size, s)
  {
    hide Quotient;
    var start, q := Quotient(-offset, s), Quotient(size, s);
    QuotientTimes(-offset, s);
    QuotientTimes(size, s);
    assert (y - start) * s == y * s - start * s;
    QuotientAtMost(seam, y, s);
    QuotientAtMost(size - seam, extent - y, s);
    assert (extent - y) * s == extent * s - y * s && (extent - q) * s == extent * s - q * s;
    SmallerFactor(0.0, start, s);
    SmallerFactor(start, extent - q, s);
  }

  lemma FitsInAsset(extent: real, size: real, s: real, start: real)
    requires s > 0.0 && 0.0 <= start <= extent - Quotient(size, s)
    ensures FitsAxis(extent, size, s, start)
  {
    hide Quotient;
    QuotientTimes(size, s);
    var q := Quotient(size, s);
    SmallerFactor(start, extent - q, s);
    assert (extent - q) * s == extent * s - q * s;
  }

  // ----- the placement -----

  /** At scale `s` the region at `left`, `top` fits the asset and shows the seam, if any, at `seam`. */
  predicate Fits(asset: Asset, canvasWidth: real, canvasHeight: real, seam: real, s: real, left: real, top: real) {
    && s > 0.0 && FitsAxis(asset.width, canvasWidth, s, left) && FitsAxis(asset.height, canvasHeight, s, top)
    && (asset.seamY.Some? ==> (asset.seamY.value - top) * s == seam)
  }

  /** No smaller scale fits anywhere. */
  lemma ScaleIsLeast(asset: Asset, canvasWidth: real, canvasHeight: real, targetSeamY: real, s: real, left: real, top: real)
    requires ValidAsset(asset) && canvasWidth > 0.0 && canvasHeight > 0.0
    requires Fits(asset, canvasWidth, canvasHeight, Clamp(targetSeamY, 0.0, canvasHeight), s, left, top)
    ensures Scale(asset, canvasWidth, canvasHeight, targetSeamY) <= s
  {
    hide Clamp, Quotient, FitsAxis;
    CoverIsLeast(asset.width, canvasWidth, s, left);
    CoverIsLeast(asset.height, canvasHeight, s, top);
    if asset.seamY.Some? {
      SeamIsLeast(asset.height, canvasHeight, s, top, asset.seamY.value, Clamp(targetSeamY, 0.0, canvasHeight));
    }
  }

  /** What the scale is large enough for. */
  lemma ScaleSuffices(asset: Asset, canvasWidth: real, canvasHeight: real, targetSeamY: real)
    requires ValidAsset(asset) && canvasWidth > 0.0 && canvasHeight > 0.0
    ensures var s, seam := Scale(asset, canvasWidth, canvasHeight, targetSeamY), Clamp(targetSeamY, 0.0, canvasHeight);
            && Quotient(canvasWidth, asset.width) <= s && Quotient(canvasHeight, asset.height) <= s
            && (asset.seamY.Some? ==>
                  Quotient(seam, asset.seamY.value) <= s && Quotient(canvasHeight - seam, asset.height - asset.seamY.value) <= s)
  {
    hide Clamp, Quotient;
  }

  /** Across, the region is centred and no clamp changes it. */
  lemma PlacedAcross(asset: Asset, canvasWidth: real, canvasHeight: real, targetSeamY: real)
    requires ValidAsset(asset) && canvasWidth > 0.0 && canvasHeight > 0.0
    ensures var p, s := PlaceStudioBackground(asset, canvasWidth, canvasHeight, targetSeamY), Scale(asset, canvasWidth, canvasHeight, targetSeamY);
            && p.width == Quotient(canvasWidth, s) && p.width * s == canvasWidth
            && p.left == Quotient(-OffsetX(asset, s, canvasWidth), s) == (asset.width - p.width) / 2.0
            && 0.0 <= p.left <= asset.width - Quotient(canvasWidth, s)
  {
    hide Scale, OffsetY, Clamp, Quotient;
    ScaleSuffices(asset, canvasWidth, canvasHeight, targetSeamY);
    var s := Scale(asset, canvasWidth, canvasHeight, targetSeamY);
    WindowFits(asset.width, canvasWidth, s);
    CentredStart(asset.width, canvasWidth, s);
    var q := Quotient(canvasWidth, s);
    ClampKeeps((asset.width - q) / 2.0, 0.0, asset.width - q);
  }

  /** Down, no clamp changes the region either, and the seam lands exactly on its clamped target. */
  lemma PlacedDown(asset: Asset, canvasWidth: real, canvasHeight: real, targetSeamY: real)
    requires ValidAsset(asset) && canvasWidth > 0.0 && canvasHeight > 0.0
    ensures var p, s := PlaceStudioBackground(asset, canvasWidth, canvasHeight, targetSeamY), Scale(asset, canvasWidth, canvasHeight, targetSeamY);
            && p.height == Quotient(canvasHeight, s) && p.height * s == canvasHeight
            && p.top == Quotient(-OffsetY(asset, s, canvasHeight, targetSeamY), s)
            && 0.0 <= p.top <= asset.height - Quotient(canvasHeight, s)
            && (asset.seamY.Some? ==> (asset.seamY.value - p.top) * s == Clamp(targetSeamY, 0.0, canvasHeight))
            && (asset.seamY == None ==> p.top == (asset.height - p.height) / 2.0)
  {
    hide Scale, Clamp, Quotient, OffsetX;
    ScaleSuffices(asset, canvasWidth, canvasHeight, targetSeamY);
    var s, seam := Scale(asset, canvasWidth, canvasHeight, targetSeamY), Clamp(targetSeamY, 0.0, canvasHeight);
    WindowFits(asset.height, canvasHeight, s);
    var room := asset.height - Quotient(canvasHeight, s);
    match asset.seamY {
      case None =>
        CentredStart(asset.height, canvasHeight, s);
        ClampKeeps(room / 2.0, 0.0, room);
      case Some(y) =>
        var offset := OffsetY(asset, s, canvasHeight, targetSeamY);
        SeamStart(asset.height, canvasHeight, s, y, seam, offset);
        ClampKeeps(Quotient(-offset, s), 0.0, room);
    }
  }

  /** The region fits the asset, has the canvas's proportions and shows the seam at its target, at the least scale that does. */
  lemma PlacementIsExact(asset: Asset, canvasWidth: real, canvasHeight: real, targetSeamY: real)
    requires ValidAsset(asset) && canvasWidth > 0.0 && canvasHeight > 0.0
    ensures var p, s := PlaceStudioBackground(asset, canvasWidth, canvasHeight, targetSeamY), Scale(asset, canvasWidth, canvasHeight, targetSeamY);
            && p.width * canvasHeight == p.height * canvasWidth
            && 0.0 <= p.left && p.left + p.width <= asset.width && 0.0 <= p.top && p.top + p.height <= asset.height
            && Fits(asset, canvasWidth, canvasHeight, Clamp(targetSeamY, 0.0, canvasHeight), s, p.left, p.top)
  {
    hide Scale, Clamp, PlaceStudioBackground, Quotient, FitsAxis, OffsetX, OffsetY;
    PlacedAcross(asset, canvasWidth, canvasHeight, targetSeamY);
    PlacedDown(asset, canvasWidth, canvasHeight, targetSeamY);
    var p, s := PlaceStudioBackground(asset, canvasWidth, canvasHeight, targetSeamY), Scale(asset, canvasWidth, canvasHeight, targetSeamY);
    FitsInAsset(asset.width, canvasWidth, s, p.left);
    FitsInAsset(asset.height, canvasHeight, s, p.top);
    assert p.width * (p.height * s) == p.height * (p.width * s);
  }

  /** A seam shows where it was wanted, or at the canvas edge nearest to there; without one the region is centred down. */
  lemma SeamIsWhereWanted(asset: Asset, canvasWidth: real, canvasHeight: real, targetSeamY: real)
    requires ValidAsset(asset) && canvasWidth > 0.0 && canvasHeight > 0.0
    ensures var p := PlaceStudioBackground(asset, canvasWidth, canvasHeight, targetSeamY);
            && p.width > 0.0 && p.height > 0.0
            && (asset.seamY == None ==> p.top == (asset.height - p.height) / 2.0)
            && (asset.seamY.Some? ==>
                  (asset.seamY.value - p.top) * canvasHeight ==
                  p.height * (if targetSeamY < 0.0 then 0.0 else if targetSeamY > canvasHeight then canvasHeight else targetSeamY))
  {
    hide Scale, Clamp, PlaceStudioBackground, Quotient, OffsetX, OffsetY;
    PlacedAcross(asset, canvasWidth, canvasHeight, targetSeamY);
    PlacedDown(asset, canvasWidth, canvasHeight, targetSeamY);
    ClampMeans(targetSeamY, 0.0, canvasHeight);
    var p, s := PlaceStudioBackground(asset, canvasWidth, canvasHeight, targetSeamY), Scale(asset, canvasWidth, canvasHeight, targetSeamY);
    QuotientSign(canvasWidth, s);
    QuotientSign(canvasHeight, s);
    if asset.seamY.Some? {
      var y := asset.seamY.value - p.top;
      assert y * (p.height * s) == p.height * (y * s);
    }
  }
}
