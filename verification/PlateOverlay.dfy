/** Pixel writes of a plate overlay, confined to the validated quadrilateral. */
module PlateOverlay {
  import opened Framing
  import opened Numbers
  import opened Options
  import opened PlateHorizon
  import opened PlateProjection
  import opened PlateQuadrilaterals
  import opened Rasters

  datatype PlateArtwork = PlateArtwork(channels: nat, width: int, height: int, data: seq<Byte>) {
    predicate Usable() {
      channels == 3 && width >= 1 && height >= 1 && |data| == width * height * 3
    }
  }

  const PLATE_ARTWORK_INNER_SHARE: real := 0.9

  function Placed(p: PlatePoint, framing: VehicleFraming): PlatePoint {
    PlatePoint(p.x * framing.scale + framing.offsetX, p.y * framing.scale + framing.offsetY)
  }

  function PlacedCorners(c: PlateQuadrilateral, framing: VehicleFraming): PlateQuadrilateral {
    PlateQuadrilateral(Placed(c.topLeft, framing), Placed(c.topRight, framing),
                       Placed(c.bottomRight, framing), Placed(c.bottomLeft, framing))
  }

  // ----- one pixel -----

  function Center(x: int, y: int): PlatePoint {
    PlatePoint(x as real + 0.5, y as real + 0.5)
  }

  /** The pixel's centre projects into the unit square. */
  predicate Covered(h: Vector, x: int, y: int) {
    var uv := Project(h, Center(x, y));
    uv.Some? && InUnitSquare(uv.value)
  }

  /** The bilinear mean of four texels, rounded. */
  function Mean(a: Byte, b: Byte, c: Byte, d: Byte, dx: real, dy: real): (m: Byte)
    requires 0.0 <= dx <= 1.0 && 0.0 <= dy <= 1.0
    ensures MinByte(a, b, c, d) <= m <= MaxByte(a, b, c, d)
  {
    MeanBounds(a, b, c, d, dx, dy);
    (Blend(a, b, c, d, dx, dy) + 0.5).Floor
  }

  function Blend(a: Byte, b: Byte, c: Byte, d: Byte, dx: real, dy: real): real {
    a as real * (1.0 - dx) * (1.0 - dy) + b as real * dx * (1.0 - dy) + c as real * (1.0 - dx) * dy + d as real * dx * dy
  }

  function MinByte(a: Byte, b: Byte, c: Byte, d: Byte): Byte {
    var m, n := if a < b then a else b, if c < d then c else d;
    if m < n then m else n
  }

  function MaxByte(a: Byte, b: Byte, c: Byte, d: Byte): Byte {
    var m, n := if a < b then b else a, if c < d then d else c;
    if m < n then n else m
  }

  lemma BetweenTwo(a: real, b: real, t: real, low: real, high: real)
    requires 0.0 <= t <= 1.0 && low <= a <= high && low <= b <= high
    ensures low <= a * (1.0 - t) + b * t <= high
  {
    MeanIsBetween(1.0, a * (1.0 - t) + b * t, 1.0 - t, a, t, b, 0.0, a, low, high);
  }

  lemma BlendIsNested(a: real, b: real, c: real, d: real, dx: real, dy: real)
    ensures a * (1.0 - dx) * (1.0 - dy) + b * dx * (1.0 - dy) + c * (1.0 - dx) * dy + d * dx * dy
            == (a * (1.0 - dx) + b * dx) * (1.0 - dy) + (c * (1.0 - dx) + d * dx) * dy
  {
  }

  lemma ByteExtremes(a: Byte, b: Byte, c: Byte, d: Byte)
    ensures MinByte(a, b, c, d) <= a <= MaxByte(a, b, c, d) && MinByte(a, b, c, d) <= b <= MaxByte(a, b, c, d)
    ensures MinByte(a, b, c, d) <= c <= MaxByte(a, b, c, d) && MinByte(a, b, c, d) <= d <= MaxByte(a, b, c, d)
  {
  }

  lemma MeanBounds(a: Byte, b: Byte, c: Byte, d: Byte, dx: real, dy: real)
    requires 0.0 <= dx <= 1.0 && 0.0 <= dy <= 1.0
    ensures MinByte(a, b, c, d) <= (Blend(a, b, c, d, dx, dy) + 0.5).Floor <= MaxByte(a, b, c, d)
  {
    ByteExtremes(a, b, c, d);
    hide MinByte, MaxByte;
    var low, high := MinByte(a, b, c, d), MaxByte(a, b, c, d);
    BlendBetween(a as real, b as real, c as real, d as real, dx, dy, low as real, high as real);
    RoundedBetween(Blend(a, b, c, d, dx, dy), low, high);
  }

  lemma RoundedBetween(r: real, low: int, high: int)
    requires low as real <= r <= high as real
    ensures low <= (r + 0.5).Floor <= high
  {
  }

  lemma BlendBetween(a: real, b: real, c: real, d: real, dx: real, dy: real, low: real, high: real)
    requires 0.0 <= dx <= 1.0 && 0.0 <= dy <= 1.0
    requires low <= a <= high && low <= b <= high && low <= c <= high && low <= d <= high
    ensures low <= a * (1.0 - dx) * (1.0 - dy) + b * dx * (1.0 - dy) + c * (1.0 - dx) * dy + d * dx * dy <= high
  {
    BlendIsNested(a, b, c, d, dx, dy);
    BetweenTwo(a, b, dx, low, high);
    BetweenTwo(c, d, dx, low, high);
    BetweenTwo(a * (1.0 - dx) + b * dx, c * (1.0 - dx) + d * dx, dy, low, high);
  }

  /** The share `u` of an axis, from its first texel to its last. */
  function Along(u: real, size: int): real {
    u * (size - 1) as real
  }

  /** The texel to the left of a place, and how far the place lies past it. */
  lemma TexelInRange(u: real, size: int)
    requires 0.0 <= u <= 1.0 && size >= 1
    ensures var s := Along(u, size); 0 <= s.Floor < size && 0.0 <= s - s.Floor as real <= 1.0
  {
    var m := (size - 1) as real;
    ProductSign(u, m);
    ProductSign(1.0 - u, m);
    assert (1.0 - u) * m == m - u * m;
  }

  function Texel(artwork: PlateArtwork, x: int, y: int, channel: nat): Byte
    requires artwork.Usable() && 0 <= x < artwork.width && 0 <= y < artwork.height && channel < 3
  {
    AtInRange(artwork.width, artwork.height, 3, x, y, channel);
    artwork.data[At(artwork.width, 3, x, y, channel)]
  }

  predicate OnArtwork(artwork: PlateArtwork, sx: real, sy: real) {
    0 <= sx.Floor < artwork.width && 0 <= sy.Floor < artwork.height
  }

  /** The bilinear mean of the four texels around a place given in texels. */
  function Interpolated(artwork: PlateArtwork, sx: real, sy: real, channel: nat): Byte
    requires artwork.Usable() && OnArtwork(artwork, sx, sy) && channel < 3
  {
    var x0, y0 := sx.Floor, sy.Floor;
    var x1 := if x0 + 1 < artwork.width - 1 then x0 + 1 else artwork.width - 1;
    var y1 := if y0 + 1 < artwork.height - 1 then y0 + 1 else artwork.height - 1;
    Mean(Texel(artwork, x0, y0, channel), Texel(artwork, x1, y0, channel),
         Texel(artwork, x0, y1, channel), Texel(artwork, x1, y1, channel), sx - x0 as real, sy - y0 as real)
  }

  function Sample(artwork: PlateArtwork, u: real, v: real, channel: nat): Byte
    requires artwork.Usable() && 0.0 <= u <= 1.0 && 0.0 <= v <= 1.0 && channel < 3
  {
    TexelInRange(u, artwork.width);
    TexelInRange(v, artwork.height);
    Interpolated(artwork, Along(u, artwork.width), Along(v, artwork.height), channel)
  }

  datatype Fit = Fit(width: real, height: real)

  /** The colour of a covered pixel: the artwork, or black around it. */
  function Painted(artwork: PlateArtwork, fit: Fit, uv: PlatePoint, channel: nat): Byte
    requires artwork.Usable() && fit.width > 0.0 && fit.height > 0.0 && channel < 3
  {
    var u := (uv.x - (1.0 - fit.width) / 2.0) / fit.width;
    var v := (uv.y - (1.0 - fit.height) / 2.0) / fit.height;
    if u < 0.0 || u > 1.0 || v < 0.0 || v > 1.0 then 0 else Sample(artwork, u, v, channel)
  }

  // ----- where the loop may write -----

  function Left(c: PlateQuadrilateral): int { MinX(c).Floor }

  function Right(c: PlateQuadrilateral): int { Ceil(MaxX(c)) }

  function Top(c: PlateQuadrilateral): int { MinY(c).Floor }

  function Bottom(c: PlateQuadrilateral): int { Ceil(MaxY(c)) }

  lemma HalfOffGrid(n: int, low: real, high: real)
    requires low <= n as real + 0.5 <= high
    ensures low.Floor <= n < Ceil(high)
    ensures low >= 0.0 ==> n >= 0
  {
  }

  /** A covered pixel has its centre inside the plate, is on the canvas, and is one the loop visits. */
  lemma CoveredIsInside(h: Vector, c: PlateQuadrilateral, width: nat, height: nat, x: int, y: int)
    requires ValidatePlateQuadrilateral(c, width, height) && SendsCorners(h, c) && Covered(h, x, y)
    ensures Inside(c, Center(x, y))
    ensures 0 <= x < width && 0 <= y < height
    ensures Left(c) <= x <= Right(c) && Top(c) <= y <= Bottom(c)
  {
    ProjectedInsideIsInside(h, c, Center(x, y));
    InsideIsWithinBox(c, Center(x, y));
    hide SendsCorners, TurnsAtEveryCorner, Inside, Project;
    HalfOffGrid(x, MinX(c), MaxX(c));
    HalfOffGrid(y, MinY(c), MaxY(c));
  }

  lemma LoopStartsOnCanvas(c: PlateQuadrilateral, width: nat, height: nat)
    requires ValidatePlateQuadrilateral(c, width, height)
    ensures 0 <= Left(c) <= Right(c) <= width && 0 <= Top(c) <= Bottom(c) <= height
  {
    hide TurnsAtEveryCorner;
  }

  // ----- the fit of the artwork -----

  function Distance(hypot: (real, real) -> real, a: PlatePoint, b: PlatePoint): real {
    hypot(a.x - b.x, a.y - b.y)
  }

  /** What the overlay needs of a distance: positive unless both legs are zero. */
  ghost predicate IsLength(hypot: (real, real) -> real) {
    forall dx: real, dy: real :: hypot(dx, dy) >= 0.0 && (dx != 0.0 || dy != 0.0 ==> hypot(dx, dy) > 0.0)
  }

  lemma CornersDiffer(c: PlateQuadrilateral)
    requires TurnsAtEveryCorner(c)
    ensures c.topLeft != c.bottomLeft && c.topLeft != c.topRight
  {
  }

  function PlateAspect(hypot: (real, real) -> real, c: PlateQuadrilateral): (aspect: real)
    requires IsLength(hypot) && TurnsAtEveryCorner(c)
    ensures aspect > 0.0
  {
    CornersDiffer(c);
    var across := Distance(hypot, c.topLeft, c.topRight) + Distance(hypot, c.bottomLeft, c.bottomRight);
    var down := Distance(hypot, c.topLeft, c.bottomLeft) + Distance(hypot, c.topRight, c.bottomRight);
    assert across > 0.0 && down > 0.0;
    across / down
  }

  /** The largest share of the plate the artwork fills without being stretched. */
  function FitOf(plateAspect: real, artwork: PlateArtwork): (fit: Fit)
    requires artwork.Usable() && plateAspect > 0.0
    ensures 0.0 < fit.width <= PLATE_ARTWORK_INNER_SHARE && 0.0 < fit.height <= PLATE_ARTWORK_INNER_SHARE
  {
    var artworkAspect := artwork.width as real / artwork.height as real;
    assert artworkAspect > 0.0;
    PositiveRatio(artworkAspect, plateAspect);
    PositiveRatio(plateAspect, artworkAspect);
    Fit(Min(1.0, artworkAspect / plateAspect) * PLATE_ARTWORK_INNER_SHARE,
        Min(1.0, plateAspect / artworkAspect) * PLATE_ARTWORK_INNER_SHARE)
  }

  /** On the plate the artwork keeps its own proportions, and fills its share of the plate in at least one direction. */
  lemma ArtworkIsNotStretched(plateAspect: real, artwork: PlateArtwork)
    requires artwork.Usable() && plateAspect > 0.0
    ensures var fit := FitOf(plateAspect, artwork);
            && fit.width * plateAspect * artwork.height as real == fit.height * artwork.width as real
            && (fit.width == 0.9 || fit.height == 0.9)
  {
    var w, h, p := artwork.width as real, artwork.height as real, plateAspect;
    var a := w / h;
    assert a * h == w && a > 0.0;
    CrossRatio(a, p);
    CrossRatio(p, a);
    var fit := FitOf(plateAspect, artwork);
    if a <= p {
      assert fit.width * p == a * fit.height;
    } else {
      assert fit.width * p == a * fit.height;
    }
    assert fit.width * p * h == fit.height * (a * h);
  }

  lemma CrossRatio(a: real, b: real)
    requires a > 0.0 && b > 0.0
    ensures a / b * b == a && (a <= b <==> a / b <= 1.0)
  {
    var q := a / b;
    assert q * b == a;
    if q <= 1.0 { assert (1.0 - q) * b >= 0.0; } else { assert (q - 1.0) * b > 0.0; }
  }

  lemma PositiveRatio(a: real, b: real)
    requires a > 0.0 && b > 0.0
    ensures a / b > 0.0
  {
  }

  // ----- the whole image -----

  datatype Brush = Brush(h: Vector, artwork: PlateArtwork, fit: Fit) {
    predicate Valid() {
      artwork.Usable() && fit.width > 0.0 && fit.height > 0.0
    }

    /** What the overlay leaves in channel `c` of pixel `(x, y)`. */
    function Result(x: int, y: int, c: nat, base: Byte): Byte
      requires Valid()
    {
      if c < 3 && Covered(h, x, y) then Painted(artwork, fit, Project(h, Center(x, y)).value, c) else base
    }
  }

  /** Pixels before `(cx, cy)` are final and the others are as they were. */
  ghost predicate PaintedUpTo(brush: Brush, width: nat, height: nat, channels: nat, base: seq<Byte>, data: seq<Byte>, cx: int, cy: int)
    requires brush.Valid() && |base| == |data| == width * height * channels
  {
    forall x: nat, y: nat, c: nat {:trigger At(width, channels, x, y, c)} ::
      x < width && y < height && c < channels && At(width, channels, x, y, c) < |data| ==>
      var k := At(width, channels, x, y, c);
      data[k] == if Earlier(x, y, cx, cy) then brush.Result(x, y, c, base[k]) else base[k]
  }

  /** Moving the frontier over pixels that are not covered changes nothing. */
  lemma FrontierMoves(brush: Brush, width: nat, height: nat, channels: nat, base: seq<Byte>, data: seq<Byte>, cx: int, cy: int, cx': int, cy': int)
    requires brush.Valid() && |base| == |data| == width * height * channels
    requires PaintedUpTo(brush, width, height, channels, base, data, cx, cy)
    requires forall x: nat, y: nat :: x < width && y < height && Earlier(x, y, cx, cy) != Earlier(x, y, cx', cy') ==> !Covered(brush.h, x, y)
    ensures PaintedUpTo(brush, width, height, channels, base, data, cx', cy')
  {
    hide Covered, Painted, At;
  }

  ghost predicate Confined(brush: Brush, c: PlateQuadrilateral, width: nat, height: nat)
  {
    ValidatePlateQuadrilateral(c, width, height) && SendsCorners(brush.h, c)
  }

  /** Before the loop, at the end of each of its rows, and after it, the frontier moves over uncovered pixels only. */
  lemma LoopSkipsUncovered(brush: Brush, c: PlateQuadrilateral, width: nat, height: nat, x: int, y: int)
    requires Confined(brush, c, width, height) && 0 <= x < width && 0 <= y < height
    requires x < Left(c) || x > Right(c) || y < Top(c) || y > Bottom(c)
    ensures !Covered(brush.h, x, y)
  {
    hide Covered, ValidatePlateQuadrilateral, Left, Right, Top, Bottom;
    if Covered(brush.h, x, y) { CoveredIsInside(brush.h, c, width, height, x, y); }
  }

  lemma NothingPainted(brush: Brush, c: PlateQuadrilateral, width: nat, height: nat, channels: nat, base: seq<Byte>)
    requires brush.Valid() && |base| == width * height * channels && Confined(brush, c, width, height)
    ensures PaintedUpTo(brush, width, height, channels, base, base, Left(c), Top(c))
  {
    hide Covered, Painted, At, Confined, Left, Right, Top, Bottom;
    forall x: nat, y: nat | x < width && y < height && Earlier(x, y, Left(c), Top(c)) ensures !Covered(brush.h, x, y) {
      LoopSkipsUncovered(brush, c, width, height, x, y);
    }
  }

  lemma RowPainted(brush: Brush, c: PlateQuadrilateral, width: nat, height: nat, channels: nat, base: seq<Byte>, data: seq<Byte>, y: int)
    requires brush.Valid() && |base| == |data| == width * height * channels && Confined(brush, c, width, height)
    requires PaintedUpTo(brush, width, height, channels, base, data, Right(c) + 1, y)
    ensures PaintedUpTo(brush, width, height, channels, base, data, Left(c), y + 1)
  {
    hide Covered, Painted, At, PaintedUpTo, Confined, Left, Right, Top, Bottom;
    forall x: nat, y': nat | x < width && y' < height && Earlier(x, y', Right(c) + 1, y) != Earlier(x, y', Left(c), y + 1)
      ensures !Covered(brush.h, x, y')
    {
      LoopSkipsUncovered(brush, c, width, height, x, y');
    }
    FrontierMoves(brush, width, height, channels, base, data, Right(c) + 1, y, Left(c), y + 1);
  }

  /** The whole image is painted: every byte is what the overlay says. */
  ghost predicate PaintedAll(brush: Brush, width: nat, height: nat, channels: nat, base: seq<Byte>, data: seq<Byte>)
    requires brush.Valid() && |base| == |data| == width * height * channels
  {
    forall x: nat, y: nat, c: nat {:trigger At(width, channels, x, y, c)} ::
      x < width && y < height && c < channels && At(width, channels, x, y, c) < |data| ==>
      data[At(width, channels, x, y, c)] == brush.Result(x, y, c, base[At(width, channels, x, y, c)])
  }

  lemma LoopPaintsAll(brush: Brush, c: PlateQuadrilateral, width: nat, height: nat, channels: nat, base: seq<Byte>, data: seq<Byte>)
    requires brush.Valid() && |base| == |data| == width * height * channels && Confined(brush, c, width, height)
    requires PaintedUpTo(brush, width, height, channels, base, data, Left(c), Bottom(c) + 1)
    ensures PaintedAll(brush, width, height, channels, base, data)
  {
    hide Covered, Painted, At, Confined, Left, Right, Top, Bottom;
    forall x: nat, y: nat | x < width && y < height && !Earlier(x, y, Left(c), Bottom(c) + 1) ensures !Covered(brush.h, x, y) {
      LoopSkipsUncovered(brush, c, width, height, x, y);
    }
  }

  lemma PixelPainted(brush: Brush, width: nat, height: nat, channels: nat, base: seq<Byte>, data: seq<Byte>, x: nat, y: nat)
    requires brush.Valid() && |base| == |data| == width * height * channels && channels >= 3
    requires x < width && y < height && Covered(brush.h, x, y)
    requires At(width, channels, x, y, 0) + 2 < |data|
    requires PaintedUpTo(brush, width, height, channels, base, data, x, y)
    ensures var o, uv := At(width, channels, x, y, 0), Project(brush.h, Center(x, y)).value;
            PaintedUpTo(brush, width, height, channels, base,
                        WithPixel(data, o, Painted(brush.artwork, brush.fit, uv, 0), Painted(brush.artwork, brush.fit, uv, 1),
                                  Painted(brush.artwork, brush.fit, uv, 2)), x + 1, y)
  {
    var o, uv := At(width, channels, x, y, 0), Project(brush.h, Center(x, y)).value;
    var after := WithPixel(data, o, Painted(brush.artwork, brush.fit, uv, 0), Painted(brush.artwork, brush.fit, uv, 1),
                           Painted(brush.artwork, brush.fit, uv, 2));
    PixelFits(width, height, channels, x, y);
    hide Painted, At, Covered, Project;
    forall x': nat, y': nat, c: nat | x' < width && y' < height && c < channels && At(width, channels, x', y', c) < |after|
      ensures var k := At(width, channels, x', y', c);
              after[k] == if Earlier(x', y', x + 1, y) then brush.Result(x', y', c, base[k]) else base[k]
    {
      var k := At(width, channels, x', y', c);
      assert data[k] == if Earlier(x', y', x, y) then brush.Result(x', y', c, base[k]) else base[k];
      if x' == x && y' == y {
        assert k == o + c;
      } else {
        AtIsInjective(width, channels, x, y, 0, x', y', c);
        AtIsInjective(width, channels, x, y, 1, x', y', c);
        AtIsInjective(width, channels, x, y, 2, x', y', c);
        assert At(width, channels, x, y, 1) == o + 1 && At(width, channels, x, y, 2) == o + 2;
      }
    }
  }

  /** Writes one covered pixel: black outside the artwork's fit, the sampled artwork within it. */
  method PaintPixel(data: array<Byte>, offset: nat, artwork: PlateArtwork, fit: Fit, uv: PlatePoint)
    requires artwork.Usable() && fit.width > 0.0 && fit.height > 0.0 && offset + 2 < data.Length
    modifies data
    ensures data[..] == WithPixel(old(data[..]), offset, Painted(artwork, fit, uv, 0), Painted(artwork, fit, uv, 1), Painted(artwork, fit, uv, 2))
  {
    hide Sample;
    var u := (uv.x - (1.0 - fit.width) / 2.0) / fit.width;
    var v := (uv.y - (1.0 - fit.height) / 2.0) / fit.height;
    ghost var before := data[..];
    if u < 0.0 || u > 1.0 || v < 0.0 || v > 1.0 {
      for channel := 0 to 3
        invariant forall k :: 0 <= k < data.Length ==> data[k] == if offset <= k < offset + channel then 0 else before[k]
      {
        data[offset + channel] := 0;
      }
    } else {
      for channel := 0 to 3
        invariant forall k :: 0 <= k < data.Length ==>
          data[k] == if offset <= k < offset + channel then Sample(artwork, u, v, k - offset) else before[k]
      {
        data[offset + channel] := Sample(artwork, u, v, channel);
      }
    }
  }

  datatype PlateOverlay = PlateOverlay(artwork: PlateArtwork, corners: PlateQuadrilateral)

  /** Paints a copy of the image, or hands the image back when there is nothing to paint on. */
  method ApplyPlateOverlay(image: RawImage, overlay: Option<PlateOverlay>, framing: VehicleFraming, hypot: (real, real) -> real)
    returns (branded: RawImage, ghost brush: Option<Brush>)
    requires image.Valid() && IsLength(hypot)
    ensures brush == None ==> branded == image
    ensures brush.Some? <==>
              && overlay.Some? && overlay.value.artwork.Usable()
              && ValidatePlateQuadrilateral(PlacedCorners(overlay.value.corners, framing), image.width, image.height)
              && Eliminated(CornerRows(PlacedCorners(overlay.value.corners, framing)), 8).Some?
    ensures overlay.Some? && brush.Some? ==> Horizon(PlacedCorners(overlay.value.corners, framing), ORIGIN) != 0.0
    ensures overlay.Some? && brush.Some? ==>
      && brush.value.fit == FitOf(PlateAspect(hypot, PlacedCorners(overlay.value.corners, framing)), overlay.value.artwork)
      && branded.Valid() && fresh(branded.data)
      && branded.width == image.width && branded.height == image.height && branded.channels == image.channels
      && brush.value.Valid() && brush.value.artwork == overlay.value.artwork
      && Confined(brush.value, PlacedCorners(overlay.value.corners, framing), image.width, image.height)
      && PaintedAll(brush.value, image.width, image.height, image.channels, image.data[..], branded.data[..])
  {
    hide Eliminated, CornerRows, PaintedAll, SendsCorners, Horizon;
    if overlay == None { return image, None; }
    var corners := PlacedCorners(overlay.value.corners, framing);
    if !ValidatePlateQuadrilateral(corners, image.width, image.height) { return image, None; }
    var projection := CreatePlateProjection(corners);
    if projection == None { return image, None; }
    SentCornersMissHorizon(projection.value, corners);
    var artwork := overlay.value.artwork;
    if !artwork.Usable() { return image, None; }
    var data := new Byte[image.data.Length](i requires 0 <= i < image.data.Length reads image.data => image.data[i]);
    assert data[..] == image.data[..];
    var fit := FitOf(PlateAspect(hypot, corners), artwork);
    ghost var paint := Brush(projection.value, artwork, fit);
    hide ValidatePlateQuadrilateral;
    PaintPlate(data, image.width, image.height, image.channels, corners, projection.value, artwork, fit);
    return image.(data := data), Some(paint);
  }

  /** The pixel loops: every position of the plate's bounding box, right and bottom edge included. */
  method PaintPlate(data: array<Byte>, width: nat, height: nat, channels: nat, corners: PlateQuadrilateral, h: Vector,
                    artwork: PlateArtwork, fit: Fit)
    requires Brush(h, artwork, fit).Valid() && data.Length == width * height * channels && channels >= 3
    requires Confined(Brush(h, artwork, fit), corners, width, height)
    modifies data
    ensures PaintedAll(Brush(h, artwork, fit), width, height, channels, old(data[..]), data[..])
  {
    var left, right, top, bottom := Left(corners), Right(corners), Top(corners), Bottom(corners);
    ghost var base, paint := data[..], Brush(h, artwork, fit);
    LoopStartsOnCanvas(corners, width, height);
    hide Covered, Painted, At, PaintedUpTo, PaintedAll, Left, Right, Top, Bottom, ValidatePlateQuadrilateral, SendsCorners, Project;
    NothingPainted(paint, corners, width, height, channels, base);
    for y := top to bottom + 1
      invariant PaintedUpTo(paint, width, height, channels, base, data[..], left, y)
    {
      for x := left to right + 1
        invariant PaintedUpTo(paint, width, height, channels, base, data[..], x, y)
      {
        if Covered(h, x, y) {
          CoveredIsInside(h, corners, width, height, x, y);
          PixelFits(width, height, channels, x, y);
          var outputOffset := At(width, channels, x, y, 0);
          assert At(width, channels, x, y, 2) == outputOffset + 2 < data.Length;
          PixelPainted(paint, width, height, channels, base, data[..], x, y);
          CoveredProjects(h, x, y);
          PaintPixel(data, outputOffset, artwork, fit, Project(h, Center(x, y)).value);
        } else {
          FrontierPasses(paint, width, height, channels, base, data[..], x, y);
        }
      }
      RowPainted(paint, corners, width, height, channels, base, data[..], y);
    }
    LoopPaintsAll(paint, corners, width, height, channels, base, data[..]);
  }

  lemma CoveredProjects(h: Vector, x: int, y: int)
    requires Covered(h, x, y)
    ensures Project(h, Center(x, y)).Some?
  {
  }

  lemma FrontierPasses(brush: Brush, width: nat, height: nat, channels: nat, base: seq<Byte>, data: seq<Byte>, x: int, y: int)
    requires brush.Valid() && |base| == |data| == width * height * channels && !Covered(brush.h, x, y)
    requires PaintedUpTo(brush, width, height, channels, base, data, x, y)
    ensures PaintedUpTo(brush, width, height, channels, base, data, x + 1, y)
  {
    hide Covered, Painted, At, PaintedUpTo;
    FrontierMoves(brush, width, height, channels, base, data, x, y, x + 1, y);
  }

  /** A byte the overlay changed is a colour byte of a pixel whose centre lies inside the placed plate. */
  lemma OverlayIsConfined(brush: Brush, c: PlateQuadrilateral, width: nat, height: nat, x: nat, y: nat, channel: nat, base: Byte)
    requires brush.Valid() && Confined(brush, c, width, height) && x < width && y < height
    requires brush.Result(x, y, channel, base) != base
    ensures channel < 3 && Inside(c, Center(x, y))
  {
    hide Painted;
    CoveredIsInside(brush.h, c, width, height, x, y);
  }
}
