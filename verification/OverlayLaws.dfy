/** What the overlay leaves at a pixel, told from the artwork's own bytes and the corners of the placed plate. */
module OverlayLaws {
  import opened Framing
  import opened Numbers
  import opened Options
  import opened PlateOverlay
  import opened PlateProjection
  import opened PlateQuadrilaterals
  import opened Rasters

  // ----- between the texels -----

  /** Along an axis of `size` texels, a place `d` of the way from texel `i` to its neighbour `k`; on a texel any `k` will do. */
  ghost predicate Between(size: int, i: int, k: int, d: real) {
    0 <= i < size && 0 <= k < size && 0.0 <= d <= 1.0 && (k == i + 1 || d == 0.0)
  }

  /** Of row `y` in channel `c`, `d` of the way from texel `i` to texel `k`. */
  ghost function RowMix(artwork: PlateArtwork, c: nat, y: int, i: int, k: int, d: real): real
    requires artwork.Usable() && c < 3 && 0 <= y < artwork.height && 0 <= i < artwork.width && 0 <= k < artwork.width
  {
    TexelIsByte(artwork, i, y, c);
    TexelIsByte(artwork, k, y, c);
    artwork.data[(y * artwork.width + i) * 3 + c] as real * (1.0 - d) + artwork.data[(y * artwork.width + k) * 3 + c] as real * d
  }

  /** `d` of the way from `a` to `b`. */
  ghost function Mix(a: real, b: real, d: real): real { a * (1.0 - d) + b * d }

  lemma TexelIsByte(artwork: PlateArtwork, x: int, y: int, c: nat)
    requires artwork.Usable() && 0 <= x < artwork.width && 0 <= y < artwork.height && c < 3
    ensures 0 <= (y * artwork.width + x) * 3 + c < |artwork.data|
    ensures Texel(artwork, x, y, c) == artwork.data[(y * artwork.width + x) * 3 + c]
  {
    AtInRange(artwork.width, artwork.height, 3, x, y, c);
  }

  lemma RowIsMixed(artwork: PlateArtwork, c: nat, y: int, i: int, k: int, d: real)
    requires artwork.Usable() && c < 3 && 0 <= y < artwork.height && 0 <= i < artwork.width && 0 <= k < artwork.width
    ensures RowMix(artwork, c, y, i, k, d) == Mix(Texel(artwork, i, y, c) as real, Texel(artwork, k, y, c) as real, d)
  {
    hide Texel;
    TexelIsByte(artwork, i, y, c);
    TexelIsByte(artwork, k, y, c);
  }

  /** The texel before the place, the next one, and the rest of the way are those the sampling takes, or mix the same. */
  lemma AxisTexels(size: int, i: int, k: int, d: real, s: real)
    requires Between(size, i, k, d) && s == i as real + d
    ensures var x0 := s.Floor;
            var x1 := if x0 + 1 < size - 1 then x0 + 1 else size - 1;
            var t := s - x0 as real;
            || (x0 == i && t == d && (d == 0.0 || x1 == k))
            || (x0 == k && t == 0.0 && d == 1.0)
  {
    if d == 1.0 { assert s == k as real; } else { assert s.Floor == i; }
  }

  /** Such texels mix the same. */
  lemma SameMix(a0: real, b0: real, t: real, a: real, b: real, d: real)
    requires (a0 == a && t == d && (d == 0.0 || b0 == b)) || (a0 == b && t == 0.0 && d == 1.0)
    ensures Mix(a0, b0, t) == Mix(a, b, d)
  {
  }

  lemma MeanIsMix(a: Byte, b: Byte, c: Byte, d: Byte, dx: real, dy: real)
    requires 0.0 <= dx <= 1.0 && 0.0 <= dy <= 1.0
    ensures Mean(a, b, c, d, dx, dy) == (Mix(Mix(a as real, b as real, dx), Mix(c as real, d as real, dx), dy) + 0.5).Floor
  {
    hide MinByte, MaxByte;
    BlendIsNested(a as real, b as real, c as real, d as real, dx, dy);
  }

  /** The interpolation, with its columns `x0` and `x1`, its rows `y0` and `y1`, and the ways past the first of them. */
  lemma InterpolatedIsMix(artwork: PlateArtwork, c: nat, sx: real, sy: real, x0: int, x1: int, y0: int, y1: int)
    requires artwork.Usable() && OnArtwork(artwork, sx, sy) && c < 3 && x0 == sx.Floor && y0 == sy.Floor
    requires x1 == (if x0 + 1 < artwork.width - 1 then x0 + 1 else artwork.width - 1)
    requires y1 == (if y0 + 1 < artwork.height - 1 then y0 + 1 else artwork.height - 1)
    ensures Interpolated(artwork, sx, sy, c) ==
            (Mix(RowMix(artwork, c, y0, x0, x1, sx - x0 as real), RowMix(artwork, c, y1, x0, x1, sx - x0 as real), sy - y0 as real) + 0.5).Floor
  {
    hide Texel, Mix, Mean, RowMix;
    RowIsMixed(artwork, c, y0, x0, x1, sx - x0 as real);
    RowIsMixed(artwork, c, y1, x0, x1, sx - x0 as real);
    MeanIsMix(Texel(artwork, x0, y0, c), Texel(artwork, x1, y0, c), Texel(artwork, x0, y1, c), Texel(artwork, x1, y1, c),
              sx - x0 as real, sy - y0 as real);
  }

  lemma PlaceIsMixed(artwork: PlateArtwork, sx: real, sy: real, c: nat, i: int, j: int, k: int, l: int, dx: real, dy: real)
    requires artwork.Usable() && OnArtwork(artwork, sx, sy) && c < 3
    requires Between(artwork.width, i, k, dx) && sx == i as real + dx
    requires Between(artwork.height, j, l, dy) && sy == j as real + dy
    ensures Interpolated(artwork, sx, sy, c) == (Mix(RowMix(artwork, c, j, i, k, dx), RowMix(artwork, c, l, i, k, dx), dy) + 0.5).Floor
  {
    hide Interpolated, Mix, RowMix, PlateArtwork.Usable;
    AxisTexels(artwork.width, i, k, dx, sx);
    AxisTexels(artwork.height, j, l, dy, sy);
    var x0, y0 := sx.Floor, sy.Floor;
    var x1 := if x0 + 1 < artwork.width - 1 then x0 + 1 else artwork.width - 1;
    var y1 := if y0 + 1 < artwork.height - 1 then y0 + 1 else artwork.height - 1;
    InterpolatedIsMix(artwork, c, sx, sy, x0, x1, y0, y1);
    RowsMix(artwork, c, x0, x1, sx - x0 as real, y0, y1, sy - y0 as real, i, k, dx, j, l, dy);
  }

  lemma TexelsAreMixed(artwork: PlateArtwork, u: real, v: real, c: nat, i: int, j: int, k: int, l: int, dx: real, dy: real)
    requires artwork.Usable() && 0.0 <= u <= 1.0 && 0.0 <= v <= 1.0 && c < 3
    requires Between(artwork.width, i, k, dx) && u * (artwork.width - 1) as real == i as real + dx
    requires Between(artwork.height, j, l, dy) && v * (artwork.height - 1) as real == j as real + dy
    ensures Sample(artwork, u, v, c) == (Mix(RowMix(artwork, c, j, i, k, dx), RowMix(artwork, c, l, i, k, dx), dy) + 0.5).Floor
  {
    hide Interpolated, Mix, RowMix, Sample, PlateArtwork.Usable, OnArtwork;
    var sx, sy := i as real + dx, j as real + dy;
    SampledPlace(artwork, u, v, c, sx, sy);
    PlaceIsMixed(artwork, sx, sy, c, i, j, k, l, dx, dy);
  }

  lemma SampledPlace(artwork: PlateArtwork, u: real, v: real, c: nat, sx: real, sy: real)
    requires artwork.Usable() && 0.0 <= u <= 1.0 && 0.0 <= v <= 1.0 && c < 3
    requires Along(u, artwork.width) == sx && Along(v, artwork.height) == sy
    ensures OnArtwork(artwork, sx, sy) && Sample(artwork, u, v, c) == Interpolated(artwork, sx, sy, c)
  {
    hide Interpolated, Along;
    TexelInRange(u, artwork.width);
    TexelInRange(v, artwork.height);
  }

  lemma SameRowMix(artwork: PlateArtwork, c: nat, y: int, x0: int, x1: int, t: real, i: int, k: int, d: real)
    requires artwork.Usable() && c < 3 && 0 <= x0 < artwork.width && 0 <= x1 < artwork.width && 0 <= y < artwork.height
    requires 0 <= i < artwork.width && 0 <= k < artwork.width
    requires (x0 == i && t == d && (d == 0.0 || x1 == k)) || (x0 == k && t == 0.0 && d == 1.0)
    ensures RowMix(artwork, c, y, x0, x1, t) == RowMix(artwork, c, y, i, k, d)
  {
    hide Texel, Mix, RowMix;
    RowIsMixed(artwork, c, y, x0, x1, t);
    RowIsMixed(artwork, c, y, i, k, d);
    SameMix(Texel(artwork, x0, y, c) as real, Texel(artwork, x1, y, c) as real, t,
            Texel(artwork, i, y, c) as real, Texel(artwork, k, y, c) as real, d);
  }

  lemma RowsMix(artwork: PlateArtwork, c: nat, x0: int, x1: int, tx: real, y0: int, y1: int, ty: real,
                i: int, k: int, dx: real, j: int, l: int, dy: real)
    requires artwork.Usable() && c < 3 && 0 <= x0 < artwork.width && 0 <= x1 < artwork.width && 0 <= y0 < artwork.height && 0 <= y1 < artwork.height
    requires 0 <= i < artwork.width && 0 <= k < artwork.width && 0 <= j < artwork.height && 0 <= l < artwork.height
    requires (x0 == i && tx == dx && (dx == 0.0 || x1 == k)) || (x0 == k && tx == 0.0 && dx == 1.0)
    requires (y0 == j && ty == dy && (dy == 0.0 || y1 == l)) || (y0 == l && ty == 0.0 && dy == 1.0)
    ensures Mix(RowMix(artwork, c, y0, x0, x1, tx), RowMix(artwork, c, y1, x0, x1, tx), ty)
            == Mix(RowMix(artwork, c, j, i, k, dx), RowMix(artwork, c, l, i, k, dx), dy)
  {
    hide Mix, RowMix;
    SameRowMix(artwork, c, y0, x0, x1, tx, i, k, dx);
    SameRowMix(artwork, c, y1, x0, x1, tx, i, k, dx);
    SameMix(RowMix(artwork, c, y0, i, k, dx), RowMix(artwork, c, y1, i, k, dx), ty,
            RowMix(artwork, c, j, i, k, dx), RowMix(artwork, c, l, i, k, dx), dy);
  }

  // ----- what is painted -----

  /** The pixel's centre lies `u` of the artwork's width from its left side and `v` of its height from its top. */
  ghost predicate LandsAt(h: Vector, fit: Fit, x: nat, y: nat, u: real, v: real) {
    Project(h, PlatePoint(x as real + 0.5, y as real + 0.5)) ==
    Some(PlatePoint((1.0 - fit.width) / 2.0 + u * fit.width, (1.0 - fit.height) / 2.0 + v * fit.height))
  }

  lemma ShareOf(fit: real, u: real)
    requires 0.0 < fit <= 0.9
    ensures ((1.0 - fit) / 2.0 + u * fit - (1.0 - fit) / 2.0) / fit == u
    ensures 0.0 <= u <= 1.0 ==> 0.0 <= (1.0 - fit) / 2.0 + u * fit <= 1.0
  {
    assert u * fit / fit == u;
    if 0.0 <= u <= 1.0 { ProductSign(u, fit); ProductSign(1.0 - u, fit); }
  }

  lemma PaintedIsSample(artwork: PlateArtwork, fit: Fit, uv: PlatePoint, u: real, v: real, c: nat)
    requires artwork.Usable() && fit.width > 0.0 && fit.height > 0.0 && c < 3
    requires (uv.x - (1.0 - fit.width) / 2.0) / fit.width == u && (uv.y - (1.0 - fit.height) / 2.0) / fit.height == v
    ensures 0.0 <= u <= 1.0 && 0.0 <= v <= 1.0 ==> Painted(artwork, fit, uv, c) == Sample(artwork, u, v, c)
    ensures u < 0.0 || u > 1.0 || v < 0.0 || v > 1.0 ==> Painted(artwork, fit, uv, c) == 0
  {
    hide Sample, PlateArtwork.Usable;
  }

  lemma LandedIsSampled(brush: Brush, x: nat, y: nat, c: nat, base: Byte, u: real, v: real)
    requires brush.Valid() && brush.fit.width <= 0.9 && brush.fit.height <= 0.9 && c < 3
    requires LandsAt(brush.h, brush.fit, x, y, u, v) && 0.0 <= u <= 1.0 && 0.0 <= v <= 1.0
    ensures brush.Result(x, y, c, base) == Sample(brush.artwork, u, v, c)
  {
    hide Sample, Project, Painted, PlateArtwork.Usable;
    ShareOf(brush.fit.width, u);
    ShareOf(brush.fit.height, v);
    assert Center(x, y) == PlatePoint(x as real + 0.5, y as real + 0.5);
    var uv := Project(brush.h, Center(x, y)).value;
    assert uv.x == (1.0 - brush.fit.width) / 2.0 + u * brush.fit.width && uv.y == (1.0 - brush.fit.height) / 2.0 + v * brush.fit.height;
    PaintedIsSample(brush.artwork, brush.fit, uv, u, v, c);
  }

  /** The byte of pixel `(x, y)` in channel `c` of the painted image, at position `at`. */
  lemma PaintedByte(brush: Brush, width: nat, height: nat, channels: nat, base: seq<Byte>, data: seq<Byte>, x: nat, y: nat, c: nat, at: int)
    requires brush.Valid() && |base| == |data| == width * height * channels && x < width && y < height && c < channels
    requires PaintedAll(brush, width, height, channels, base, data)
    requires at == (y * width + x) * channels + c
    ensures 0 <= at < |data|
    ensures data[at] == brush.Result(x, y, c, base[at])
  {
    hide Covered, Painted;
    AtInRange(width, height, channels, x, y, c);
    assert At(width, channels, x, y, c) == at;
  }

  /**
   * Within the artwork's place a pixel gets the rounded mix, along each axis, of the four texels around it. On an axis of
   * one texel, `i` and `k` are that texel.
   */
  lemma ArtworkIsMixed(brush: Brush, width: nat, height: nat, channels: nat, base: seq<Byte>, data: seq<Byte>, x: nat, y: nat, c: nat, at: int,
                       u: real, v: real, i: int, j: int, k: int, l: int, dx: real, dy: real)
    requires brush.Valid() && brush.fit.width <= 0.9 && brush.fit.height <= 0.9 && c < 3 <= channels
    requires |base| == |data| == width * height * channels && x < width && y < height
    requires PaintedAll(brush, width, height, channels, base, data)
    requires LandsAt(brush.h, brush.fit, x, y, u, v) && 0.0 <= u <= 1.0 && 0.0 <= v <= 1.0
    requires Between(brush.artwork.width, i, k, dx) && u * (brush.artwork.width - 1) as real == i as real + dx
    requires Between(brush.artwork.height, j, l, dy) && v * (brush.artwork.height - 1) as real == j as real + dy
    requires at == (y * width + x) * channels + c
    ensures 0 <= at < |data|
    ensures data[at] == (Mix(RowMix(brush.artwork, c, j, i, k, dx), RowMix(brush.artwork, c, l, i, k, dx), dy) + 0.5).Floor
  {
    hide PaintedAll, LandsAt, Sample, Brush.Result, PlateArtwork.Usable, RowMix, Mix;
    PaintedByte(brush, width, height, channels, base, data, x, y, c, at);
    LandedIsSampled(brush, x, y, c, base[at], u, v);
    TexelsAreMixed(brush.artwork, u, v, c, i, j, k, l, dx, dy);
  }

  /** Where a texel lands, the pixel gets exactly that texel. */
  lemma TexelIsPainted(brush: Brush, width: nat, height: nat, channels: nat, base: seq<Byte>, data: seq<Byte>, x: nat, y: nat, c: nat, at: int,
                       u: real, v: real, i: int, j: int)
    requires brush.Valid() && brush.fit.width <= 0.9 && brush.fit.height <= 0.9 && c < 3 <= channels
    requires |base| == |data| == width * height * channels && x < width && y < height
    requires PaintedAll(brush, width, height, channels, base, data)
    requires LandsAt(brush.h, brush.fit, x, y, u, v) && 0.0 <= u <= 1.0 && 0.0 <= v <= 1.0
    requires 0 <= i < brush.artwork.width && u * (brush.artwork.width - 1) as real == i as real
    requires 0 <= j < brush.artwork.height && v * (brush.artwork.height - 1) as real == j as real
    requires at == (y * width + x) * channels + c
    ensures 0 <= (j * brush.artwork.width + i) * 3 + c < |brush.artwork.data| && 0 <= at < |data|
    ensures data[at] == brush.artwork.data[(j * brush.artwork.width + i) * 3 + c]
  {
    hide PaintedAll, LandsAt, Texel;
    ArtworkIsMixed(brush, width, height, channels, base, data, x, y, c, at, u, v, i, j, i, j, 0.0, 0.0);
    TexelIsByte(brush.artwork, i, j, c);
  }

  lemma FirstAndLastTexel(artwork: PlateArtwork, c: nat)
    requires artwork.Usable() && c < 3
    ensures artwork.width >= 1 && artwork.height >= 1 && 3 <= |artwork.data|
    ensures (0 * artwork.width + 0) * 3 + c == c
    ensures ((artwork.height - 1) * artwork.width + (artwork.width - 1)) * 3 + c == |artwork.data| - 3 + c
  {
    TexelIsByte(artwork, artwork.width - 1, artwork.height - 1, 0);
  }

  /** The artwork's first texel is painted at its upper left, its last at its lower right. */
  lemma ArtworkIsUpright(brush: Brush, width: nat, height: nat, channels: nat, base: seq<Byte>, data: seq<Byte>, x: nat, y: nat, c: nat, at: int)
    requires brush.Valid() && brush.fit.width <= 0.9 && brush.fit.height <= 0.9 && c < 3 <= channels
    requires |base| == |data| == width * height * channels && x < width && y < height
    requires PaintedAll(brush, width, height, channels, base, data)
    requires at == (y * width + x) * channels + c
    ensures 0 <= at < |data| && 3 <= |brush.artwork.data|
    ensures LandsAt(brush.h, brush.fit, x, y, 0.0, 0.0) ==> data[at] == brush.artwork.data[c]
    ensures LandsAt(brush.h, brush.fit, x, y, 1.0, 1.0) ==>
              data[at] == brush.artwork.data[|brush.artwork.data| - 3 + c]
  {
    hide PaintedAll, LandsAt, PlateArtwork.Usable;
    var w, h := brush.artwork.width, brush.artwork.height;
    PaintedByte(brush, width, height, channels, base, data, x, y, c, at);
    FirstAndLastTexel(brush.artwork, c);
    if LandsAt(brush.h, brush.fit, x, y, 0.0, 0.0) {
      TexelIsPainted(brush, width, height, channels, base, data, x, y, c, at, 0.0, 0.0, 0, 0);
    }
    if LandsAt(brush.h, brush.fit, x, y, 1.0, 1.0) {
      TexelIsPainted(brush, width, height, channels, base, data, x, y, c, at, 1.0, 1.0, w - 1, h - 1);
    }
  }

  /** Around the artwork, the plate is black. */
  lemma SurroundIsBlack(brush: Brush, width: nat, height: nat, channels: nat, base: seq<Byte>, data: seq<Byte>, x: nat, y: nat, c: nat, at: int,
                        u: real, v: real)
    requires brush.Valid() && brush.fit.width <= 0.9 && brush.fit.height <= 0.9 && c < 3 <= channels
    requires |base| == |data| == width * height * channels && x < width && y < height
    requires PaintedAll(brush, width, height, channels, base, data)
    requires LandsAt(brush.h, brush.fit, x, y, u, v) && Covered(brush.h, x, y)
    requires u < 0.0 || u > 1.0 || v < 0.0 || v > 1.0
    requires at == (y * width + x) * channels + c
    ensures 0 <= at < |data| && data[at] == 0
  {
    hide PaintedAll, Project, Painted, PlateArtwork.Usable;
    PaintedByte(brush, width, height, channels, base, data, x, y, c, at);
    ShareOf(brush.fit.width, u);
    ShareOf(brush.fit.height, v);
    assert Center(x, y) == PlatePoint(x as real + 0.5, y as real + 0.5);
    var uv := Project(brush.h, Center(x, y)).value;
    assert uv.x == (1.0 - brush.fit.width) / 2.0 + u * brush.fit.width && uv.y == (1.0 - brush.fit.height) / 2.0 + v * brush.fit.height;
    PaintedIsSample(brush.artwork, brush.fit, uv, u, v, c);
  }

  /** A pixel is covered exactly when its centre lies inside the placed plate and has a projection. */
  lemma CoveredExactlyInside(h: Vector, c: PlateQuadrilateral, x: int, y: int)
    requires TurnsAtEveryCorner(c) && SendsCorners(h, c)
    ensures Covered(h, x, y) <==>
              && Inside(c, PlatePoint(x as real + 0.5, y as real + 0.5))
              && !(-0.000001 < h[6] * (x as real + 0.5) + h[7] * (y as real + 0.5) + 1.0 < 0.000001)
  {
    var p := PlatePoint(x as real + 0.5, y as real + 0.5);
    assert p == Center(x, y);
    ProjectsOffHorizon(h, p);
    hide Turn, SendsCorners, TurnsAtEveryCorner, Inside, Project, InUnitSquare;
    if Covered(h, x, y) { ProjectedInsideIsInside(h, c, p); }
    if Inside(c, p) && Project(h, p).Some? { InsideIsProjectedInside(h, c, p); }
  }

  lemma ProjectsOffHorizon(h: Vector, p: PlatePoint)
    ensures Project(h, p).Some? <==> !(-0.000001 < h[6] * p.x + h[7] * p.y + 1.0 < 0.000001)
  {
  }

  /** Pixels outside the plate, and the alpha channel, are as they were. */
  lemma RestIsKept(brush: Brush, width: nat, height: nat, channels: nat, base: seq<Byte>, data: seq<Byte>, x: nat, y: nat, c: nat, at: int)
    requires brush.Valid() && |base| == |data| == width * height * channels && x < width && y < height && c < channels
    requires PaintedAll(brush, width, height, channels, base, data)
    requires c >= 3 || !Covered(brush.h, x, y)
    requires at == (y * width + x) * channels + c
    ensures 0 <= at < |data|
    ensures data[at] == base[at]
  {
    PaintedByte(brush, width, height, channels, base, data, x, y, c, at);
    hide PaintedAll, Painted, Covered;
  }

  // ----- the fit -----

  /** The plate's aspect is the length of its top and bottom edges over that of its left and right ones. */
  lemma AspectIsAcrossOverDown(hypot: (real, real) -> real, c: PlateQuadrilateral)
    requires IsLength(hypot) && TurnsAtEveryCorner(c)
    ensures PlateAspect(hypot, c) *
            (hypot(c.topLeft.x - c.bottomLeft.x, c.topLeft.y - c.bottomLeft.y) +
             hypot(c.topRight.x - c.bottomRight.x, c.topRight.y - c.bottomRight.y))
            == hypot(c.topLeft.x - c.topRight.x, c.topLeft.y - c.topRight.y) +
               hypot(c.bottomLeft.x - c.bottomRight.x, c.bottomLeft.y - c.bottomRight.y)
  {
    CornersDiffer(c);
    hide Turn;
  }

  /** The plate moves with the photo: what lies `dx` by `dy` photo pixels apart is placed that far apart, at the photo's scale. */
  lemma PlateMovesWithPhoto(c: PlateQuadrilateral, framing: VehicleFraming, p: PlatePoint, q: PlatePoint)
    requires (p, q) in {(c.topLeft, PlacedCorners(c, framing).topLeft), (c.topRight, PlacedCorners(c, framing).topRight),
                        (c.bottomRight, PlacedCorners(c, framing).bottomRight), (c.bottomLeft, PlacedCorners(c, framing).bottomLeft)}
    ensures q.x == framing.offsetX + framing.scale * p.x && q.y == framing.offsetY + framing.scale * p.y
  {
  }
}
