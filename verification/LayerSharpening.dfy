/** Sharpening only where the cutout covers the composed image. */
module LayerSharpening {
  import opened AlphaBounds
  import opened Numbers
  import opened Rasters

  const SHARPEN_CONTEXT_PIXELS: int := 4

  /** A layer's RGBA pixels and where they lie on the canvas. */
  datatype Layer = Layer(width: nat, height: nat, data: seq<Byte>, left: int, top: int) {
    /** Placed layers lie on their canvas. */
    predicate On(canvasWidth: int, canvasHeight: int) {
      && |data| == width * height * 4
      && 0 <= left && left + width <= canvasWidth && 0 <= top && top + height <= canvasHeight
    }
  }

  /** Left and top inclusive, right and bottom exclusive. */
  datatype Region = Region(left: int, top: int, right: int, bottom: int) {
    predicate Empty() {
      right <= left || bottom <= top
    }

    predicate Has(x: int, y: int) {
      left <= x < right && top <= y < bottom
    }
  }

  /** The part of the layer that holds content. */
  function Touched(layer: Layer, content: SubjectBox): Region {
    Region(MaxInt(layer.left, content.left), MaxInt(layer.top, content.top),
           MinInt(layer.left + layer.width, content.left + content.width),
           MinInt(layer.top + layer.height, content.top + content.height))
  }

  /** What the filter reads: the touched part and its context, within the canvas. */
  function Context(r: Region, width: int, height: int): Region {
    Region(MaxInt(0, r.left - SHARPEN_CONTEXT_PIXELS), MaxInt(0, r.top - SHARPEN_CONTEXT_PIXELS),
           MinInt(width, r.right + SHARPEN_CONTEXT_PIXELS), MinInt(height, r.bottom + SHARPEN_CONTEXT_PIXELS))
  }

  // ----- one byte -----

  /** The share of a difference that the coverage lets through. */
  function Share(difference: int, alpha: Byte): real {
    difference as real * alpha as real / 255.0
  }

  /** From the base towards the detail, by the coverage. */
  function Blended(base: Byte, detail: Byte, alpha: Byte): (b: Byte)
    ensures MinInt(base, detail) <= b <= MaxInt(base, detail)
  {
    ShareBounds(detail - base, alpha);
    Round(base as real + Share(detail - base, alpha))
  }

  lemma ShareBounds(d: int, alpha: Byte)
    ensures if d >= 0 then 0.0 <= Share(d, alpha) <= d as real else d as real <= Share(d, alpha) <= 0.0
  {
    var x, a := d as real, alpha as real;
    if d >= 0 {
      ProductSign(x, a);
      ProductSign(x, 255.0 - a);
    } else {
      ProductSign(-x, a);
      ProductSign(-x, 255.0 - a);
    }
  }

  /** No coverage leaves the base, full coverage takes the detail. */
  lemma BlendEnds(base: Byte, detail: Byte)
    ensures Blended(base, detail, 0) == base && Blended(base, detail, 255) == detail
  {
    assert Share(detail - base, 255) == (detail - base) as real;
  }

  // ----- the image -----

  /** One sharpening: the canvas size, the layer, its touched region and the filtered context. */
  datatype Sharpening = Sharpening(width: nat, height: nat, layer: Layer, region: Region, detail: seq<Byte>) {
    function Area(): Region {
      Context(region, width, height)
    }

    ghost predicate Valid() {
      && layer.On(width, height) && !region.Empty()
      && layer.left <= region.left && region.right <= layer.left + layer.width
      && layer.top <= region.top && region.bottom <= layer.top + layer.height
      && |detail| == (Area().right - Area().left) * (Area().bottom - Area().top) * 3
    }

    function AlphaOf(x: int, y: int): Byte
      requires Valid() && region.Has(x, y)
    {
      RegionHolds(this, x, y, 0);
      layer.data[At(layer.width, 4, x - layer.left, y - layer.top, 3)]
    }

    function DetailOf(x: int, y: int, c: nat): Byte
      requires Valid() && region.Has(x, y) && c < 3
    {
      RegionHolds(this, x, y, c);
      detail[At(Area().right - Area().left, 3, x - Area().left, y - Area().top, c)]
    }

    /** The byte the sharpened image has at channel `c` of `(x, y)`. */
    function Result(x: int, y: int, c: nat, base: Byte): Byte
      requires Valid() && c < 3
    {
      if region.Has(x, y) then Blended(base, DetailOf(x, y, c), AlphaOf(x, y)) else base
    }
  }

  /** A pixel of the region has its place in the layer, in the filtered context and on the canvas. */
  lemma RegionHolds(s: Sharpening, x: int, y: int, c: nat)
    requires s.Valid() && s.region.Has(x, y) && c < 3
    ensures 0 <= x < s.width && 0 <= y < s.height
    ensures 0 <= x - s.layer.left < s.layer.width && 0 <= y - s.layer.top < s.layer.height
    ensures At(s.layer.width, 4, x - s.layer.left, y - s.layer.top, 3) < |s.layer.data|
    ensures 0 <= x - s.Area().left < s.Area().right - s.Area().left && 0 <= y - s.Area().top < s.Area().bottom - s.Area().top
    ensures At(s.Area().right - s.Area().left, 3, x - s.Area().left, y - s.Area().top, c) < |s.detail|
  {
    hide At;
    AtInRange(s.layer.width, s.layer.height, 4, x - s.layer.left, y - s.layer.top, 3);
    AtInRange(s.Area().right - s.Area().left, s.Area().bottom - s.Area().top, 3, x - s.Area().left, y - s.Area().top, c);
  }

  /** Pixels before `(cx, cy)` are final and the others are as they were. */
  ghost predicate SharpenedUpTo(s: Sharpening, base: seq<Byte>, data: seq<Byte>, cx: int, cy: int)
    requires s.Valid() && |base| == |data| == s.width * s.height * 3
  {
    forall x: nat, y: nat, c: nat {:trigger At(s.width, 3, x, y, c)} ::
      x < s.width && y < s.height && c < 3 && At(s.width, 3, x, y, c) < |data| ==>
      var k := At(s.width, 3, x, y, c); data[k] == if Earlier(x, y, cx, cy) then s.Result(x, y, c, base[k]) else base[k]
  }

  /** Every byte is what sharpening says. */
  ghost predicate SharpenedAll(s: Sharpening, base: seq<Byte>, data: seq<Byte>)
    requires s.Valid() && |base| == |data| == s.width * s.height * 3
  {
    forall x: nat, y: nat, c: nat {:trigger At(s.width, 3, x, y, c)} ::
      x < s.width && y < s.height && c < 3 && At(s.width, 3, x, y, c) < |data| ==>
      data[At(s.width, 3, x, y, c)] == s.Result(x, y, c, base[At(s.width, 3, x, y, c)])
  }

  /** The frontier may pass any pixel outside the region. */
  lemma FrontierMoves(s: Sharpening, base: seq<Byte>, data: seq<Byte>, cx: int, cy: int, cx': int, cy': int)
    requires s.Valid() && |base| == |data| == s.width * s.height * 3 && SharpenedUpTo(s, base, data, cx, cy)
    requires forall x: nat, y: nat :: x < s.width && y < s.height && Earlier(x, y, cx, cy) != Earlier(x, y, cx', cy') ==> !s.region.Has(x, y)
    ensures SharpenedUpTo(s, base, data, cx', cy')
  {
    hide At;
  }

  lemma NothingSharpened(s: Sharpening, base: seq<Byte>)
    requires s.Valid() && |base| == s.width * s.height * 3
    ensures SharpenedUpTo(s, base, base, s.region.left, s.region.top)
  {
    hide At;
  }

  lemma AllSharpened(s: Sharpening, base: seq<Byte>, data: seq<Byte>)
    requires s.Valid() && |base| == |data| == s.width * s.height * 3 && SharpenedUpTo(s, base, data, s.region.left, s.region.bottom)
    ensures SharpenedAll(s, base, data)
  {
    hide At;
  }

  lemma PixelSharpened(s: Sharpening, base: seq<Byte>, data: seq<Byte>, x: nat, y: nat)
    requires s.Valid() && |base| == |data| == s.width * s.height * 3 && s.region.Has(x, y) && x < s.width && y < s.height
    requires At(s.width, 3, x, y, 0) + 2 < |data| && SharpenedUpTo(s, base, data, x, y)
    ensures var o := At(s.width, 3, x, y, 0);
            SharpenedUpTo(s, base, WithPixel(data, o, s.Result(x, y, 0, base[o]), s.Result(x, y, 1, base[o + 1]), s.Result(x, y, 2, base[o + 2])),
                          x + 1, y)
  {
    var o := At(s.width, 3, x, y, 0);
    var after := WithPixel(data, o, s.Result(x, y, 0, base[o]), s.Result(x, y, 1, base[o + 1]), s.Result(x, y, 2, base[o + 2]));
    PixelFits(s.width, s.height, 3, x, y);
    hide At, Sharpening.Result, Sharpening.Valid;
    forall x': nat, y': nat, c: nat | x' < s.width && y' < s.height && c < 3 && At(s.width, 3, x', y', c) < |after|
      ensures var k := At(s.width, 3, x', y', c);
              after[k] == if Earlier(x', y', x + 1, y) then s.Result(x', y', c, base[k]) else base[k]
    {
      var k := At(s.width, 3, x', y', c);
      assert data[k] == if Earlier(x', y', x, y) then s.Result(x', y', c, base[k]) else base[k];
      if x' == x && y' == y {
        assert k == o + c;
      } else {
        AtIsInjective(s.width, 3, x, y, 0, x', y', c);
        AtIsInjective(s.width, 3, x, y, 1, x', y', c);
        AtIsInjective(s.width, 3, x, y, 2, x', y', c);
        assert At(s.width, 3, x, y, 1) == o + 1 && At(s.width, 3, x, y, 2) == o + 2;
      }
    }
  }

  /** Writes one pixel of the region; a pixel without coverage is skipped. */
  method SharpenPixel(data: array<Byte>, composed: array<Byte>, s: Sharpening, x: nat, y: nat, target: nat)
    requires s.Valid() && s.region.Has(x, y) && data != composed && data.Length == composed.Length && target + 2 < data.Length
    requires data[target..target + 3] == composed[target..target + 3]
    modifies data
    ensures data[..] == WithPixel(old(data[..]), target, s.Result(x, y, 0, composed[target]), s.Result(x, y, 1, composed[target + 1]),
                                  s.Result(x, y, 2, composed[target + 2]))
  {
    hide Blended, Sharpening.DetailOf, Sharpening.AlphaOf, Sharpening.Valid;
    var alpha := s.AlphaOf(x, y);
    ghost var before := data[..];
    if alpha == 0 {
      BlendEnds(composed[target], s.DetailOf(x, y, 0));
      BlendEnds(composed[target + 1], s.DetailOf(x, y, 1));
      BlendEnds(composed[target + 2], s.DetailOf(x, y, 2));
      assert before[target..target + 3][0] == composed[target] && before[target..target + 3][1] == composed[target + 1]
          && before[target..target + 3][2] == composed[target + 2];
      return;
    }
    for channel := 0 to 3
      invariant forall k :: 0 <= k < data.Length ==>
        data[k] == if target <= k < target + channel then s.Result(x, y, k - target, composed[k]) else before[k]
    {
      data[target + channel] := Blended(composed[target + channel], s.DetailOf(x, y, channel), alpha);
    }
  }

  /**
   * `filter` is the sharpening filter on a region of the image. The result is a copy in which only the covered
   * part of the content moves towards the filtered image; the input is not changed.
   */
  method SharpenWithinLayer(composed: RawImage, layer: Layer, content: SubjectBox, filter: Region -> seq<Byte>)
    returns (enhanced: RawImage, ghost sharpening: Sharpening)
    requires composed.Valid() && composed.channels == 3 && layer.On(composed.width, composed.height)
    requires forall r: Region :: !r.Empty() ==> |filter(r)| == (r.right - r.left) * (r.bottom - r.top) * 3
    ensures Touched(layer, content).Empty() ==> enhanced == composed
    ensures !Touched(layer, content).Empty() ==>
              && enhanced.Valid() && fresh(enhanced.data) && enhanced == composed.(data := enhanced.data)
              && sharpening.Valid() && sharpening.region == Touched(layer, content) && sharpening.layer == layer
              && sharpening.detail == filter(Context(Touched(layer, content), composed.width, composed.height))
              && sharpening.width == composed.width && sharpening.height == composed.height
              && SharpenedAll(sharpening, composed.data[..], enhanced.data[..])
  {
    var region := Touched(layer, content);
    var area := Context(region, composed.width, composed.height);
    var s := Sharpening(composed.width, composed.height, layer, region, []);
    sharpening := s;
    if region.Empty() { return composed, s; }
    s := s.(detail := filter(area));
    sharpening := s;
    var data := new Byte[composed.data.Length](i requires 0 <= i < composed.data.Length reads composed.data => composed.data[i]);
    assert data[..] == composed.data[..];
    hide At, SharpenedUpTo, SharpenedAll, Sharpening.Result;
    SharpenRegion(data, composed.data, s);
    return composed.(data := data), s;
  }

  /** One turn of the loops. */
  method SharpenAt(data: array<Byte>, composed: array<Byte>, s: Sharpening, x: int, y: int)
    requires s.Valid() && data != composed && data.Length == composed.Length == s.width * s.height * 3 && s.region.Has(x, y)
    requires SharpenedUpTo(s, composed[..], data[..], x, y)
    modifies data
    ensures SharpenedUpTo(s, composed[..], data[..], x + 1, y)
  {
    hide At, SharpenedUpTo, Sharpening.Result, Sharpening.Valid, WithPixel;
    RegionHolds(s, x, y, 0);
    AheadIsUnchanged(s, composed[..], data[..], x, y);
    PixelSharpened(s, composed[..], data[..], x, y);
    var target := At(s.width, 3, x, y, 0);
    SharpenPixel(data, composed, s, x, y, target);
  }

  method SharpenRegion(data: array<Byte>, composed: array<Byte>, s: Sharpening)
    requires s.Valid() && data != composed && data.Length == composed.Length == s.width * s.height * 3 && data[..] == composed[..]
    modifies data
    ensures SharpenedAll(s, composed[..], data[..])
  {
    hide At, SharpenedUpTo, SharpenedAll, Sharpening.Result, Context;
    ghost var base := composed[..];
    NothingSharpened(s, base);
    for y := s.region.top to s.region.bottom
      invariant SharpenedUpTo(s, base, data[..], s.region.left, y)
    {
      for x := s.region.left to s.region.right
        invariant SharpenedUpTo(s, base, data[..], x, y)
      {
        SharpenAt(data, composed, s, x, y);
      }
      FrontierMoves(s, base, data[..], s.region.right, y, s.region.left, y + 1);
    }
    AllSharpened(s, base, data[..]);
  }

  /** The pixel the loop comes to still has its original bytes. */
  lemma AheadIsUnchanged(s: Sharpening, base: seq<Byte>, data: seq<Byte>, x: nat, y: nat)
    requires s.Valid() && |base| == |data| == s.width * s.height * 3 && x < s.width && y < s.height && SharpenedUpTo(s, base, data, x, y)
    ensures At(s.width, 3, x, y, 0) + 2 < |data|
    ensures var o := At(s.width, 3, x, y, 0); data[o..o + 3] == base[o..o + 3]
  {
    PixelFits(s.width, s.height, 3, x, y);
    hide At, Sharpening.Result;
    var o := At(s.width, 3, x, y, 0);
    assert At(s.width, 3, x, y, 1) == o + 1 && At(s.width, 3, x, y, 2) == o + 2;
    assert data[o] == base[o] && data[o + 1] == base[o + 1] && data[o + 2] == base[o + 2];
  }

  /** A byte that changed belongs to covered content: the background is returned exactly as it was composed. */
  lemma SharpeningIsConfined(s: Sharpening, content: SubjectBox, x: int, y: int, c: nat, base: Byte)
    requires s.Valid() && s.region == Touched(s.layer, content) && c < 3 && s.Result(x, y, c, base) != base
    ensures InBox(content, x, y) && s.region.Has(x, y) && s.AlphaOf(x, y) > 0
  {
    hide Blended, Sharpening.DetailOf, Sharpening.AlphaOf;
    if s.region.Has(x, y) { BlendEnds(base, s.DetailOf(x, y, c)); }
  }

  // ----- in the bytes of image, layer and filter -----

  lemma BlendedIsRounded(base: Byte, detail: Byte, alpha: Byte)
    ensures IsBlend(Blended(base, detail, alpha), base, detail, alpha)
  {
    var d, b := detail - base, Blended(base, detail, alpha);
    var exact := base as real + Share(d, alpha);
    assert d as real * alpha as real == (d * alpha) as real;
    assert 255.0 * Share(d, alpha) == (d * alpha) as real;
    assert b as real <= exact + 0.5 < b as real + 1.0;
    assert 510.0 * b as real <= 510.0 * base as real + 2.0 * (d * alpha) as real + 255.0 < 510.0 * b as real + 510.0;
  }

  lemma RegionByte(s: Sharpening, base: seq<Byte>, data: seq<Byte>, x: nat, y: nat, c: nat, k: int)
    requires s.Valid() && |base| == |data| == s.width * s.height * 3 && x < s.width && y < s.height && c < 3
    requires SharpenedAll(s, base, data)
    requires k == (y * s.width + x) * 3 + c
    ensures 0 <= k < |data| && data[k] == s.Result(x, y, c, base[k])
  {
    hide Sharpening.Result, Sharpening.Valid;
    AtInRange(s.width, s.height, 3, x, y, c);
    assert At(s.width, 3, x, y, c) == k;
  }

  /** Within layer and content alike. */
  ghost predicate InBoth(layer: Layer, content: SubjectBox, x: int, y: int) {
    && layer.left <= x < layer.left + layer.width && content.left <= x < content.left + content.width
    && layer.top <= y < layer.top + layer.height && content.top <= y < content.top + content.height
  }

  /** The start of the filtered area: four pixels before layer and content, or the canvas's edge. */
  ghost predicate FourBefore(edge: int, a: int, b: int) {
    var first := if a >= b then a else b;
    edge == if first < 4 then 0 else first - 4
  }

  /** `result` is `base` moved towards `detail` by `alpha` over 255, rounded, halves up. */
  ghost predicate IsBlend(result: int, base: int, detail: int, alpha: int) {
    0 <= 510 * base + 2 * (detail - base) * alpha + 255 - 510 * result < 510
  }

  lemma PlacesOf(s: Sharpening, x: int, y: int, c: nat, left: nat, top: nat, a: int, f: int)
    requires s.Valid() && s.region.Has(x, y) && c < 3 && s.Area().left == left && s.Area().top == top
    requires a == ((y - s.layer.top) * s.layer.width + (x - s.layer.left)) * 4 + 3
    requires f == ((y - top) * (s.Area().right - left) + (x - left)) * 3 + c
    ensures 0 <= a < |s.layer.data| && s.AlphaOf(x, y) == s.layer.data[a]
    ensures 0 <= f < |s.detail| && s.DetailOf(x, y, c) == s.detail[f]
  {
    hide Context, Sharpening.Valid;
    RegionHolds(s, x, y, c);
  }

  /**
   * The filtered area starts four pixels before layer and content, at the canvas's edge at most. Within both, a byte is
   * the base moved towards the filtered one, at `f`, by the layer's alpha, at `a`; elsewhere it is the base.
   */
  lemma ByteIsBlended(s: Sharpening, content: SubjectBox, base: seq<Byte>, data: seq<Byte>, x: nat, y: nat, c: nat,
                      left: nat, top: nat, k: int, a: int, f: int)
    requires s.Valid() && |base| == |data| == s.width * s.height * 3 && x < s.width && y < s.height && c < 3
    requires SharpenedAll(s, base, data)
    requires s.region == Touched(s.layer, content)
    requires FourBefore(left, s.layer.left, content.left) && FourBefore(top, s.layer.top, content.top)
    requires k == (y * s.width + x) * 3 + c
    requires a == ((y - s.layer.top) * s.layer.width + (x - s.layer.left)) * 4 + 3
    requires f == ((y - top) * (s.Area().right - left) + (x - left)) * 3 + c
    ensures 0 <= k < |data|
    ensures !InBoth(s.layer, content, x, y) ==> data[k] == base[k]
    ensures InBoth(s.layer, content, x, y) ==>
              0 <= a < |s.layer.data| && 0 <= f < |s.detail| && IsBlend(data[k], base[k], s.detail[f], s.layer.data[a])
  {
    hide SharpenedAll, Blended, Sharpening.Valid, Sharpening.AlphaOf, Sharpening.DetailOf, IsBlend;
    RegionByte(s, base, data, x, y, c, k);
    assert s.region.Has(x, y) <==> InBoth(s.layer, content, x, y);
    assert s.Area().left == left && s.Area().top == top;
    if InBoth(s.layer, content, x, y) {
      PlacesOf(s, x, y, c, left, top, a, f);
      BlendedIsRounded(base[k], s.DetailOf(x, y, c), s.AlphaOf(x, y));
    }
  }

  /** The filtered area ends four pixels behind layer and content, or at the canvas's far edges. */
  lemma AreaEndsFourBehind(s: Sharpening, content: SubjectBox)
    requires s.region == Touched(s.layer, content)
    ensures var right, end := s.layer.left + s.layer.width, content.left + content.width;
            var last := if right <= end then right else end;
            s.Area().right == if last + 4 > s.width then s.width else last + 4
    ensures var bottom, end := s.layer.top + s.layer.height, content.top + content.height;
            var last := if bottom <= end then bottom else end;
            s.Area().bottom == if last + 4 > s.height then s.height else last + 4
  {
  }
}
