/** Raw images and row-major positions in them. */
module Rasters {

  type Byte = b: nat | b < 256

  /** Pixels row by row, `channels` bytes to a pixel. */
  datatype RawImage = RawImage(channels: nat, width: nat, height: nat, data: array<Byte>) {
    predicate Valid() {
      (channels == 3 || channels == 4) && data.Length == width * height * channels
    }
  }

  function Column(width: nat, i: nat): nat
    requires width > 0
  {
    i % width
  }

  function Row(width: nat, i: nat): nat
    requires width > 0
  {
    i / width
  }

  lemma CellCoordinates(width: nat, x: nat, y: nat)
    requires x < width
    ensures Column(width, y * width + x) == x && Row(width, y * width + x) == y
  {
    var q, r := (y * width + x) / width, (y * width + x) % width;
    assert q * width + r == y * width + x;
    if q < y { MultipleGap(width, q, y); }
    if q > y { MultipleGap(width, y, q); }
  }

  lemma MultipleGap(width: nat, a: nat, b: nat)
    requires a < b
    ensures b * width >= a * width + width
  {
    var d := b - a - 1;
    assert b * width == (a + 1 + d) * width == a * width + width + d * width;
    ProductIsNatural(d, width);
  }

  lemma ProductIsNatural(a: nat, b: nat)
    ensures a * b >= 0
  {
  }

  lemma CellInRange(width: nat, height: nat, x: nat, y: nat)
    requires x < width && y < height
    ensures y * width + x < width * height
  {
    MultipleGap(width, y, height);
  }

  lemma RowInRange(width: nat, height: nat, i: nat)
    requires width > 0 && i < width * height
    ensures Row(width, i) < height
  {
  }

  /** The position of channel `c` of pixel `(x, y)` in interleaved pixel data. */
  function At(width: nat, channels: nat, x: nat, y: nat, c: nat): nat {
    (y * width + x) * channels + c
  }

  lemma AtInRange(width: nat, height: nat, channels: nat, x: nat, y: nat, c: nat)
    requires x < width && y < height && c < channels
    ensures At(width, channels, x, y, c) < width * height * channels
  {
    CellInRange(width, height, x, y);
    CellInRange(channels, width * height, c, y * width + x);
    assert channels * (width * height) == width * height * channels;
  }

  lemma AtIsInjective(width: nat, channels: nat, x: nat, y: nat, c: nat, x': nat, y': nat, c': nat)
    requires x < width && x' < width && c < channels && c' < channels
    ensures At(width, channels, x, y, c) == At(width, channels, x', y', c') <==> x == x' && y == y' && c == c'
  {
    SameCell(channels, c, y * width + x, c', y' * width + x');
    SameCell(width, x, y, x', y');
  }

  lemma SameCell(width: nat, x: nat, y: nat, x': nat, y': nat)
    requires x < width && x' < width
    ensures y * width + x == y' * width + x' <==> x == x' && y == y'
  {
    CellCoordinates(width, x, y);
    CellCoordinates(width, x', y');
    hide Column, Row;
  }

  /** In row order, pixel `(x, y)` comes before `(cx, cy)`. */
  predicate Earlier(x: int, y: int, cx: int, cy: int) {
    y < cy || (y == cy && x < cx)
  }

  /** Three colour bytes of one pixel replaced. */
  function WithPixel(data: seq<Byte>, offset: nat, r: Byte, g: Byte, b: Byte): seq<Byte>
    requires offset + 2 < |data|
  {
    data[offset := r][offset + 1 := g][offset + 2 := b]
  }

  lemma PixelFits(width: nat, height: nat, channels: nat, x: nat, y: nat)
    requires x < width && y < height && channels >= 3
    ensures forall c: nat {:trigger At(width, channels, x, y, c)} :: c < channels ==>
      At(width, channels, x, y, c) == At(width, channels, x, y, 0) + c < width * height * channels
  {
    forall c: nat | c < channels ensures At(width, channels, x, y, c) == At(width, channels, x, y, 0) + c < width * height * channels {
      AtInRange(width, height, channels, x, y, c);
    }
  }
}
