/**
 * Pixel buffers as the processor sees them: a flat Uint8ClampedArray with a
 * stride of four slots per pixel, row-major, whatever the channel count.
 */
module Pixels {

  /** One slot of a Uint8ClampedArray. */
  type Byte = x: int | 0 <= x < 256

  /** The slot of channel `channel` of pixel (row, col): `row*width*4 + (col*4 + channel)`. */
  function SampleIndex(width: int, row: int, col: int, channel: int): int {
    row * width * 4 + col * 4 + channel
  }

  /** The image row of slot p. */
  function PixelRow(width: int, p: int): int
    requires width > 0
  {
    p / 4 / width
  }

  /** The image column of slot p. */
  function PixelCol(width: int, p: int): int
    requires width > 0
  {
    p / 4 % width
  }

  /** A positive multiple of b is at least b. */
  lemma MultipleAtLeast(k: int, b: int)
    requires k >= 1 && b > 0
    ensures k * b >= b
  {
  }

  /** Euclidean division is determined by any quotient and remainder in range. */
  lemma DivModUnique(a: int, b: int, q: int, r: int)
    requires b > 0 && 0 <= r < b && a == q * b + r
    ensures a / b == q && a % b == r
  {
    var q', r' := a / b, a % b;
    assert a == q' * b + r' && 0 <= r' < b;
    if q > q' {
      MultipleAtLeast(q - q', b);
      assert false;
    } else if q < q' {
      MultipleAtLeast(q' - q, b);
      assert false;
    }
  }

  /** Multiplying by a non-negative factor keeps the order. */
  lemma MulLe(a: int, b: int, c: int)
    requires a <= b && c >= 0
    ensures a * c <= b * c
  {
    assert b * c == a * c + (b - a) * c;
  }

  /** Any pixel of a width-by-height image has its slots inside the buffer. */
  lemma SampleIndexInBuffer(width: int, height: int, row: int, col: int, channel: int)
    requires 0 <= row < height && 0 <= col < width && 0 <= channel < 4
    ensures 0 <= SampleIndex(width, row, col, channel) < width * height * 4
  {
    var q := row * width + col;
    assert SampleIndex(width, row, col, channel) == q * 4 + channel;
    assert 0 <= row * width by {
      MulLe(0, row, width);
    }
    assert q + 1 <= height * width by {
      assert (row + 1) * width == row * width + width;
      MulLe(row + 1, height, width);
    }
    assert (q + 1) * 4 <= width * height * 4 by {
      MulLe(q + 1, height * width, 4);
      assert height * width == width * height;
    }
  }

  /** The slot after the last pixel is the first slot of row `height`. */
  lemma PastLastRow(width: int, height: int)
    ensures SampleIndex(width, height, 0, 0) == width * height * 4
  {
    assert height * width == width * height;
  }

  /** Slot, pixel and channel determine each other. */
  lemma SampleIndexRoundTrip(width: int, row: int, col: int, channel: int)
    requires width > 0 && row >= 0 && 0 <= col < width && 0 <= channel < 4
    ensures PixelRow(width, SampleIndex(width, row, col, channel)) == row
    ensures PixelCol(width, SampleIndex(width, row, col, channel)) == col
    ensures SampleIndex(width, row, col, channel) % 4 == channel
  {
    var q := row * width + col;
    var p := SampleIndex(width, row, col, channel);
    assert p == q * 4 + channel;
    DivModUnique(p, 4, q, channel);
    DivModUnique(q, width, row, col);
  }

  /** Every slot is the slot of its own pixel and channel. */
  lemma SampleIndexDecompose(width: int, p: int)
    requires width > 0 && p >= 0
    ensures SampleIndex(width, PixelRow(width, p), PixelCol(width, p), p % 4) == p
  {
    var q := p / 4;
    assert p == q * 4 + p % 4;
    assert q == PixelRow(width, p) * width + PixelCol(width, p);
    assert SampleIndex(width, PixelRow(width, p), PixelCol(width, p), p % 4)
        == (PixelRow(width, p) * width + PixelCol(width, p)) * 4 + p % 4;
  }

  /** The first slot of a pixel lies in the same pixel as every slot of it. */
  lemma PixelBase(width: int, p: int)
    requires width > 0 && p >= 0
    ensures (p - p % 4) % 4 == 0 && p - p % 4 >= 0
    ensures PixelRow(width, p - p % 4) == PixelRow(width, p)
    ensures PixelCol(width, p - p % 4) == PixelCol(width, p)
  {
    DivModUnique(p - p % 4, 4, p / 4, 0);
  }

  /** The k-th slot of a pixel whose red slot is `base`. */
  lemma SlotOfPixel(base: int, k: int)
    requires base >= 0 && base % 4 == 0 && 0 <= k < 4
    ensures (base + k) % 4 == k && (base + k) - (base + k) % 4 == base
  {
    DivModUnique(base + k, 4, base / 4, k);
  }

  /** A whole pixel starting at p fits in a buffer of whole pixels. */
  lemma NextPixelFits(p: int, len: int)
    requires 0 <= p < len && p % 4 == 0 && len % 4 == 0
    ensures p + 4 <= len
  {
    DivModUnique(p, 4, p / 4, 0);
    DivModUnique(len, 4, len / 4, 0);
  }

  /** A non-empty buffer of width*height*4 slots has a positive width. */
  lemma NonEmptyBuffer(width: nat, height: nat, p: int)
    requires 0 <= p < width * height * 4
    ensures width > 0 && height > 0
  {
  }

  /** A buffer of width*height*4 slots holds whole pixels. */
  lemma WholePixels(width: nat, height: nat)
    ensures (width * height * 4) % 4 == 0
  {
    DivModUnique(width * height * 4, 4, width * height, 0);
  }

  /** `Math.floor(255*v)` after v is clamped to [0, 1]: the value written back
      for a convolution sum. */
  function Quantize(x: real): (r: Byte)
    ensures x <= 0.0 ==> r == 0
    ensures x >= 1.0 ==> r == 255
    ensures 0.0 <= x <= 1.0 ==> r as real <= 255.0 * x < r as real + 1.0
  {
    var v := if x < 0.0 then 0.0 else if x > 1.0 then 1.0 else x;
    (255.0 * v).Floor
  }

  /** The conversion a Uint8ClampedArray applies to a number stored into it:
      clamp to [0, 255], then round to the nearest integer, ties to even. */
  function ToUint8Clamped(x: real): (r: Byte)
    ensures x <= 0.0 ==> r == 0
    ensures x >= 255.0 ==> r == 255
    ensures 0.0 <= x <= 255.0 ==> r as real - 0.5 <= x <= r as real + 0.5
    ensures 0.0 <= x <= 255.0 && (x - r as real == 0.5 || r as real - x == 0.5) ==> r % 2 == 0
  {
    if x <= 0.0 then 0
    else if x >= 255.0 then 255
    else
      var f := x.Floor;
      var d := x - f as real;
      if d < 0.5 then f
      else if d > 0.5 then f + 1
      else if f % 2 == 0 then f
      else f + 1
  }

  /** Storing a value that is already a byte leaves it as it is. */
  lemma ToUint8ClampedOfByte(b: Byte)
    ensures ToUint8Clamped(b as real) == b
  {
    var r := ToUint8Clamped(b as real);
    assert r as real - 0.5 <= b as real <= r as real + 0.5;
  }
}
