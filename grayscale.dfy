/**
 * The grayscale pre-pass: every RGBA pixel's red, green and blue slots are
 * replaced by its luma, with the luma coefficients of ITU-R BT.709 (Item 3.2),
 * stored through a Uint8ClampedArray; alpha is left alone.
 */
module Grayscale {
  import opened Pixels

  /** 0.2126 R + 0.7152 G + 0.0722 B. */
  function Luma(r: real, g: real, b: real): real {
    0.2126 * r + 0.7152 * g + 0.0722 * b
  }

  /** The weights sum to 1, so the luma of a gray pixel is its own level. */
  lemma LumaOfGray(v: real)
    ensures Luma(v, v, v) == v
  {
  }

  /** The luma of three bytes is a level a byte can hold: storing it only rounds. */
  lemma LumaInByteRange(r: Byte, g: Byte, b: Byte)
    ensures 0.0 <= Luma(r as real, g as real, b as real) <= 255.0
  {
  }

  /** The byte stored for the pixel whose red slot is `base`. */
  function LumaAt(s: seq<Byte>, base: int): Byte
    requires 0 <= base && base + 2 < |s|
  {
    ToUint8Clamped(Luma(s[base] as real, s[base + 1] as real, s[base + 2] as real))
  }

  /** The buffer once the pixels in the first n slots are converted. */
  function Grayscaled(s: seq<Byte>, n: int): (r: seq<Byte>)
    requires 0 <= n <= |s| && n % 4 == 0
    ensures |r| == |s|
  {
    seq(|s|, p requires 0 <= p < |s| =>
      if p < n && p % 4 < 3 then LumaAt(s, p - p % 4) else s[p])
  }

  /** Converted pixels are gray, alpha slots and slots past n are untouched. */
  lemma GrayscaledPixels(s: seq<Byte>, n: int, base: int)
    requires 0 <= n <= |s| && n % 4 == 0
    requires 0 <= base < |s| - 3 && base % 4 == 0
    ensures var g := Grayscaled(s, n);
            g[base + 3] == s[base + 3] &&
            if base < n then g[base] == g[base + 1] == g[base + 2] == LumaAt(s, base)
            else g[base] == s[base] && g[base + 1] == s[base + 1] && g[base + 2] == s[base + 2]
  {
    SlotOfPixel(base, 0);
    SlotOfPixel(base, 1);
    SlotOfPixel(base, 2);
    SlotOfPixel(base, 3);
  }

  /** Converting twice is the same as converting once. */
  lemma GrayscaleIdempotent(s: seq<Byte>, n: int)
    requires 0 <= n <= |s| && n % 4 == 0
    ensures Grayscaled(Grayscaled(s, n), n) == Grayscaled(s, n)
  {
    forall p | 0 <= p < |s|
      ensures Grayscaled(Grayscaled(s, n), n)[p] == Grayscaled(s, n)[p]
    {
      GrayscaleIdempotentAt(s, n, p);
    }
  }

  /** The slot-by-slot step of GrayscaleIdempotent: a converted pixel is gray,
      and the luma of a gray pixel stores back as the same byte. */
  lemma GrayscaleIdempotentAt(s: seq<Byte>, n: int, p: int)
    requires 0 <= n <= |s| && n % 4 == 0 && 0 <= p < |s|
    ensures Grayscaled(Grayscaled(s, n), n)[p] == Grayscaled(s, n)[p]
  {
    var g := Grayscaled(s, n);
    if p < n && p % 4 < 3 {
      var base := p - p % 4;
      var v := LumaAt(s, base);
      assert base + 3 < |s| && g[base] == v && g[base + 1] == v && g[base + 2] == v by {
        SlotOfPixel(base, p % 4);
        NextPixelFits(base, n);
        GrayscaledPixels(s, n, base);
      }
      assert LumaAt(g, base) == v by {
        LumaOfGray(v as real);
        ToUint8ClampedOfByte(v);
      }
      assert Grayscaled(g, n)[p] == LumaAt(g, base) && g[p] == v by {
        SlotOfPixel(base, p % 4);
      }
    }
  }

  /** The pixel (100, 150, 200, 255) becomes (143, 143, 143, 255): its luma
      142.98 is rounded by the store. */
  lemma GrayscaleExample()
    ensures Grayscaled([100, 150, 200, 255], 4) == [143, 143, 143, 255]
  {
    var s: seq<Byte> := [100, 150, 200, 255];
    assert Luma(100.0, 150.0, 200.0) == 142.98;
    assert LumaAt(s, 0) == 143;
  }
}
