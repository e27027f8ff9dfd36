/**
 * How a convolution pass answers a flat region: away from the border every
 * tap of the kernel lands in the image, so the sum is the kernel's weight sum
 * times the normalised sample, and the catalog's filters either keep the
 * level (weights summing to 1), darken it by one step (weights summing to a
 * little under 1) or send it to black (weights summing to 0).
 */
module Uniform {
  import opened Filters
  import opened Pixels
  import opened Convolution

  /** The first n taps of kernel row fr over a flat input of normalised
      level `level`, summed in loop order. */
  function ScaledRow(f: Filter, fr: int, n: int, level: real): real
    requires f.WellFormed() && 0 <= fr < f.size && 0 <= n <= f.size
    decreases n
  {
    if n == 0 then 0.0 else ScaledRow(f, fr, n - 1, level) + f.Weight(fr, n - 1) * level
  }

  /** The first m kernel rows over a flat input of level `level`. */
  function ScaledRows(f: Filter, m: int, level: real): real
    requires f.WellFormed() && 0 <= m <= f.size
    decreases m
  {
    if m == 0 then 0.0 else ScaledRows(f, m - 1, level) + ScaledRow(f, m - 1, f.size, level)
  }

  /** The kernel sum a filter produces over a flat input of level `level`. */
  function Response(f: Filter, level: real): real
    requires f.WellFormed()
  {
    ScaledRows(f, f.size, level)
  }

  /** The kernel centred on (row, col) reaches no tap outside the image. */
  predicate Interior(width: int, height: int, f: Filter, row: int, col: int) {
    Reach(f) <= row < height - Reach(f) && Reach(f) <= col < width - Reach(f)
  }

  /** Every pixel holds v in channel ch. */
  predicate UniformChannel(src: seq<Byte>, ch: int, v: Byte) {
    forall p :: 0 <= p < |src| && p % 4 == ch ==> src[p] == v
  }

  /** What tap (fr, fc) of the kernel centred on (row, col) adds over a flat
      input of level `level`: its weight times the level where the tap lands in
      the image, and nothing where it falls outside (zero padding). */
  function ClippedTap(width: int, height: int, f: Filter, row: int, col: int,
                      fr: int, fc: int, level: real): real
    requires f.WellFormed() && 0 <= fr < f.size && 0 <= fc < f.size
  {
    if InImage(width, height, row + (fr - Reach(f)), col + (fc - Reach(f)))
    then f.Weight(fr, fc) * level
    else 0.0
  }

  /** The first n clipped taps of kernel row fr, summed in loop order. */
  function ClippedRow(width: int, height: int, f: Filter, row: int, col: int,
                      fr: int, n: int, level: real): real
    requires f.WellFormed() && 0 <= fr < f.size && 0 <= n <= f.size
    decreases n
  {
    if n == 0 then 0.0
    else ClippedRow(width, height, f, row, col, fr, n - 1, level)
         + ClippedTap(width, height, f, row, col, fr, n - 1, level)
  }

  /** The first m clipped kernel rows. */
  function ClippedRows(width: int, height: int, f: Filter, row: int, col: int,
                       m: int, level: real): real
    requires f.WellFormed() && 0 <= m <= f.size
    decreases m
  {
    if m == 0 then 0.0
    else ClippedRows(width, height, f, row, col, m - 1, level)
         + ClippedRow(width, height, f, row, col, m - 1, f.size, level)
  }

  /** The kernel sum a filter centred on (row, col) produces over a flat input
      of level `level`, counting only the taps that land in the image. */
  function ClippedResponse(width: int, height: int, f: Filter, row: int, col: int,
                           level: real): real
    requires f.WellFormed()
  {
    ClippedRows(width, height, f, row, col, f.size, level)
  }

  /** Over a channel flat at v, a tap adds its weight times v/255 where it
      lands in the image and 0 where it falls outside. */
  lemma TapOnFlat(src: seq<Byte>, width: nat, height: nat, f: Filter,
                  row: int, col: int, ch: int, fr: int, fc: int, v: Byte)
    requires |src| == width * height * 4 && f.WellFormed()
    requires 0 <= ch < 4 && 0 <= fr < f.size && 0 <= fc < f.size
    requires UniformChannel(src, ch, v)
    ensures Tap(src, width, height, f, row, col, ch, fr, fc)
         == ClippedTap(width, height, f, row, col, fr, fc, v as real / 255.0)
  {
    var r := row + (fr - Reach(f));
    var c := col + (fc - Reach(f));
    if InImage(width, height, r, c) {
      SampleIndexInBuffer(width, height, r, c, ch);
      SampleIndexRoundTrip(width, r, c, ch);
    }
  }

  /** Every tap of the kernel centred on (row, col) is its clipped flat tap. */
  predicate FlatTaps(src: seq<Byte>, width: nat, height: nat, f: Filter,
                     row: int, col: int, ch: int, level: real)
    requires |src| == width * height * 4 && f.WellFormed() && 0 <= ch < 4
  {
    forall fr, fc :: 0 <= fr < f.size && 0 <= fc < f.size ==>
      Tap(src, width, height, f, row, col, ch, fr, fc) == ClippedTap(width, height, f, row, col, fr, fc, level)
  }

  /** A kernel row over flat taps sums to its clipped flat taps. */
  lemma {:induction false} RowSumFlat(src: seq<Byte>, width: nat, height: nat, f: Filter,
                                      row: int, col: int, ch: int, fr: int, n: int, level: real)
    requires |src| == width * height * 4 && f.WellFormed()
    requires 0 <= ch < 4 && 0 <= fr < f.size && 0 <= n <= f.size
    requires FlatTaps(src, width, height, f, row, col, ch, level)
    ensures RowSum(src, width, height, f, row, col, ch, fr, n) == ClippedRow(width, height, f, row, col, fr, n, level)
    decreases n
  {
    if n > 0 {
      RowSumFlat(src, width, height, f, row, col, ch, fr, n - 1, level);
    }
  }

  /** The first m kernel rows over flat taps sum to their clipped flat taps. */
  lemma {:induction false} RowsSumFlat(src: seq<Byte>, width: nat, height: nat, f: Filter,
                                       row: int, col: int, ch: int, m: int, level: real)
    requires |src| == width * height * 4 && f.WellFormed()
    requires 0 <= ch < 4 && 0 <= m <= f.size
    requires FlatTaps(src, width, height, f, row, col, ch, level)
    ensures RowsSum(src, width, height, f, row, col, ch, m) == ClippedRows(width, height, f, row, col, m, level)
    decreases m
  {
    if m > 0 {
      RowsSumFlat(src, width, height, f, row, col, ch, m - 1, level);
      RowSumFlat(src, width, height, f, row, col, ch, m - 1, f.size, level);
    }
  }

  /** Zero padding: at every pixel, border or not, the kernel sum over a
      channel flat at v counts exactly the taps that land in the image. */
  lemma FlatKernelSumAnywhere(src: seq<Byte>, width: nat, height: nat, f: Filter,
                              row: int, col: int, ch: int, v: Byte)
    requires |src| == width * height * 4 && f.WellFormed() && 0 <= ch < 4
    requires UniformChannel(src, ch, v)
    ensures KernelSum(src, width, height, f, row, col, ch)
         == ClippedResponse(width, height, f, row, col, v as real / 255.0)
  {
    var level := v as real / 255.0;
    forall fr, fc | 0 <= fr < f.size && 0 <= fc < f.size
      ensures Tap(src, width, height, f, row, col, ch, fr, fc) == ClippedTap(width, height, f, row, col, fr, fc, level)
    {
      TapOnFlat(src, width, height, f, row, col, ch, fr, fc, v);
    }
    RowsSumFlat(src, width, height, f, row, col, ch, f.size, level);
  }

  /** Away from the border no tap is clipped: a clipped row is the whole row. */
  lemma {:induction false} ClippedRowInterior(width: int, height: int, f: Filter, row: int, col: int,
                                              fr: int, n: int, level: real)
    requires f.WellFormed() && 0 <= fr < f.size && 0 <= n <= f.size
    requires Interior(width, height, f, row, col)
    ensures ClippedRow(width, height, f, row, col, fr, n, level) == ScaledRow(f, fr, n, level)
    decreases n
  {
    if n > 0 {
      ClippedRowInterior(width, height, f, row, col, fr, n - 1, level);
      assert f.size == 2 * Reach(f) + 1;
    }
  }

  /** Away from the border no row is clipped either. */
  lemma {:induction false} ClippedRowsInterior(width: int, height: int, f: Filter, row: int, col: int,
                                               m: int, level: real)
    requires f.WellFormed() && 0 <= m <= f.size
    requires Interior(width, height, f, row, col)
    ensures ClippedRows(width, height, f, row, col, m, level) == ScaledRows(f, m, level)
    decreases m
  {
    if m > 0 {
      ClippedRowsInterior(width, height, f, row, col, m - 1, level);
      ClippedRowInterior(width, height, f, row, col, m - 1, f.size, level);
    }
  }

  /** Away from the border, the kernel sum over a channel that is flat at v
      is the filter's response to level v/255. */
  lemma FlatKernelSum(src: seq<Byte>, width: nat, height: nat, f: Filter,
                      row: int, col: int, ch: int, v: Byte)
    requires |src| == width * height * 4 && f.WellFormed() && 0 <= ch < 4
    requires Interior(width, height, f, row, col) && UniformChannel(src, ch, v)
    ensures KernelSum(src, width, height, f, row, col, ch) == Response(f, v as real / 255.0)
  {
    FlatKernelSumAnywhere(src, width, height, f, row, col, ch, v);
    ClippedRowsInterior(width, height, f, row, col, f.size, v as real / 255.0);
  }

  /** Wherever slot p lies, over a source channel flat at v a pass writes the
      quantised sum of the kernel's taps that land in the image. */
  lemma FlatSample(src: seq<Byte>, width: nat, height: nat, numChannels: int,
                   f: Filter, p: int, v: Byte)
    requires |src| == width * height * 4 && f.WellFormed() && 0 <= p < |src| && p % 4 != 3
    requires UniformChannel(src, SourceChannel(numChannels, p), v)
    ensures width > 0
    ensures Convolved(src, width, height, numChannels, f)[p]
         == Quantize(ClippedResponse(width, height, f, PixelRow(width, p), PixelCol(width, p), v as real / 255.0))
  {
    NonEmptyBuffer(width, height, p);
    var row := PixelRow(width, p);
    var col := PixelCol(width, p);
    var ch := SourceChannel(numChannels, p);
    assert Convolved(src, width, height, numChannels, f)[p]
        == Quantize(KernelSum(src, width, height, f, row, col, ch));
    FlatKernelSumAnywhere(src, width, height, f, row, col, ch, v);
  }

  /** Where the kernel stays inside the image and the source channel is flat
      at v, a pass writes the quantised response of the filter to level v/255. */
  lemma UniformInteriorSample(src: seq<Byte>, width: nat, height: nat, numChannels: int,
                              f: Filter, p: int, v: Byte)
    requires |src| == width * height * 4 && f.WellFormed() && 0 <= p < |src| && p % 4 != 3
    requires width > 0 && Interior(width, height, f, PixelRow(width, p), PixelCol(width, p))
    requires UniformChannel(src, SourceChannel(numChannels, p), v)
    ensures Convolved(src, width, height, numChannels, f)[p] == Quantize(Response(f, v as real / 255.0))
  {
    FlatSample(src, width, height, numChannels, f, p, v);
    ClippedRowsInterior(width, height, f, PixelRow(width, p), PixelCol(width, p), f.size, v as real / 255.0);
  }

  /** Sharpen's rows sum to -1, 3 and -1: a flat input comes back unchanged. */
  lemma SharpenResponse(level: real)
    ensures FilterData[Sharpen].WellFormed()
    ensures Response(FilterData[Sharpen], level) == level
  {
    var f := FilterData[Sharpen];
    assert f.WellFormed();
    assert ScaledRow(f, 0, 3, level) == -level;
    assert ScaledRow(f, 1, 3, level) == 3.0 * level;
    assert ScaledRow(f, 2, 3, level) == -level;
  }

  /** The 3x3 Gaussian's rows sum to 1/4, 1/2 and 1/4: a flat input comes back unchanged. */
  lemma GaussianBlurResponse(level: real)
    ensures FilterData[GaussianBlur].WellFormed()
    ensures Response(FilterData[GaussianBlur], level) == level
  {
    var f := FilterData[GaussianBlur];
    assert f.WellFormed();
    assert ScaledRow(f, 0, 3, level) == 0.25 * level;
    assert ScaledRow(f, 1, 3, level) == 0.5 * level;
    assert ScaledRow(f, 2, 3, level) == 0.25 * level;
  }

  /** A five-wide row over a flat input, written out tap by tap. */
  lemma ScaledRowOfFive(f: Filter, fr: int, level: real)
    requires f.WellFormed() && f.size == 5 && 0 <= fr < 5
    ensures ScaledRow(f, fr, 5, level)
         == f.Weight(fr, 0) * level + f.Weight(fr, 1) * level + f.Weight(fr, 2) * level
          + f.Weight(fr, 3) * level + f.Weight(fr, 4) * level
  {
    assert ScaledRow(f, fr, 2, level) == f.Weight(fr, 0) * level + f.Weight(fr, 1) * level;
  }

  /** The first and last rows of the 5x5 Gaussian each sum to 0.06136. */
  lemma Gaussian5x5OuterRows(level: real)
    ensures FilterData[GaussianBlur5x5].WellFormed()
    ensures ScaledRow(FilterData[GaussianBlur5x5], 0, 5, level) == 0.06136 * level
    ensures ScaledRow(FilterData[GaussianBlur5x5], 4, 5, level) == 0.06136 * level
  {
    var f := FilterData[GaussianBlur5x5];
    assert f.WellFormed();
    ScaledRowOfFive(f, 0, level);
    ScaledRowOfFive(f, 4, level);
  }

  /** The second and fourth rows of the 5x5 Gaussian each sum to 0.244769. */
  lemma Gaussian5x5InnerRows(level: real)
    ensures FilterData[GaussianBlur5x5].WellFormed()
    ensures ScaledRow(FilterData[GaussianBlur5x5], 1, 5, level) == 0.244769 * level
    ensures ScaledRow(FilterData[GaussianBlur5x5], 3, 5, level) == 0.244769 * level
  {
    var f := FilterData[GaussianBlur5x5];
    assert f.WellFormed();
    ScaledRowOfFive(f, 1, level);
    ScaledRowOfFive(f, 3, level);
  }

  /** The middle row of the 5x5 Gaussian sums to 0.38774. */
  lemma Gaussian5x5MiddleRow(level: real)
    ensures FilterData[GaussianBlur5x5].WellFormed()
    ensures ScaledRow(FilterData[GaussianBlur5x5], 2, 5, level) == 0.38774 * level
  {
    var f := FilterData[GaussianBlur5x5];
    assert f.WellFormed();
    ScaledRowOfFive(f, 2, level);
  }

  /** The 5x5 Gaussian's weights sum to 0.999998, a little under 1. */
  lemma GaussianBlur5x5Response(level: real)
    ensures FilterData[GaussianBlur5x5].WellFormed()
    ensures Response(FilterData[GaussianBlur5x5], level) == 0.999998 * level
  {
    var f := FilterData[GaussianBlur5x5];
    assert f.WellFormed();
    Gaussian5x5OuterRows(level);
    Gaussian5x5InnerRows(level);
    Gaussian5x5MiddleRow(level);
    assert ScaledRows(f, 2, level) == ScaledRow(f, 0, 5, level) + ScaledRow(f, 1, 5, level);
  }

  /** Vertical Emboss's rows sum to 1, 0 and -1: a flat input gives 0. */
  lemma VerticalEmbossResponse(level: real)
    ensures FilterData[VerticalEmboss].WellFormed()
    ensures Response(FilterData[VerticalEmboss], level) == 0.0
  {
    var f := FilterData[VerticalEmboss];
    assert f.WellFormed();
    assert ScaledRow(f, 0, 3, level) == level;
    assert ScaledRow(f, 1, 3, level) == 0.0;
    assert ScaledRow(f, 2, 3, level) == -level;
  }

  /** The LoG kernel's rows sum to -3, 6 and -3: a flat input gives 0. */
  lemma LoGResponse(level: real)
    ensures FilterData[LoG].WellFormed()
    ensures Response(FilterData[LoG], level) == 0.0
  {
    var f := FilterData[LoG];
    assert f.WellFormed();
    assert ScaledRow(f, 0, 3, level) == -3.0 * level;
    assert ScaledRow(f, 1, 3, level) == 6.0 * level;
    assert ScaledRow(f, 2, 3, level) == -3.0 * level;
  }

  /** Box Blur's nine weights of 0.111 answer a flat input with 0.999 of it. */
  lemma BoxBlurResponse(level: real)
    ensures FilterData[BoxBlur].WellFormed()
    ensures Response(FilterData[BoxBlur], level) == 0.999 * level
  {
    var f := FilterData[BoxBlur];
    assert f.WellFormed();
    assert ScaledRow(f, 0, 3, level) == 0.333 * level;
    assert ScaledRow(f, 1, 3, level) == 0.333 * level;
    assert ScaledRow(f, 2, 3, level) == 0.333 * level;
  }

  /** A gain of exactly 1 writes the source byte back. */
  lemma QuantizeUnitGain(v: Byte, x: real)
    requires x == v as real / 255.0
    ensures Quantize(x) == v
  {
    assert 255.0 * x == v as real;
  }

  /** A gain of 0.999 loses one step on every level but 0. */
  lemma QuantizeBoxBlurGain(v: Byte, x: real)
    requires x == 0.999 * (v as real / 255.0)
    ensures Quantize(x) == if v == 0 then 0 else v - 1
  {
    assert 255.0 * x == 0.999 * v as real;
  }

  /** A gain of 0.999998 loses one step on every level but 0. */
  lemma QuantizeGaussian5x5Gain(v: Byte, x: real)
    requires x == 0.999998 * (v as real / 255.0)
    ensures Quantize(x) == if v == 0 then 0 else v - 1
  {
    assert 255.0 * x == 0.999998 * v as real;
  }

  /** The byte Sharpen and the 3x3 Gaussian make of a flat level v: v itself. */
  lemma UnitGainOnFlat(v: Byte)
    ensures FilterData[Sharpen].WellFormed() && FilterData[GaussianBlur].WellFormed()
    ensures Quantize(Response(FilterData[Sharpen], v as real / 255.0)) == v
    ensures Quantize(Response(FilterData[GaussianBlur], v as real / 255.0)) == v
  {
    var level := v as real / 255.0;
    SharpenResponse(level);
    QuantizeUnitGain(v, Response(FilterData[Sharpen], level));
    GaussianBlurResponse(level);
    QuantizeUnitGain(v, Response(FilterData[GaussianBlur], level));
  }

  /** The byte the 5x5 Gaussian makes of a flat level v: one step less,
      except at 0. */
  lemma Gaussian5x5OnFlat(v: Byte)
    ensures FilterData[GaussianBlur5x5].WellFormed()
    ensures Quantize(Response(FilterData[GaussianBlur5x5], v as real / 255.0)) == if v == 0 then 0 else v - 1
  {
    var level := v as real / 255.0;
    GaussianBlur5x5Response(level);
    QuantizeGaussian5x5Gain(v, Response(FilterData[GaussianBlur5x5], level));
  }

  /** The byte Box Blur makes of a flat level v: one step less, except at 0. */
  lemma BoxBlurOnFlat(v: Byte)
    ensures FilterData[BoxBlur].WellFormed()
    ensures Quantize(Response(FilterData[BoxBlur], v as real / 255.0)) == if v == 0 then 0 else v - 1
  {
    var level := v as real / 255.0;
    BoxBlurResponse(level);
    QuantizeBoxBlurGain(v, Response(FilterData[BoxBlur], level));
  }

  /** The byte Vertical Emboss and LoG make of a flat level v: 0. */
  lemma ZeroGainOnFlat(v: Byte)
    ensures FilterData[VerticalEmboss].WellFormed() && FilterData[LoG].WellFormed()
    ensures Quantize(Response(FilterData[VerticalEmboss], v as real / 255.0)) == 0
    ensures Quantize(Response(FilterData[LoG], v as real / 255.0)) == 0
  {
    VerticalEmbossResponse(v as real / 255.0);
    LoGResponse(v as real / 255.0);
  }

  /** The byte each catalog filter makes of a flat level v. */
  lemma CatalogQuantizedResponse(k: int, v: Byte)
    requires 0 <= k < |FilterData|
    ensures FilterData[k].WellFormed()
    ensures k == Sharpen || k == GaussianBlur
            ==> Quantize(Response(FilterData[k], v as real / 255.0)) == v
    ensures k == VerticalEmboss || k == LoG
            ==> Quantize(Response(FilterData[k], v as real / 255.0)) == 0
    ensures k == GaussianBlur5x5 || k == BoxBlur
            ==> Quantize(Response(FilterData[k], v as real / 255.0)) == if v == 0 then 0 else v - 1
  {
    CatalogWellFormed();
    UnitGainOnFlat(v);
    Gaussian5x5OnFlat(v);
    BoxBlurOnFlat(v);
    ZeroGainOnFlat(v);
  }

  /** What each catalog filter writes in the interior of a region that is flat
      at v: Sharpen and the 3x3 Gaussian keep v, Vertical Emboss and LoG give
      0, and the 5x5 Gaussian and Box Blur, whose weights sum to a little
      under 1, give one step less than v. */
  lemma CatalogOnFlatRegion(src: seq<Byte>, width: nat, height: nat, numChannels: int,
                            k: int, p: int, v: Byte)
    requires 0 <= k < |FilterData|
    requires |src| == width * height * 4 && 0 <= p < |src| && p % 4 != 3
    requires width > 0 && Interior(width, height, FilterData[k], PixelRow(width, p), PixelCol(width, p))
    requires UniformChannel(src, SourceChannel(numChannels, p), v)
    ensures FilterData[k].WellFormed()
    ensures k == Sharpen || k == GaussianBlur
            ==> Convolved(src, width, height, numChannels, FilterData[k])[p] == v
    ensures k == VerticalEmboss || k == LoG
            ==> Convolved(src, width, height, numChannels, FilterData[k])[p] == 0
    ensures k == GaussianBlur5x5 || k == BoxBlur
            ==> Convolved(src, width, height, numChannels, FilterData[k])[p] == if v == 0 then 0 else v - 1
  {
    CatalogWellFormed();
    UniformInteriorSample(src, width, height, numChannels, FilterData[k], p, v);
    CatalogQuantizedResponse(k, v);
  }

  /** At the top-left corner of an image at least two pixels wide and high,
      Box Blur's top row and left column fall outside: four taps of 0.111 are
      left, against nine in the interior. */
  lemma BoxBlurCornerResponse(width: int, height: int, level: real)
    requires width >= 2 && height >= 2
    ensures FilterData[BoxBlur].WellFormed()
    ensures ClippedResponse(width, height, FilterData[BoxBlur], 0, 0, level) == 0.444 * level
  {
    var f := FilterData[BoxBlur];
    assert f.WellFormed();
    assert ClippedRow(width, height, f, 0, 0, 0, 3, level) == 0.0;
    assert ClippedRow(width, height, f, 0, 0, 1, 3, level) == 0.222 * level;
    assert ClippedRow(width, height, f, 0, 0, 2, 3, level) == 0.222 * level;
  }

  /** Over a channel flat at v, Box Blur writes the quantised 0.444 of v/255
      at the top-left corner. */
  lemma BoxBlurCorner(src: seq<Byte>, width: nat, height: nat, numChannels: int, v: Byte)
    requires |src| == width * height * 4 && width >= 2 && height >= 2
    requires UniformChannel(src, 0, v)
    ensures FilterData[BoxBlur].WellFormed()
    ensures Convolved(src, width, height, numChannels, FilterData[BoxBlur])[0] == Quantize(0.444 * (v as real / 255.0))
  {
    var f := FilterData[BoxBlur];
    BoxBlurCornerResponse(width, height, v as real / 255.0);
    SampleIndexRoundTrip(width, 0, 0, 0);
    assert SampleIndex(width, 0, 0, 0) == 0;
    FlatSample(src, width, height, numChannels, f, 0, v);
  }

  /** Zero padding is visible: on a white channel, Box Blur writes 113 at the
      top-left corner, where five of its taps fall outside the image, and 254
      at pixel (1, 1), where all nine land inside. */
  lemma ZeroPaddingDarkensCorner(src: seq<Byte>, width: nat, height: nat)
    requires |src| == width * height * 4 && width >= 3 && height >= 3
    requires UniformChannel(src, 0, 255)
    ensures FilterData[BoxBlur].WellFormed() && SampleIndex(width, 1, 1, 0) < |src|
    ensures Convolved(src, width, height, 4, FilterData[BoxBlur])[0] == 113
    ensures Convolved(src, width, height, 4, FilterData[BoxBlur])[SampleIndex(width, 1, 1, 0)] == 254
  {
    var f := FilterData[BoxBlur];
    BoxBlurCorner(src, width, height, 4, 255);
    assert 255.0 * (0.444 * (255 as real / 255.0)) == 113.22;
    var p := SampleIndex(width, 1, 1, 0);
    SampleIndexInBuffer(width, height, 1, 1, 0);
    SampleIndexRoundTrip(width, 1, 1, 0);
    UniformInteriorSample(src, width, height, 4, f, p, 255);
    BoxBlurOnFlat(255);
  }
}
