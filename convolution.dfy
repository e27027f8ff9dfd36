/**
 * What one convolution pass computes, stated as functions of the source
 * buffer: the kernel sum of every output sample with zero padding, its
 * quantisation, and the four-slot layout of the result.
 */
module Convolution {
  import opened Filters
  import opened Pixels

  /** The row or column offset of the kernel's first tap: `-Math.floor(size/2)`. */
  function Reach(f: Filter): int {
    f.size / 2
  }

  /** Whether (row, col) lies in the image; taps outside it contribute nothing. */
  predicate InImage(width: int, height: int, row: int, col: int) {
    0 <= row < height && 0 <= col < width
  }

  /** For 4 channels the alpha slot is skipped; otherwise every channel is summed. */
  function NumProcessed(numChannels: int): int {
    if numChannels == 4 then 3 else numChannels
  }

  /** The contribution of kernel tap (fr, fc) to the sum of channel ch at pixel
      (row, col): the kernel's centre sits on the pixel, taps outside the image
      add 0, and a sample is normalised by 1/255. */
  function Tap(src: seq<Byte>, width: nat, height: nat, f: Filter,
               row: int, col: int, ch: int, fr: int, fc: int): real
    requires |src| == width * height * 4 && f.WellFormed()
    requires 0 <= ch < 4 && 0 <= fr < f.size && 0 <= fc < f.size
  {
    var r := row + (fr - Reach(f));
    var c := col + (fc - Reach(f));
    if !InImage(width, height, r, c) then 0.0
    else
      SampleIndexInBuffer(width, height, r, c, ch);
      f.Weight(fr, fc) * (src[SampleIndex(width, r, c, ch)] as real / 255.0)
  }

  /** The sum of the first n taps of kernel row fr, in loop order. */
  function RowSum(src: seq<Byte>, width: nat, height: nat, f: Filter,
                  row: int, col: int, ch: int, fr: int, n: int): real
    requires |src| == width * height * 4 && f.WellFormed()
    requires 0 <= ch < 4 && 0 <= fr < f.size && 0 <= n <= f.size
    decreases n
  {
    if n == 0 then 0.0
    else
      RowSum(src, width, height, f, row, col, ch, fr, n - 1) +
      Tap(src, width, height, f, row, col, ch, fr, n - 1)
  }

  /** The sum over the first m kernel rows, in loop order. */
  function RowsSum(src: seq<Byte>, width: nat, height: nat, f: Filter,
                   row: int, col: int, ch: int, m: int): real
    requires |src| == width * height * 4 && f.WellFormed()
    requires 0 <= ch < 4 && 0 <= m <= f.size
    decreases m
  {
    if m == 0 then 0.0
    else
      RowsSum(src, width, height, f, row, col, ch, m - 1) +
      RowSum(src, width, height, f, row, col, ch, m - 1, f.size)
  }

  /** The convolution sum of channel ch at pixel (row, col). */
  function KernelSum(src: seq<Byte>, width: nat, height: nat, f: Filter,
                     row: int, col: int, ch: int): real
    requires |src| == width * height * 4 && f.WellFormed() && 0 <= ch < 4
  {
    RowsSum(src, width, height, f, row, col, ch, f.size)
  }

  /** The channel whose sum fills slot p: its own for 4 channels, channel 0 otherwise. */
  function SourceChannel(numChannels: int, p: int): int {
    if numChannels == 4 then p % 4 else 0
  }

  /** The value one pass writes to slot p: 255 in every fourth slot, otherwise
      the quantised kernel sum of the slot's pixel and source channel. */
  function OutputSample(src: seq<Byte>, width: nat, height: nat, numChannels: int,
                        f: Filter, p: int): Byte
    requires |src| == width * height * 4 && f.WellFormed() && 0 <= p < |src|
  {
    NonEmptyBuffer(width, height, p);
    if p % 4 == 3 then 255
    else Quantize(KernelSum(src, width, height, f, PixelRow(width, p), PixelCol(width, p),
                            SourceChannel(numChannels, p)))
  }

  /** The buffer after one pass of filter f over the whole image. */
  function Convolved(src: seq<Byte>, width: nat, height: nat, numChannels: int, f: Filter): (out: seq<Byte>)
    requires |src| == width * height * 4 && f.WellFormed()
    ensures |out| == |src|
    ensures forall p :: 0 <= p < |out| && p % 4 == 3 ==> out[p] == 255
  {
    seq(|src|, p requires 0 <= p < |src| => OutputSample(src, width, height, numChannels, f, p))
  }

  // ---------------------------------------------------------------------------
  // The scratch buffer: where the accumulation loops leave their sums.
  // ---------------------------------------------------------------------------

  /** The scratch buffer t once every processed slot before `done` holds its
      kernel sum; other slots keep what t held. */
  function Accumulated(t: seq<real>, src: seq<Byte>, width: nat, height: nat,
                       numChannels: int, f: Filter, done: int): (r: seq<real>)
    requires |t| == |src| == width * height * 4 && f.WellFormed()
    ensures |r| == |t|
  {
    seq(|t|, p requires 0 <= p < |t| =>
      if p < done && p % 4 < NumProcessed(numChannels) then
        NonEmptyBuffer(width, height, p);
        KernelSum(src, width, height, f, PixelRow(width, p), PixelCol(width, p), p % 4)
      else t[p])
  }

  /** The write-back loop: clamp and quantise each sum, force alpha to 255, and
      for one channel copy channel 0 into the pixel's first three slots. */
  function WriteBack(t: seq<real>, numChannels: int): (out: seq<Byte>)
    ensures |out| == |t|
  {
    seq(|t|, p requires 0 <= p < |t| =>
      if p % 4 == 3 then 255
      else if numChannels == 4 then Quantize(t[p])
      else Quantize(t[p - p % 4]))
  }

  /** Writing one more sum advances the accumulation by one slot. */
  lemma AccumulatedStep(t: seq<real>, src: seq<Byte>, width: nat, height: nat,
                        numChannels: int, f: Filter, row: int, col: int, ch: int)
    requires |t| == |src| == width * height * 4 && f.WellFormed()
    requires 0 <= row < height && 0 <= col < width && 0 <= ch < NumProcessed(numChannels) && ch < 4
    ensures SampleIndex(width, row, col, ch) < |t|
    ensures Accumulated(t, src, width, height, numChannels, f, SampleIndex(width, row, col, ch))
              [SampleIndex(width, row, col, ch) := KernelSum(src, width, height, f, row, col, ch)]
         == Accumulated(t, src, width, height, numChannels, f, SampleIndex(width, row, col, ch) + 1)
  {
    SampleIndexInBuffer(width, height, row, col, ch);
    SampleIndexRoundTrip(width, row, col, ch);
  }

  /** Slots of a pixel past its processed channels are skipped. */
  lemma AccumulatedSkip(t: seq<real>, src: seq<Byte>, width: nat, height: nat,
                        numChannels: int, f: Filter, row: int, col: int)
    requires |t| == |src| == width * height * 4 && f.WellFormed()
    requires 0 <= NumProcessed(numChannels) <= 4
    requires width > 0 && row >= 0 && 0 <= col < width
    ensures Accumulated(t, src, width, height, numChannels, f, SampleIndex(width, row, col, NumProcessed(numChannels)))
         == Accumulated(t, src, width, height, numChannels, f, SampleIndex(width, row, col + 1, 0))
  {
    var base := SampleIndex(width, row, col, 0);
    assert SampleIndex(width, row, col + 1, 0) == base + 4;
    assert base % 4 == 0 by {
      SampleIndexRoundTrip(width, row, col, 0);
    }
    forall p | base + NumProcessed(numChannels) <= p < base + 4
      ensures p % 4 >= NumProcessed(numChannels)
    {
      DivModUnique(p, 4, base / 4, p - base);
    }
  }

  /** The last column of a row is followed by the first column of the next. */
  lemma NextRow(width: int, row: int)
    ensures SampleIndex(width, row, width, 0) == SampleIndex(width, row + 1, 0, 0)
  {
  }

  /** Reading the scratch buffer back after a full accumulation yields the
      convolved image, whatever the scratch buffer held before. */
  lemma WriteBackOfAccumulated(t: seq<real>, src: seq<Byte>, width: nat, height: nat,
                               numChannels: int, f: Filter)
    requires |t| == |src| == width * height * 4 && f.WellFormed() && 1 <= numChannels <= 4
    ensures WriteBack(Accumulated(t, src, width, height, numChannels, f, |t|), numChannels)
         == Convolved(src, width, height, numChannels, f)
  {
    forall p | 0 <= p < |t|
      ensures WriteBack(Accumulated(t, src, width, height, numChannels, f, |t|), numChannels)[p]
           == Convolved(src, width, height, numChannels, f)[p]
    {
      WriteBackOfAccumulatedAt(t, src, width, height, numChannels, f, p);
    }
  }

  /** The slot-by-slot step of WriteBackOfAccumulated. */
  lemma WriteBackOfAccumulatedAt(t: seq<real>, src: seq<Byte>, width: nat, height: nat,
                                 numChannels: int, f: Filter, p: int)
    requires |t| == |src| == width * height * 4 && f.WellFormed() && 1 <= numChannels <= 4
    requires 0 <= p < |t|
    ensures WriteBack(Accumulated(t, src, width, height, numChannels, f, |t|), numChannels)[p]
         == OutputSample(src, width, height, numChannels, f, p)
  {
    NonEmptyBuffer(width, height, p);
    var acc := Accumulated(t, src, width, height, numChannels, f, |t|);
    if p % 4 == 3 {
    } else if numChannels == 4 {
      assert acc[p] == KernelSum(src, width, height, f, PixelRow(width, p), PixelCol(width, p), p % 4);
    } else {
      PixelBase(width, p);
      var b := p - p % 4;
      assert acc[b] == KernelSum(src, width, height, f, PixelRow(width, b), PixelCol(width, b), 0);
    }
  }
}
