/**
 * The JavaScript convolution processor: a filter bank loaded once, and the
 * in-place operations on a caller's Uint8ClampedArray frame.
 */
module Processor {
  import opened Filters
  import opened Pixels
  import opened Convolution
  import opened Grayscale
  import opened Pipeline
  import opened Bits

  class ConvolutionProcessor {
    var filters: seq<Filter>
    var numFilters: int

    /** The filter count matches the bank and every kernel is well formed. */
    ghost predicate Valid()
      reads this
    {
      numFilters == |filters| && AllWellFormed(filters)
    }

    /** Builds the processor and loads the catalog. */
    constructor ()
      ensures Valid() && filters == FilterData
    {
      new;
      LoadFilters();
    }

    /** Pushes one filter per catalog entry, in catalog order. */
    method LoadFilters()
      modifies this
      ensures Valid()
      ensures filters == FilterData && numFilters == |FilterData|
    {
      CatalogWellFormed();
      filters := [];
      for k := 0 to |FilterData|
        invariant filters == FilterData[..k]
      {
        var entry := FilterData[k];
        filters := filters + [Filter(entry.name, entry.data, entry.size)];
      }
      numFilters := |filters|;
    }

    /** The number of loaded filters. */
    function GetNumFilters(): (n: int)
      reads this
      requires Valid()
      ensures n == |filters|
    {
      numFilters
    }

    /** The name of filter `index`, or the sentinel "invalid index" outside the bank. */
    function GetFilterName(index: int): (name: string)
      reads this
      requires Valid()
      ensures index < 0 || index >= |filters| ==> name == "invalid index"
      ensures 0 <= index < |filters| ==> name == filters[index].name
    {
      if index < 0 || index >= numFilters then "invalid index"
      else filters[index].name
    }

    /** Replaces R, G and B of each of the first totalLength/4 pixels by their luma. */
    method ImageToGrayscale(srcImage: array<Byte>, totalLength: int)
      requires 0 <= totalLength <= srcImage.Length && totalLength % 4 == 0
      modifies srcImage
      ensures srcImage[..] == Grayscaled(old(srcImage[..]), totalLength)
    {
      ghost var s := srcImage[..];
      var i := 0;
      while i < totalLength
        invariant 0 <= i <= totalLength && i % 4 == 0
        invariant srcImage[..] == Grayscaled(s, i)
      {
        GrayscaleStep(s, i);
        NextPixelFits(i, totalLength);
        var grayscale := Luma(srcImage[i] as real, srcImage[i + 1] as real, srcImage[i + 2] as real);
        assert ToUint8Clamped(grayscale) == LumaAt(s, i);
        srcImage[i] := ToUint8Clamped(grayscale);
        srcImage[i + 1] := ToUint8Clamped(grayscale);
        srcImage[i + 2] := ToUint8Clamped(grayscale);
        i := i + 4;
      }
    }

    /** Applies every filter whose bit is set in filterNames, in ascending bit
        order, each pass reading the image the previous one wrote back. */
    method ProcessImage(image: array<Byte>, imageWidth: nat, imageHeight: nat,
                        numChannels: int, filterNames: bv32)
      requires Valid()
      requires image.Length == imageWidth * imageHeight * 4 && 1 <= numChannels <= 4
      modifies image
      ensures image[..] == Processed(old(image[..]), imageWidth, imageHeight, numChannels, filters, filterNames)
    {
      var tempImage := new real[imageWidth * imageHeight * 4](_ => 0.0);
      var i := 0;
      while i < numFilters
        invariant 0 <= i <= numFilters
        invariant image[..] == ProcessedUpTo(old(image[..]), imageWidth, imageHeight, numChannels,
                                             filters, filterNames, i)
      {
        var mask := Bit(i);
        if Covers(filterNames, mask) {
          var filter := filters[i];
          Convolve(image, tempImage, imageWidth, imageHeight, numChannels, filter);
        }
        i := i + 1;
      }
    }

    /** One filter pass: the sums go to tempImage, then are clamped, quantised
        and written back into image, with 255 in every alpha slot. */
    method Convolve(image: array<Byte>, tempImage: array<real>, imageWidth: nat, imageHeight: nat,
                    numChannels: int, filter: Filter)
      requires image.Length == imageWidth * imageHeight * 4 && tempImage.Length == image.Length
      requires 1 <= numChannels <= 4 && filter.WellFormed()
      modifies image, tempImage
      ensures tempImage[..] == Accumulated(old(tempImage[..]), old(image[..]), imageWidth, imageHeight,
                                           numChannels, filter, image.Length)
      ensures image[..] == Convolved(old(image[..]), imageWidth, imageHeight, numChannels, filter)
    {
      AccumulateSums(image, tempImage, imageWidth, imageHeight, numChannels, filter);
      WriteBackSums(image, tempImage, imageWidth, imageHeight, numChannels);
      WriteBackOfAccumulated(old(tempImage[..]), old(image[..]), imageWidth, imageHeight, numChannels, filter);
    }

    /** The accumulation loops of a pass: for every pixel and processed channel,
        the kernel sum is stored in tempImage at the pixel's slot; image is only read. */
    method AccumulateSums(image: array<Byte>, tempImage: array<real>, imageWidth: nat, imageHeight: nat,
                          numChannels: int, filter: Filter)
      requires image.Length == imageWidth * imageHeight * 4 && tempImage.Length == image.Length
      requires 1 <= numChannels <= 4 && filter.WellFormed()
      modifies tempImage
      ensures tempImage[..] == Accumulated(old(tempImage[..]), image[..], imageWidth, imageHeight,
                                           numChannels, filter, image.Length)
    {
      ghost var t0 := tempImage[..];
      var numChannelsToProcess := numChannels;
      if numChannels == 4 {
        numChannelsToProcess := 3;
      }

      var imageRow := 0;
      while imageRow < imageHeight
        invariant 0 <= imageRow <= imageHeight
        invariant tempImage[..] == Accumulated(t0, image[..], imageWidth, imageHeight, numChannels, filter,
                                               SampleIndex(imageWidth, imageRow, 0, 0))
      {
        AccumulateRow(image, tempImage, imageWidth, imageHeight, numChannels, numChannelsToProcess,
                      filter, imageRow, t0);
        NextRow(imageWidth, imageRow);
        imageRow := imageRow + 1;
      }
      PastLastRow(imageWidth, imageHeight);
    }

    /** The column loop of the accumulation, for one image row. */
    method AccumulateRow(image: array<Byte>, tempImage: array<real>, imageWidth: nat, imageHeight: nat,
                         numChannels: int, numChannelsToProcess: int, filter: Filter, imageRow: int,
                         ghost t0: seq<real>)
      requires image.Length == imageWidth * imageHeight * 4 && tempImage.Length == image.Length
      requires 1 <= numChannels <= 4 && numChannelsToProcess == NumProcessed(numChannels)
      requires filter.WellFormed() && 0 <= imageRow < imageHeight && |t0| == image.Length
      requires tempImage[..] == Accumulated(t0, image[..], imageWidth, imageHeight, numChannels, filter,
                                            SampleIndex(imageWidth, imageRow, 0, 0))
      modifies tempImage
      ensures tempImage[..] == Accumulated(t0, image[..], imageWidth, imageHeight, numChannels, filter,
                                           SampleIndex(imageWidth, imageRow, imageWidth, 0))
    {
      var imageCol := 0;
      while imageCol < imageWidth
        invariant 0 <= imageCol <= imageWidth
        invariant tempImage[..] == Accumulated(t0, image[..], imageWidth, imageHeight, numChannels, filter,
                                               SampleIndex(imageWidth, imageRow, imageCol, 0))
      {
        AccumulatePixel(image, tempImage, imageWidth, imageHeight, numChannels, numChannelsToProcess,
                        filter, imageRow, imageCol, t0);
        imageCol := imageCol + 1;
      }
    }

    /** The channel loop of the accumulation, for one pixel. */
    method AccumulatePixel(image: array<Byte>, tempImage: array<real>, imageWidth: nat, imageHeight: nat,
                           numChannels: int, numChannelsToProcess: int, filter: Filter,
                           imageRow: int, imageCol: int, ghost t0: seq<real>)
      requires image.Length == imageWidth * imageHeight * 4 && tempImage.Length == image.Length
      requires 1 <= numChannels <= 4 && numChannelsToProcess == NumProcessed(numChannels)
      requires filter.WellFormed() && 0 <= imageRow < imageHeight && 0 <= imageCol < imageWidth
      requires |t0| == image.Length
      requires tempImage[..] == Accumulated(t0, image[..], imageWidth, imageHeight, numChannels, filter,
                                            SampleIndex(imageWidth, imageRow, imageCol, 0))
      modifies tempImage
      ensures tempImage[..] == Accumulated(t0, image[..], imageWidth, imageHeight, numChannels, filter,
                                           SampleIndex(imageWidth, imageRow, imageCol + 1, 0))
    {
      var c := 0;
      while c < numChannelsToProcess
        invariant 0 <= c <= numChannelsToProcess
        invariant tempImage[..] == Accumulated(t0, image[..], imageWidth, imageHeight, numChannels, filter,
                                               SampleIndex(imageWidth, imageRow, imageCol, c))
      {
        var sum := KernelSumAt(image, imageWidth, imageHeight, c, imageRow, imageCol, filter);
        AccumulatedStep(t0, image[..], imageWidth, imageHeight, numChannels, filter, imageRow, imageCol, c);
        var index := SampleIndex(imageWidth, imageRow, imageCol, c);
        tempImage[index] := sum;
        c := c + 1;
      }
      AccumulatedSkip(t0, image[..], imageWidth, imageHeight, numChannels, filter, imageRow, imageCol);
    }

    /** The write-back loop of a pass: each sum is clamped to [0, 1] and stored
        as `Math.floor(255*v)`; for 4 channels the alpha slot becomes 255, for
        one channel the pixel becomes v, v, v, 255 from channel 0. */
    method WriteBackSums(image: array<Byte>, tempImage: array<real>, imageWidth: nat, imageHeight: nat,
                         numChannels: int)
      requires image.Length == imageWidth * imageHeight * 4 && tempImage.Length == image.Length
      modifies image
      ensures image[..] == WriteBack(tempImage[..], numChannels)
    {
      WholePixels(imageWidth, imageHeight);
      ghost var out := WriteBack(tempImage[..], numChannels);
      var p := 0;
      while p < imageWidth * imageHeight * 4
        invariant 0 <= p <= image.Length
        invariant numChannels != 4 ==> p % 4 == 0
        invariant image[..p] == out[..p]
      {
        p := WriteBackStep(image, tempImage, numChannels, p, out);
      }
      assert image[..] == image[..p];
    }

    /** One turn of the write-back loop, from slot p: an alpha slot of a
        4-channel image gets 255 and the loop continues at p + 1; otherwise
        the clamped level is stored at p and, for one channel, copied into
        the two following slots with 255 in the alpha slot. */
    method WriteBackStep(image: array<Byte>, tempImage: array<real>, numChannels: int, p: int,
                         ghost out: seq<Byte>) returns (next: int)
      requires tempImage.Length == image.Length && image.Length % 4 == 0 && 0 <= p < image.Length
      requires numChannels != 4 ==> p % 4 == 0
      requires out == WriteBack(tempImage[..], numChannels) && image[..p] == out[..p]
      modifies image
      ensures p < next <= image.Length && (numChannels != 4 ==> next % 4 == 0)
      ensures next == if numChannels == 4 then p + 1 else p + 4
      ensures image[..next] == out[..next]
    {
      if numChannels == 4 {
        var channel := p % 4;
        if channel == 3 {
          image[p] := 255;
          PrefixExtend(image[..], out, p, p + 1);
          return p + 1;
        }
      }
      var level := ClampedLevel(tempImage[p]);
      image[p] := level;
      if numChannels == 4 {
        PrefixExtend(image[..], out, p, p + 1);
        next := p + 1;
      } else {
        NextPixelFits(p, image.Length);
        image[p + 1] := level;
        image[p + 2] := level;
        image[p + 3] := 255;
        WriteBackPixel(tempImage[..], numChannels, p);
        PrefixExtend(image[..], out, p, p + 4);
        next := p + 4;
        assert next % 4 == 0 by {
          DivModUnique(next, 4, p / 4 + 1, 0);
        }
      }
    }

    /** The clamp of a sum to [0, 1] and its conversion to a level,
        `Math.floor(255*newVal)`. */
    method ClampedLevel(sum: real) returns (level: Byte)
      ensures level == Quantize(sum)
      ensures 0.0 <= sum <= 1.0 ==> level as real <= 255.0 * sum < level as real + 1.0
    {
      var newVal := sum;
      if newVal < 0.0 {
        newVal := 0.0;
      }
      if newVal > 1.0 {
        newVal := 1.0;
      }
      level := (255.0 * newVal).Floor;
    }

    /** The two innermost loops: the sum of channel c at pixel (imageRow,
        imageCol) over every kernel tap, with zero padding at the borders. */
    method KernelSumAt(image: array<Byte>, imageWidth: nat, imageHeight: nat, c: int,
                       imageRow: int, imageCol: int, filter: Filter) returns (sum: real)
      requires image.Length == imageWidth * imageHeight * 4 && filter.WellFormed() && 0 <= c < 4
      ensures sum == KernelSum(image[..], imageWidth, imageHeight, filter, imageRow, imageCol, c)
    {
      var filterSize := filter.size;
      sum := 0.0;
      var filterRow := 0;
      while filterRow < filterSize
        invariant 0 <= filterRow <= filterSize
        invariant sum == RowsSum(image[..], imageWidth, imageHeight, filter, imageRow, imageCol, c, filterRow)
      {
        sum := AddKernelRow(image, imageWidth, imageHeight, c, imageRow, imageCol, filter, filterRow, sum);
        filterRow := filterRow + 1;
      }
    }

    /** The loop over one kernel row: adds each tap of row filterRow to sum. */
    method AddKernelRow(image: array<Byte>, imageWidth: nat, imageHeight: nat, c: int,
                        imageRow: int, imageCol: int, filter: Filter, filterRow: int, sum0: real)
      returns (sum: real)
      requires image.Length == imageWidth * imageHeight * 4 && filter.WellFormed() && 0 <= c < 4
      requires 0 <= filterRow < filter.size
      ensures sum == sum0 + RowSum(image[..], imageWidth, imageHeight, filter, imageRow, imageCol, c,
                                   filterRow, filter.size)
    {
      var filterSize := filter.size;
      sum := sum0;
      var filterRowOffset := -(filterSize / 2) + filterRow;
      var filterCol := 0;
      while filterCol < filterSize
        invariant 0 <= filterCol <= filterSize
        invariant sum == sum0 + RowSum(image[..], imageWidth, imageHeight, filter, imageRow, imageCol, c,
                                       filterRow, filterCol)
      {
        var filterColOffset := -(filterSize / 2) + filterCol;
        ghost var before := sum;
        if imageRow + filterRowOffset < 0 || imageRow + filterRowOffset >= imageHeight ||
           imageCol + filterColOffset < 0 || imageCol + filterColOffset >= imageWidth {
          // Zero padding
          sum := sum + 0.0;
        } else {
          var lookup := filter.GetValue(filterRow, filterCol);
          assert lookup == Value(filter.Weight(filterRow, filterCol));
          var filterValue := lookup.weight;
          var index := SampleIndex(imageWidth, imageRow + filterRowOffset, imageCol + filterColOffset, c);
          SampleIndexInBuffer(imageWidth, imageHeight, imageRow + filterRowOffset,
                              imageCol + filterColOffset, c);
          var pixelValue := image[index];
          sum := sum + filterValue * (pixelValue as real / 255.0);
        }
        assert sum == before + Tap(image[..], imageWidth, imageHeight, filter, imageRow, imageCol, c,
                                   filterRow, filterCol);
        filterCol := filterCol + 1;
      }
    }
  }

  /** One channel's write-back fills a whole pixel from its first slot. */
  lemma WriteBackPixel(t: seq<real>, numChannels: int, p: int)
    requires 0 <= p && p + 4 <= |t| && p % 4 == 0 && numChannels != 4
    ensures WriteBack(t, numChannels)[p] == Quantize(t[p])
    ensures WriteBack(t, numChannels)[p + 1] == Quantize(t[p])
    ensures WriteBack(t, numChannels)[p + 2] == Quantize(t[p])
    ensures WriteBack(t, numChannels)[p + 3] == 255
  {
    SlotOfPixel(p, 0);
    SlotOfPixel(p, 1);
    SlotOfPixel(p, 2);
    SlotOfPixel(p, 3);
  }

  /** Two sequences that agree before p and on p up to q agree before q. */
  lemma PrefixExtend<T>(a: seq<T>, b: seq<T>, p: int, q: int)
    requires 0 <= p <= q <= |a| && q <= |b|
    requires a[..p] == b[..p]
    requires forall i :: p <= i < q ==> a[i] == b[i]
    ensures a[..q] == b[..q]
  {
    assert forall i :: 0 <= i < p ==> a[i] == a[..p][i];
  }

  /** Converting one more pixel advances the grayscale pass by four slots. */
  lemma GrayscaleStep(s: seq<Byte>, i: int)
    requires 0 <= i && i + 4 <= |s| && i % 4 == 0
    ensures Grayscaled(s, i)[i := LumaAt(s, i)][i + 1 := LumaAt(s, i)][i + 2 := LumaAt(s, i)]
         == Grayscaled(s, i + 4)
    ensures (i + 4) % 4 == 0
  {
    DivModUnique(i + 4, 4, i / 4 + 1, 0);
    SlotOfPixel(i, 0);
    SlotOfPixel(i, 1);
    SlotOfPixel(i, 2);
    SlotOfPixel(i, 3);
  }
}
