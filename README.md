# Convolution processor of the CS7345 webcam demo, in Dafny

The web page grabs webcam frames as RGBA `Uint8ClampedArray` buffers. It can
turn a frame to grayscale and then runs the selected convolution filters over
it, either in JavaScript or in WebAssembly. The page also keeps timing
statistics. This project models the JavaScript side:

- **The filter catalog** (`Filters`). The six named square kernels, in load
  order, and the bounds policy of `Filter.getValue`. Only the upper bounds are
  checked: on a row r ≥ 1, a column in [-size, -1] reads row r - 1, and an
  index that falls before the weights gives `undefined`.
- **One convolution pass** (`Convolution`, `Pixels`). The kernel is centred on
  each pixel with zero padding at the borders. Each sample is divided by 255,
  and the sum is clamped to [0, 1] and stored as `Math.floor(255*v)`. The
  buffer always has four slots per pixel: for four channels the alpha slot is
  set to 255, and for one channel channel 0 fills the pixel as `v, v, v, 255`.
  `Convolved` states the pass as a function of the source buffer.
- **The processor** (`Processor`). The class `ConvolutionProcessor` with its
  filter bank. `Convolve` keeps the source's nested loops, the `tempImage`
  scratch array and the `while` write-back loop. Each loop is proved against
  the functional specification of the pass. `ProcessImage` runs the filters
  whose bit is set in the mask, in ascending bit order, each one reading the
  previous pass's output (`Pipeline`). `ImageToGrayscale` is the in-place
  BT.709 luma pass (`Grayscale`).
- **Bit masks** (`Bits`). JavaScript's `1 << i` (the shift count taken mod 32)
  and the `(mask & m) == mask` test.
- **The page's timing and settings state** (`Program`). This is the class
  `ProgramState`: the 30-frame display window of `addTiming`/`getTimingAvg`,
  the 1000-sample recording started by `startDataTiming`, and the filter mask
  and channel count that `updateSettings` builds from the checkboxes.
- **Flat regions** (`Uniform`). In the interior of a region of constant
  value, a pass writes the quantised product of the kernel's weight sum and
  that value. For the catalog this means:
  - Sharpen and the 3x3 Gaussian keep the value.
  - Vertical Emboss and LoG give 0.
  - The 5x5 Gaussian and Box Blur give one step less than the value, because
    their weights sum to 0.999998 and 0.999.

Box Blur's nine weights of `0.111` (webapp/convolutions.js:253-255) sum to
0.999, so in the interior of a flat region every level v ≥ 1 becomes v - 1
(`Uniform.CatalogOnFlatRegion`). Near the border, zero padding drops the taps
that fall outside the image: on a white channel Box Blur writes 113 at the
top-left corner and 254 one pixel in (`Uniform.ZeroPaddingDarkensCorner`).

Weights and samples are Dafny `real`s: the float rounding of `Float32Array`
is not modelled. `Math.floor` is `.Floor`. A number stored into a
`Uint8ClampedArray` is clamped and rounded half to even (`ToUint8Clamped`).

## Model

| member | source | states |
|---|---|---|
| Filters.Filter.GetValue | webapp/convolutions.js:192-197 | RangeError exactly when row or column is at least the size; otherwise the weight at `row*size + col` when that index is inside the data, and undefined when it is not |
| Filters.Filter.Weight | webapp/convolutions.js:192-197 | on a well-formed kernel, every in-range lookup returns a weight and never throws |
| Filters.RowMajorInRange | webapp/convolutions.js:196 | row-major indexing of an in-range (row, col) stays inside the n*n weights |
| Filters.NegativeColumnWrapsIntoPreviousRow | webapp/convolutions.js:192-197 | lower bounds are not checked: on a kernel of width 2 or more, (1, -1) returns the last weight of row 0 |
| Filters.NegativeColumnOnFirstRowIsUndefined | webapp/convolutions.js:192-197 | on row 0 every negative column indexes before the weights and gives undefined, not a RangeError |
| Filters.CatalogWellFormed | webapp/convolutions.js:201-258 | six filters in load order (Sharpen, Gaussian Blur, Gaussian Blur 5x5, Vertical Emboss, LoG, Box Blur), each odd-sized with size*size weights, none named "invalid index" |
| Pixels.SampleIndexInBuffer | webapp/convolutions.js:111 | the slot of any in-image pixel and channel lies inside a width*height*4 buffer |
| Pixels.SampleIndexRoundTrip | webapp/convolutions.js:122 | the slot `row*width*4 + col*4 + c` gives back its row, column and channel |
| Pixels.SampleIndexDecompose | webapp/convolutions.js:129-132 | every slot is the slot of its own pixel and channel `p % 4` |
| Pixels.SampleIndex | webapp/convolutions.js:122 | definition of the slot index `row*width*4 + col*4 + channel` used for every read and store |
| Pixels.Quantize | webapp/convolutions.js:143-146 | the clamped `floor(255*v)`: 0 for sums ≤ 0, 255 for sums ≥ 1, otherwise the largest byte not above 255*v |
| Pixels.ToUint8Clamped | webapp/convolutions.js:40-42 | storing into a Uint8ClampedArray clamps to [0, 255] and rounds to the nearest byte, ties to even |
| Pixels.ToUint8ClampedOfByte | webapp/convolutions.js:40-42 | storing a value that is already a byte keeps it |
| Convolution.Reach | webapp/convolutions.js:93 | definition: `Math.floor(filterSize/2)`, the offset of the kernel's first tap from its centre |
| Convolution.InImage | webapp/convolutions.js:101-102 | definition of the border test: a tap lies in the image exactly when its row is in [0, height) and its column in [0, width) |
| Convolution.NumProcessed | webapp/convolutions.js:60-65 | definition of `numChannelsToProcess`: 3 for four channels, so alpha is skipped, and the channel count otherwise |
| Convolution.SourceChannel | webapp/convolutions.js:130-132 | definition: the channel whose sum fills a slot, `p % 4` for four channels and channel 0 otherwise |
| Convolution.Tap | webapp/convolutions.js:93-112 | definition of one tap: the kernel centre sits on the pixel (offset `-floor(size/2)`); a tap outside the image adds 0 (zero padding), one inside adds its weight times the sample divided by 255 |
| Convolution.RowSum | webapp/convolutions.js:96-114 | definition: the first n taps of one kernel row, added left to right as the inner loop does |
| Convolution.RowsSum | webapp/convolutions.js:90-115 | definition: the first m kernel rows, added top to bottom as the filter-row loop does |
| Convolution.KernelSum | webapp/convolutions.js:87-115 | definition: the sum left in `sum` for one pixel and channel, over the whole kernel |
| Convolution.OutputSample | webapp/convolutions.js:129-156 | definition of one written slot: 255 for every fourth slot, otherwise the clamped, floored kernel sum of its pixel in its own channel (4 channels) or channel 0 (otherwise) |
| Convolution.Convolved | webapp/convolutions.js:127-157 | one pass keeps the buffer length and writes 255 into every alpha slot |
| Convolution.Accumulated | webapp/convolutions.js:79-125 | the scratch buffer once every processed slot before a point holds its kernel sum; other slots keep what they held; the length is kept |
| Convolution.WriteBack | webapp/convolutions.js:127-157 | the write-back of a scratch buffer keeps its length: alpha 255, otherwise the clamped, floored sum of the slot (4 channels) or of the pixel's first slot (otherwise) |
| Convolution.AccumulatedStep | webapp/convolutions.js:122 | storing the sum at the slot of (row, col, c) advances the scratch buffer by exactly that slot |
| Convolution.AccumulatedSkip | webapp/convolutions.js:85 | the slots past the processed channels of a pixel (alpha for 4 channels) are not written |
| Convolution.WriteBackOfAccumulated | webapp/convolutions.js:127-157 | writing back a fully accumulated scratch buffer gives the convolved image, whatever the scratch buffer held before |
| Convolution.WriteBackOfAccumulatedAt | webapp/convolutions.js:143-156 | slot by slot: alpha 255, its own sum for 4 channels, channel 0's sum of its pixel otherwise |
| Grayscale.LumaOfGray | webapp/convolutions.js:39 | the BT.709 weights sum to 1, so a gray pixel keeps its level |
| Grayscale.LumaInByteRange | webapp/convolutions.js:39 | the luma of three bytes lies in [0, 255] |
| Grayscale.Luma | webapp/convolutions.js:38-39 | definition: 0.2126 R + 0.7152 G + 0.0722 B |
| Grayscale.LumaAt | webapp/convolutions.js:39-42 | definition: the byte a Uint8ClampedArray stores for the luma of the pixel starting at a slot |
| Grayscale.Grayscaled | webapp/convolutions.js:37-43 | the buffer keeps its length once the pixels before a point are converted: their R, G, B slots hold the stored luma, everything else is unchanged |
| Grayscale.GrayscaledPixels | webapp/convolutions.js:37-43 | converted pixels have R = G = B = the stored luma; alpha and pixels past the length are untouched |
| Grayscale.GrayscaleIdempotent | webapp/convolutions.js:35-44 | converting twice is the same as converting once |
| Grayscale.GrayscaleExample | webapp/convolutions.js:39-42 | (100, 150, 200, 255) becomes (143, 143, 143, 255) |
| Bits.BitIndexIsMod | webapp/convolutions.js:50 | the shift count of `1 << i` is i mod 32 |
| Bits.PowIsShift | webapp/convolutions.js:50 | doubling k times equals `1 << k` |
| Bits.BitIsShift | webapp/convolutions.js:50 | `Bit(i)` is `1 << (i mod 32)` on 32-bit words |
| Bits.LoneBit | webapp/convolutions.js:50 | `1 << k` is nonzero with exactly one bit set |
| Bits.PowIsLone | webapp/convolutions.js:50 | 2^k is nonzero with exactly one bit set |
| Bits.CoversUnion | webapp/convolutions.js:51 | a one-bit word is inside the union of m1 and m2 exactly when it is inside m1 or m2 |
| Bits.LoneBitUnion | webapp/convolutions.js:51 | the same on raw words |
| Bits.SelectedUnion | webapp/convolutions.js:51 | bit i of a union is selected exactly when it is selected in either part |
| Bits.NothingSelectedInZero | webapp/convolutions.js:51 | mask 0 selects no filter |
| Bits.ShiftCovers | webapp/convolutions.js:51 | `1 << b` is inside `1 << a` exactly when a == b |
| Bits.PowCovers | webapp/convolutions.js:51 | 2^b is inside 2^a exactly when a == b |
| Bits.SelectedBit | webapp/program.js:141 | `1 << j` selects filter i exactly when i and j agree mod 32 |
| Bits.Bit | webapp/convolutions.js:50 | definition of `1 << i` on 32-bit words, with the shift count taken mod 32 |
| Bits.Selected | webapp/convolutions.js:51 | definition of the test `(mask & filterNames) == mask` with `mask = 1 << i` |
| Pipeline.ProcessedUpTo | webapp/convolutions.js:49-55 | running the selected filters among the first n keeps the buffer length |
| Pipeline.Processed | webapp/convolutions.js:49-55 | definition: the image after every selected filter of the bank has run, in ascending bit order |
| Pipeline.UnselectedLeavesImage | webapp/convolutions.js:49-55 | when none of the first n bits is set, the image is untouched |
| Pipeline.ZeroMaskLeavesImage | webapp/convolutions.js:46-56 | mask 0 leaves the image exactly as it was |
| Pipeline.SameSelectionSameImage | webapp/convolutions.js:49-55 | only bits below the filter count matter: masks agreeing on them give the same image |
| Pipeline.AlphaForcedAfterAnyPass | webapp/convolutions.js:131-156 | once any filter ran, every alpha slot holds 255 |
| Pipeline.SkipStep | webapp/convolutions.js:51 | a filter whose bit is clear leaves the image as the step before left it |
| Pipeline.CascadeBelowCut | webapp/convolutions.js:49-55 | below the split point the union runs what the low mask runs |
| Pipeline.CascadeAboveCut | webapp/convolutions.js:49-55 | at or above the split point the union's step is the high mask's step on the same image |
| Pipeline.CascadeUpTo | webapp/convolutions.js:49-55 | ascending order: running low bits, then high bits on that result, equals running their union, for any prefix of the bank |
| Pipeline.Cascade | webapp/convolutions.js:46-56 | the same over the whole bank: each pass reads the previous pass's output |
| Pipeline.UnselectedTail | webapp/convolutions.js:49-55 | filters after the last selected one change nothing |
| Pipeline.SharpenThenGaussian5x5 | webapp/convolutions.js:46-56 | with the catalog, mask 0b101 is Sharpen followed by Gaussian Blur 5x5 on Sharpen's output |
| Processor.ConvolutionProcessor.constructor | webapp/convolutions.js:8-9 | a new processor holds exactly the catalog |
| Processor.ConvolutionProcessor.LoadFilters | webapp/convolutions.js:160-168 | the bank becomes the catalog in order, and the filter count its length |
| Processor.ConvolutionProcessor.GetNumFilters | webapp/convolutions.js:23-25 | the count equals the number of loaded filters |
| Processor.ConvolutionProcessor.GetFilterName | webapp/convolutions.js:27-33 | "invalid index" for every index below 0 or at least the count, the loaded filter's name otherwise |
| Processor.ConvolutionProcessor.ImageToGrayscale | webapp/convolutions.js:35-44 | the buffer becomes `Grayscaled` of the old buffer: R, G, B of each pixel replaced by the stored luma, alpha kept |
| Processor.ConvolutionProcessor.ProcessImage | webapp/convolutions.js:46-56 | the buffer becomes `Processed`: each filter whose bit is set runs, in ascending order, on the previous pass's output |
| Processor.ConvolutionProcessor.Convolve | webapp/convolutions.js:58-158 | the buffer becomes `Convolved` of the old buffer, and the scratch buffer holds every kernel sum |
| Processor.ConvolutionProcessor.AccumulateSums | webapp/convolutions.js:79-125 | every processed slot of the scratch buffer gets its kernel sum; the image is only read |
| Processor.ConvolutionProcessor.AccumulateRow | webapp/convolutions.js:81-124 | one image row's slots get their sums |
| Processor.ConvolutionProcessor.AccumulatePixel | webapp/convolutions.js:85-123 | one pixel's processed channels get their sums, at `row*width*4 + col*4 + c` |
| Processor.ConvolutionProcessor.KernelSumAt | webapp/convolutions.js:87-115 | the sum is the kernel sum of the channel at the pixel, with zero padding |
| Processor.ConvolutionProcessor.AddKernelRow | webapp/convolutions.js:93-114 | one kernel row adds its in-image taps, `weight * sample/255`, and 0 for taps outside |
| Processor.ConvolutionProcessor.WriteBackSums | webapp/convolutions.js:127-157 | the image becomes the clamped, quantised scratch buffer with the alpha and one-channel layout |
| Processor.ConvolutionProcessor.WriteBackStep | webapp/convolutions.js:129-156 | one turn of the write-back loop extends the written prefix, by 1 slot for 4 channels and by a whole pixel otherwise |
| Processor.ConvolutionProcessor.ClampedLevel | webapp/convolutions.js:143-146 | the level is `floor(255*v)` of the sum clamped to [0, 1] |
| Processor.WriteBackPixel | webapp/convolutions.js:148-156 | for one channel, a pixel becomes v, v, v, 255 from its first slot's sum |
| Processor.GrayscaleStep | webapp/convolutions.js:39-42 | converting one more pixel advances the grayscale pass by four slots |
| Program.LastN | webapp/program.js:186-194 | the display window holds min(count, 30) samples |
| Program.LastNSlide | webapp/program.js:187-194 | a full window drops its oldest sample and appends the newest; a window that is not full only appends |
| Program.MaskOfSelected | webapp/program.js:136-143 | bit i of the built mask is set exactly when some checked box j agrees with i mod 32 |
| Program.MaskOfExact | webapp/program.js:136-143 | with at most 32 boxes, bit i is set exactly when box i is checked |
| Program.MaskOf | webapp/program.js:136-143 | definition: `1 << j` or-ed into 0 for every checked box j, in box order |
| Program.Sum | webapp/program.js:222-225 | definition: the window's samples added left to right, as the `for ... of` loop does |
| Program.ProgramState.constructor | webapp/program.js:1-15 | the globals' initial values |
| Program.ProgramState.StartDataTiming | webapp/program.js:126-133 | the recording restarts empty at index 0 and is turned on; nothing else changes |
| Program.ProgramState.AddTiming | webapp/program.js:186-218 | the window holds the last 30 timings in order and its counter is min(count, 30); while recording, samples are appended until 1000 are held, and the next call ends the recording without appending |
| Program.ProgramState.GetTimingAvg | webapp/program.js:220-231 | nothing exactly when fewer than 30 timings have arrived; otherwise the sum of the last 30 divided by 30 |
| Program.ProgramState.UpdateSettings | webapp/program.js:135-157 | the mask is `MaskOf` of the checkbox states, the channel count 1 for grayscale and 4 otherwise, wasm as checked; the timing state is untouched |
| Uniform.TapOnFlat | webapp/convolutions.js:100-112 | over a flat channel, a tap adds its weight times the level where it lands in the image and 0 where it falls outside |
| Uniform.RowSumFlat | webapp/convolutions.js:96-114 | a kernel row over a flat channel sums to its in-image weights each times the level |
| Uniform.RowsSumFlat | webapp/convolutions.js:90-115 | the same for the first m kernel rows |
| Uniform.FlatKernelSumAnywhere | webapp/convolutions.js:87-115 | at every pixel, border or not, the kernel sum over a flat channel counts exactly the taps that land in the image |
| Uniform.ClippedRowInterior | webapp/convolutions.js:100-107 | away from the border zero padding clips no tap of a row |
| Uniform.ClippedRowsInterior | webapp/convolutions.js:100-107 | away from the border zero padding clips no tap of the kernel |
| Uniform.FlatKernelSum | webapp/convolutions.js:87-115 | the interior kernel sum over a flat channel is the filter's response to that level |
| Uniform.FlatSample | webapp/convolutions.js:87-146 | at any slot, over a flat source channel, a pass writes the quantised sum of the in-image taps |
| Uniform.UniformInteriorSample | webapp/convolutions.js:87-146 | an interior sample over a flat channel is the quantised response |
| Uniform.SharpenResponse | webapp/convolutions.js:202-210 | Sharpen's response to a flat level is the level |
| Uniform.GaussianBlurResponse | webapp/convolutions.js:211-219 | the 3x3 Gaussian's response to a flat level is the level |
| Uniform.ScaledRowOfFive | webapp/convolutions.js:96-114 | a five-wide row is the sum of its five scaled weights |
| Uniform.Gaussian5x5OuterRows | webapp/convolutions.js:224-228 | the outer rows of the 5x5 Gaussian sum to 0.06136 |
| Uniform.Gaussian5x5InnerRows | webapp/convolutions.js:225-227 | the second and fourth rows sum to 0.244769 |
| Uniform.Gaussian5x5MiddleRow | webapp/convolutions.js:226 | the middle row sums to 0.38774 |
| Uniform.GaussianBlur5x5Response | webapp/convolutions.js:220-230 | the 5x5 Gaussian answers a flat level with 0.999998 of it |
| Uniform.VerticalEmbossResponse | webapp/convolutions.js:231-239 | Vertical Emboss answers a flat level with 0 |
| Uniform.LoGResponse | webapp/convolutions.js:240-248 | LoG answers a flat level with 0 |
| Uniform.BoxBlurResponse | webapp/convolutions.js:249-257 | Box Blur answers a flat level with 0.999 of it |
| Uniform.QuantizeUnitGain | webapp/convolutions.js:143-146 | a gain of 1 writes the source byte back |
| Uniform.QuantizeBoxBlurGain | webapp/convolutions.js:143-146 | a gain of 0.999 writes v - 1 for every v ≥ 1, and 0 for 0 |
| Uniform.QuantizeGaussian5x5Gain | webapp/convolutions.js:143-146 | a gain of 0.999998 writes v - 1 for every v ≥ 1, and 0 for 0 |
| Uniform.UnitGainOnFlat | webapp/convolutions.js:202-219 | Sharpen and the 3x3 Gaussian turn a flat byte v into v |
| Uniform.Gaussian5x5OnFlat | webapp/convolutions.js:220-230 | the 5x5 Gaussian turns a flat byte v ≥ 1 into v - 1 |
| Uniform.BoxBlurOnFlat | webapp/convolutions.js:249-257 | Box Blur turns a flat byte v ≥ 1 into v - 1 |
| Uniform.ZeroGainOnFlat | webapp/convolutions.js:231-248 | Vertical Emboss and LoG turn a flat byte into 0 |
| Uniform.CatalogQuantizedResponse | webapp/convolutions.js:201-258 | the byte each catalog filter makes of a flat level |
| Uniform.CatalogOnFlatRegion | webapp/convolutions.js:58-158 | in the interior of a flat region, each catalog filter writes v (Sharpen, Gaussian Blur), 0 (Vertical Emboss, LoG) or one step less than v (Gaussian Blur 5x5, Box Blur) |
| Uniform.BoxBlurCornerResponse | webapp/convolutions.js:100-107 | at the top-left corner Box Blur keeps four of its nine taps: a flat level comes out as 0.444 of itself |
| Uniform.BoxBlurCorner | webapp/convolutions.js:87-146 | over a flat channel at v, Box Blur writes the quantised 0.444 of v/255 at the top-left corner |
| Uniform.ZeroPaddingDarkensCorner | webapp/convolutions.js:100-107 | zero padding is visible: on a white channel Box Blur writes 113 at the corner and 254 at pixel (1, 1) |

## Left out

- The console dump of every filter in the constructor (webapp/convolutions.js:11-20) is logging only.
- The min/max tracking and the commented-out normalisation (webapp/convolutions.js:69-76, 116-121, 140-142) do not affect the output.
- The float rounding of `Float32Array` and of JavaScript numbers is not modelled: weights, samples and sums are exact reals.
- Processor.ConvolutionProcessor.Convolve: the `rowStart/rowEnd/colStart/colEnd` sub-range parameters are fixed to the whole image, which is the only range `processImage` passes; the write-back loop always covers the whole buffer.
- Processor.ConvolutionProcessor.ProcessImage: requires 1 to 4 channels. The page passes only 1 or 4; with more, the channel loop would read the next pixel's slots.
- Processor.ConvolutionProcessor.ImageToGrayscale: requires the length to be a whole number of pixels inside the buffer. The page passes the length of its RGBA buffer.
- Processor.ConvolutionProcessor.Convolve: the source's loop nest is split into one method per loop (AccumulateSums, AccumulateRow, AccumulatePixel, KernelSumAt, AddKernelRow, WriteBackSums, WriteBackStep), each proved against the same functional specification.
- Program.ProgramState.GetTimingAvg: returns the exact average instead of the string made by `toFixed(2)`, and nothing instead of `""`.
- Program.ProgramState.UpdateSettings: the checkbox DOM reads are parameters. Box j of the sequence is the box whose value attribute is j (webapp/program.js:44).
- Program.ProgramState.StartDataTiming: disabling the record button (webapp/program.js:127-128) is user interface and is left out.
- Program.ProgramState.AddTiming: the progress text, the CSV download built with `encodeURI` and `window.open`, and the button state are left out.
- The DOM construction, the webcam capture, the render loop and `performance.now` (webapp/program.js:17-120, 159-184, 233-286) are user interface and I/O.
- The WebAssembly processor and its heap (webapp/program.js:238, 247-248, 261-265) are foreign code that is not shown.
- server.py is a static file server with extra headers and is not part of this model.
