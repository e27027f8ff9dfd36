/**
 * Mask-driven orchestration: which filters a selection mask enables, and the
 * image that results from applying them in ascending bit order, each pass
 * reading the previous pass's output.
 */
module Pipeline {
  import opened Filters
  import opened Pixels
  import opened Convolution
  import opened Bits

  /** Every filter of a bank is well formed. */
  predicate AllWellFormed(filters: seq<Filter>) {
    forall i :: 0 <= i < |filters| ==> filters[i].WellFormed()
  }

  /** The image after the selected filters among the first n have run, in
      ascending index order. */
  function ProcessedUpTo(src: seq<Byte>, width: nat, height: nat, numChannels: int,
                         filters: seq<Filter>, filterNames: bv32, n: int): (out: seq<Byte>)
    requires |src| == width * height * 4 && AllWellFormed(filters) && 0 <= n <= |filters|
    ensures |out| == |src|
    decreases n
  {
    if n == 0 then src
    else
      var prev := ProcessedUpTo(src, width, height, numChannels, filters, filterNames, n - 1);
      if Selected(filterNames, n - 1) then Convolved(prev, width, height, numChannels, filters[n - 1])
      else prev
  }

  /** The image after every selected filter of the bank has run. */
  function Processed(src: seq<Byte>, width: nat, height: nat, numChannels: int,
                     filters: seq<Filter>, filterNames: bv32): seq<Byte>
    requires |src| == width * height * 4 && AllWellFormed(filters)
  {
    ProcessedUpTo(src, width, height, numChannels, filters, filterNames, |filters|)
  }

  /** When none of the first n filters is selected the image is untouched. */
  lemma {:induction false} UnselectedLeavesImage(src: seq<Byte>, width: nat, height: nat, numChannels: int,
                                                 filters: seq<Filter>, filterNames: bv32, n: int)
    requires |src| == width * height * 4 && AllWellFormed(filters) && 0 <= n <= |filters|
    requires forall i :: 0 <= i < n ==> !Selected(filterNames, i)
    ensures ProcessedUpTo(src, width, height, numChannels, filters, filterNames, n) == src
  {
    if n > 0 {
      UnselectedLeavesImage(src, width, height, numChannels, filters, filterNames, n - 1);
    }
  }

  /** A mask of 0 leaves the buffer exactly as it was. */
  lemma ZeroMaskLeavesImage(src: seq<Byte>, width: nat, height: nat, numChannels: int, filters: seq<Filter>)
    requires |src| == width * height * 4 && AllWellFormed(filters)
    ensures Processed(src, width, height, numChannels, filters, 0) == src
  {
    forall i | 0 <= i < |filters| ensures !Selected(0, i) {
      NothingSelectedInZero(i);
    }
    UnselectedLeavesImage(src, width, height, numChannels, filters, 0, |filters|);
  }

  /** Two masks that agree on the first n bits give the same image after n filters. */
  lemma {:induction false} SameSelectionSameImage(src: seq<Byte>, width: nat, height: nat, numChannels: int,
                                                  filters: seq<Filter>, m: bv32, m': bv32, n: int)
    requires |src| == width * height * 4 && AllWellFormed(filters) && 0 <= n <= |filters|
    requires forall i :: 0 <= i < n ==> (Selected(m, i) <==> Selected(m', i))
    ensures ProcessedUpTo(src, width, height, numChannels, filters, m, n)
         == ProcessedUpTo(src, width, height, numChannels, filters, m', n)
  {
    if n > 0 {
      SameSelectionSameImage(src, width, height, numChannels, filters, m, m', n - 1);
    }
  }

  /** Every alpha slot of the buffer holds 255. */
  predicate AlphaOpaque(s: seq<Byte>) {
    forall p :: 0 <= p < |s| && p % 4 == 3 ==> s[p] == 255
  }

  /** Once one of the first n filters ran, every fourth slot holds 255. */
  lemma {:induction false} AlphaForcedAfterAnyPass(src: seq<Byte>, width: nat, height: nat, numChannels: int,
                                                   filters: seq<Filter>, filterNames: bv32, n: int, k: int)
    requires |src| == width * height * 4 && AllWellFormed(filters) && 0 <= n <= |filters|
    requires 0 <= k < n && Selected(filterNames, k)
    ensures AlphaOpaque(ProcessedUpTo(src, width, height, numChannels, filters, filterNames, n))
  {
    var prev := ProcessedUpTo(src, width, height, numChannels, filters, filterNames, n - 1);
    if Selected(filterNames, n - 1) {
      assert ProcessedUpTo(src, width, height, numChannels, filters, filterNames, n)
          == Convolved(prev, width, height, numChannels, filters[n - 1]);
    } else {
      AlphaForcedAfterAnyPass(src, width, height, numChannels, filters, filterNames, n - 1, k);
      assert ProcessedUpTo(src, width, height, numChannels, filters, filterNames, n) == prev;
    }
  }

  /** Masks split at bit k cascade: running the low bits, then the high bits on
      that result, is the same as running their union. */
  lemma {:induction false} CascadeUpTo(src: seq<Byte>, width: nat, height: nat, numChannels: int,
                                       filters: seq<Filter>, low: bv32, high: bv32, k: int, n: int)
    requires |src| == width * height * 4 && AllWellFormed(filters) && 0 <= n <= |filters|
    requires forall i :: 0 <= i < |filters| ==> (Selected(low, i) ==> i < k) && (Selected(high, i) ==> i >= k)
    ensures ProcessedUpTo(src, width, height, numChannels, filters, low | high, n)
         == ProcessedUpTo(ProcessedUpTo(src, width, height, numChannels, filters, low, n),
                          width, height, numChannels, filters, high, n)
  {
    if n > 0 {
      if n - 1 < k {
        CascadeBelowCut(src, width, height, numChannels, filters, low, high, k, n);
      } else {
        CascadeUpTo(src, width, height, numChannels, filters, low, high, k, n - 1);
        CascadeAboveCut(src, width, height, numChannels, filters, low, high, k, n);
      }
    }
  }

  /** Below the cut only low bits can be set: the union runs what low runs and
      high then runs nothing. */
  lemma CascadeBelowCut(src: seq<Byte>, width: nat, height: nat, numChannels: int,
                        filters: seq<Filter>, low: bv32, high: bv32, k: int, n: int)
    requires |src| == width * height * 4 && AllWellFormed(filters) && 0 <= n <= |filters| && n <= k
    requires forall i :: 0 <= i < |filters| ==> (Selected(low, i) ==> i < k) && (Selected(high, i) ==> i >= k)
    ensures ProcessedUpTo(src, width, height, numChannels, filters, low | high, n)
         == ProcessedUpTo(ProcessedUpTo(src, width, height, numChannels, filters, low, n),
                          width, height, numChannels, filters, high, n)
  {
    var first := ProcessedUpTo(src, width, height, numChannels, filters, low, n);
    forall i | 0 <= i < n ensures !Selected(high, i) { }
    UnselectedLeavesImage(first, width, height, numChannels, filters, high, n);
    forall i | 0 <= i < n ensures Selected(low | high, i) <==> Selected(low, i) {
      SelectedUnion(low, high, i);
    }
    SameSelectionSameImage(src, width, height, numChannels, filters, low | high, low, n);
  }

  /** At or above the cut low is not set: the union's step n - 1 is high's step
      n - 1 applied to the same image. */
  lemma CascadeAboveCut(src: seq<Byte>, width: nat, height: nat, numChannels: int,
                        filters: seq<Filter>, low: bv32, high: bv32, k: int, n: int)
    requires |src| == width * height * 4 && AllWellFormed(filters) && 0 < n <= |filters| && k <= n - 1
    requires forall i :: 0 <= i < |filters| ==> (Selected(low, i) ==> i < k) && (Selected(high, i) ==> i >= k)
    requires ProcessedUpTo(src, width, height, numChannels, filters, low | high, n - 1)
          == ProcessedUpTo(ProcessedUpTo(src, width, height, numChannels, filters, low, n - 1),
                           width, height, numChannels, filters, high, n - 1)
    ensures ProcessedUpTo(src, width, height, numChannels, filters, low | high, n)
         == ProcessedUpTo(ProcessedUpTo(src, width, height, numChannels, filters, low, n),
                          width, height, numChannels, filters, high, n)
  {
    SelectedUnion(low, high, n - 1);
    SkipStep(src, width, height, numChannels, filters, low, n);
  }

  /** A filter whose bit is clear leaves the image as the previous step left it. */
  lemma SkipStep(src: seq<Byte>, width: nat, height: nat, numChannels: int,
                 filters: seq<Filter>, filterNames: bv32, n: int)
    requires |src| == width * height * 4 && AllWellFormed(filters) && 0 < n <= |filters|
    requires !Selected(filterNames, n - 1)
    ensures ProcessedUpTo(src, width, height, numChannels, filters, filterNames, n)
         == ProcessedUpTo(src, width, height, numChannels, filters, filterNames, n - 1)
  {
  }

  /** Sequential composition equals the cascaded mask over the whole bank. */
  lemma Cascade(src: seq<Byte>, width: nat, height: nat, numChannels: int,
                filters: seq<Filter>, low: bv32, high: bv32, k: int)
    requires |src| == width * height * 4 && AllWellFormed(filters)
    requires forall i :: 0 <= i < |filters| ==> (Selected(low, i) ==> i < k) && (Selected(high, i) ==> i >= k)
    ensures Processed(src, width, height, numChannels, filters, low | high)
         == Processed(Processed(src, width, height, numChannels, filters, low), width, height, numChannels, filters, high)
  {
    CascadeUpTo(src, width, height, numChannels, filters, low, high, k, |filters|);
  }

  /** With the catalog, mask 0b101 runs Sharpen and then Gaussian Blur 5x5 on
      Sharpen's output. */
  lemma SharpenThenGaussian5x5(src: seq<Byte>, width: nat, height: nat, numChannels: int)
    requires |src| == width * height * 4
    ensures AllWellFormed(FilterData)
    ensures Processed(src, width, height, numChannels, FilterData, 5)
         == Convolved(Convolved(src, width, height, numChannels, FilterData[Sharpen]),
                      width, height, numChannels, FilterData[GaussianBlur5x5])
  {
    CatalogWellFormed();
    assert Selected(5, 0) && !Selected(5, 1) && Selected(5, 2);
    assert !Selected(5, 3) && !Selected(5, 4) && !Selected(5, 5);
    var s1 := ProcessedUpTo(src, width, height, numChannels, FilterData, 5, 1);
    assert s1 == Convolved(src, width, height, numChannels, FilterData[Sharpen]);
    var s3 := ProcessedUpTo(src, width, height, numChannels, FilterData, 5, 3);
    assert s3 == Convolved(s1, width, height, numChannels, FilterData[GaussianBlur5x5]);
    UnselectedTail(src, width, height, numChannels, FilterData, 5, 3, 6);
  }

  /** Filters past the last selected one leave the image as it is. */
  lemma {:induction false} UnselectedTail(src: seq<Byte>, width: nat, height: nat, numChannels: int,
                                          filters: seq<Filter>, filterNames: bv32, k: int, n: int)
    requires |src| == width * height * 4 && AllWellFormed(filters) && 0 <= k <= n <= |filters|
    requires forall i :: k <= i < n ==> !Selected(filterNames, i)
    ensures ProcessedUpTo(src, width, height, numChannels, filters, filterNames, n)
         == ProcessedUpTo(src, width, height, numChannels, filters, filterNames, k)
  {
    if n > k {
      UnselectedTail(src, width, height, numChannels, filters, filterNames, k, n - 1);
    }
  }
}
