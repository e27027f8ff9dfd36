/**
 * The filter bank of the JavaScript convolution processor: immutable named
 * square kernels and the fixed, ordered catalog they are loaded from.
 */
module Filters {

  /** What `Filter.getValue` produces: a weight, a thrown RangeError, or the
      `undefined` a JavaScript array yields for an index it does not hold. */
  datatype Lookup = Value(weight: real) | RangeError | Undefined

  /** A named kernel; `data` holds its weights row by row and `size` is its width.
      The source's getters `getFilterName`, `getFilter` and `getFilterSize` are the
      fields `name`, `data` and `size`. */
  datatype Filter = Filter(name: string, data: seq<real>, size: int)
  {
    /** A kernel with a centre tap and exactly size*size weights. */
    predicate WellFormed() {
      size > 0 && size % 2 == 1 && |data| == size * size
    }

    /** `getValue(row, col)`: only the upper bounds of row and col are checked. */
    function GetValue(row: int, col: int): (r: Lookup)
      ensures r == RangeError <==> row >= size || col >= size
      ensures r.Value? <==> row < size && col < size && 0 <= row * size + col < |data|
      ensures r.Value? ==> r.weight == data[row * size + col]
    {
      if row >= size || col >= size then RangeError
      else if 0 <= row * size + col < |data| then Value(data[row * size + col])
      else Undefined
    }

    /** The weight at kernel position (row, col) of a well formed kernel; such a
        lookup never throws and never falls outside the weights. */
    function Weight(row: int, col: int): (w: real)
      requires WellFormed() && 0 <= row < size && 0 <= col < size
      ensures GetValue(row, col) == Value(w)
    {
      RowMajorInRange(size, row, col);
      data[row * size + col]
    }
  }

  /** Row-major indexing of an n-by-n matrix stays inside its n*n cells. */
  lemma RowMajorInRange(n: int, row: int, col: int)
    requires 0 <= row < n && 0 <= col < n
    ensures 0 <= row * n + col < n * n
  {
    assert row * n <= (n - 1) * n by {
      assert (n - 1) * n - row * n == (n - 1 - row) * n;
    }
  }

  /** Lower bounds are not checked: on a kernel of width 2 or more, row 1 with
      column -1 reads the last weight of row 0 instead of throwing. */
  lemma NegativeColumnWrapsIntoPreviousRow(f: Filter)
    requires f.WellFormed() && f.size >= 2
    ensures f.GetValue(1, -1).Value?
    ensures f.GetValue(1, -1) == f.GetValue(0, f.size - 1)
  {
    var n := f.size;
    RowMajorInRange(n, 0, n - 1);
    assert 1 * n + -1 == 0 * n + (n - 1);
  }

  /** On row 0 a negative column indexes before the weights: JavaScript
      yields `undefined`, not a RangeError. */
  lemma NegativeColumnOnFirstRowIsUndefined(f: Filter, col: int)
    requires f.WellFormed() && col < 0
    ensures f.GetValue(0, col) == Undefined
  {
  }

  /** The catalog, in load order; a filter's position is its bit in a selection mask. */
  const FilterData: seq<Filter> := [
    Filter("Sharpen",
      [ 0.0, -1.0,  0.0,
       -1.0,  5.0, -1.0,
        0.0, -1.0,  0.0], 3),
    Filter("Gaussian Blur",
      [0.0625, 0.125, 0.0625,
       0.125,  0.25,  0.125,
       0.0625, 0.125, 0.0625], 3),
    Filter("Gaussian Blur 5x5",
      [0.003765, 0.015019, 0.023792, 0.015019, 0.003765,
       0.015019, 0.059912, 0.094907, 0.059912, 0.015019,
       0.023792, 0.094907, 0.150342, 0.094907, 0.023792,
       0.015019, 0.059912, 0.094907, 0.059912, 0.015019,
       0.003765, 0.015019, 0.023792, 0.015019, 0.003765], 5),
    Filter("Vertical Emboss",
      [0.0,  1.0, 0.0,
       0.0,  0.0, 0.0,
       0.0, -1.0, 0.0], 3),
    Filter("LoG",
      [-1.0, -1.0, -1.0,
       -1.0,  8.0, -1.0,
       -1.0, -1.0, -1.0], 3),
    Filter("Box Blur",
      [0.111, 0.111, 0.111,
       0.111, 0.111, 0.111,
       0.111, 0.111, 0.111], 3)
  ]

  /** The bit positions of the catalog's filters. */
  const Sharpen := 0
  const GaussianBlur := 1
  const GaussianBlur5x5 := 2
  const VerticalEmboss := 3
  const LoG := 4
  const BoxBlur := 5

  /** Every catalog kernel is well formed, and no name collides with the
      sentinel that `getFilterName` returns for an invalid index. */
  lemma CatalogWellFormed()
    ensures |FilterData| == 6
    ensures forall i :: 0 <= i < |FilterData| ==> FilterData[i].WellFormed()
    ensures forall i :: 0 <= i < |FilterData| ==> FilterData[i].name != "invalid index"
    ensures FilterData[Sharpen].name == "Sharpen" && FilterData[GaussianBlur].name == "Gaussian Blur"
    ensures FilterData[GaussianBlur5x5].name == "Gaussian Blur 5x5"
    ensures FilterData[VerticalEmboss].name == "Vertical Emboss"
    ensures FilterData[LoG].name == "LoG" && FilterData[BoxBlur].name == "Box Blur"
  {
  }
}
