/**
 * The page's global state as the render loop and the checkbox handlers see
 * it: the sliding window of frame timings shown on screen, the timing series
 * being recorded for download, and the settings the checkboxes choose.
 */
module Program {
  import opened Bits

  datatype Option<T> = None | Some(value: T)

  /** Frames averaged for the on-screen timing. */
  const DisplayTimingLength: nat := 30
  /** Frames recorded per data-timing run. */
  const DataTimingTotal: nat := 1000

  function Min(a: int, b: int): int {
    if a <= b then a else b
  }

  /** The last n elements of s, or all of s when it is shorter. */
  function LastN<T>(s: seq<T>, n: nat): (r: seq<T>)
    ensures |r| == Min(|s|, n)
  {
    if |s| <= n then s else s[|s| - n..]
  }

  /** Left-to-right sum, the order of a `for ... of` accumulation. */
  function Sum(s: seq<real>): real
    decreases |s|
  {
    if |s| == 0 then 0.0 else Sum(s[..|s| - 1]) + s[|s| - 1]
  }

  /** The mask `updateSettings` builds: `1 << j` or-ed in for every checked box j. */
  function MaskOf(checked: seq<bool>): bv32
    decreases |checked|
  {
    if |checked| == 0 then 0
    else
      var rest := MaskOf(checked[..|checked| - 1]);
      if checked[|checked| - 1] then rest | Bit(|checked| - 1) else rest
  }

  /** Appending to a full window drops its oldest sample; appending to a
      window that is not full keeps every sample. */
  lemma LastNSlide<T>(s: seq<T>, x: T, n: nat)
    requires n > 0
    ensures LastN(s + [x], n) == if |s| >= n then LastN(s, n)[1..] + [x] else LastN(s, n) + [x]
  {
    var t := s + [x];
    if |s| >= n {
      assert LastN(t, n) == t[|t| - n..];
      assert LastN(s, n)[1..] + [x] == t[|t| - n..];
    }
  }

  /** Bit i of MaskOf(checked) is set exactly when some checked box j names
      the same bit, that is j and i agree mod 32. */
  lemma {:induction false} MaskOfSelected(checked: seq<bool>, i: nat)
    ensures Selected(MaskOf(checked), i) <==> exists j :: 0 <= j < |checked| && checked[j] && j % 32 == i % 32
    decreases |checked|
  {
    if |checked| == 0 {
      NothingSelectedInZero(i);
    } else {
      var last := |checked| - 1;
      var prefix := checked[..last];
      MaskOfSelected(prefix, i);
      var rest := MaskOf(prefix);
      if checked[last] {
        SelectedUnion(rest, Bit(last), i);
        SelectedBit(last, i);
      }
      if exists j :: 0 <= j < |checked| && checked[j] && j % 32 == i % 32 {
        var j :| 0 <= j < |checked| && checked[j] && j % 32 == i % 32;
        if j < last {
          assert prefix[j] == checked[j];
        }
      }
      if exists j :: 0 <= j < |prefix| && prefix[j] && j % 32 == i % 32 {
        var j :| 0 <= j < |prefix| && prefix[j] && j % 32 == i % 32;
        assert checked[j] == prefix[j];
      }
    }
  }

  /** With at most 32 checkboxes no two share a bit: bit i is set exactly
      when box i is checked. */
  lemma MaskOfExact(checked: seq<bool>, i: nat)
    requires |checked| <= 32 && i < |checked|
    ensures Selected(MaskOf(checked), i) <==> checked[i]
  {
    MaskOfSelected(checked, i);
    if exists j :: 0 <= j < |checked| && checked[j] && j % 32 == i % 32 {
      var j :| 0 <= j < |checked| && checked[j] && j % 32 == i % 32;
      assert j % 32 == j && i % 32 == i;
    }
  }

  class ProgramState {
    var filtersToProcess: bv32
    var numChannels: int
    var useWasm: bool
    var displayTimingIndex: int
    var displayTimingHistory: seq<real>
    var dataTiming: seq<real>
    var dataTimingIndex: int
    var isDataTiming: bool
    /** Every frame time passed to AddTiming so far, oldest first. */
    ghost var timings: seq<real>

    /** The window holds the last 30 timings in order and its counter is the
        number of timings seen, capped at 30; the recording counter is the
        recording's length, at most 1000; the channel count is 1 or 4. */
    ghost predicate Valid()
      reads this
    {
      && displayTimingIndex == Min(|timings|, DisplayTimingLength)
      && displayTimingHistory == LastN(timings, DisplayTimingLength)
      && dataTimingIndex == |dataTiming| <= DataTimingTotal
      && (numChannels == 1 || numChannels == 4)
    }

    /** The globals' initial values. */
    constructor()
      ensures Valid() && timings == []
      ensures filtersToProcess == 0 && numChannels == 4 && useWasm
      ensures displayTimingIndex == 0 && displayTimingHistory == []
      ensures dataTiming == [] && dataTimingIndex == 0 && !isDataTiming
    {
      filtersToProcess := 0;
      numChannels := 4;
      useWasm := true;
      displayTimingIndex := 0;
      displayTimingHistory := [];
      dataTiming := [];
      dataTimingIndex := 0;
      isDataTiming := false;
      timings := [];
    }

    /** The record button: restart the recording from empty and turn it on. */
    method StartDataTiming()
      requires Valid()
      modifies this
      ensures Valid()
      ensures dataTimingIndex == 0 && dataTiming == [] && isDataTiming
      ensures timings == old(timings) && displayTimingIndex == old(displayTimingIndex)
      ensures displayTimingHistory == old(displayTimingHistory)
      ensures filtersToProcess == old(filtersToProcess) && numChannels == old(numChannels)
      ensures useWasm == old(useWasm)
    {
      dataTimingIndex := 0;
      dataTiming := [];
      isDataTiming := true;
    }

    /** One frame's processing time: slide it into the display window and,
        while recording, append it until 1000 samples are held; the call after
        that ends the recording without appending. */
    method AddTiming(time: real)
      requires Valid()
      modifies this
      ensures Valid()
      ensures timings == old(timings) + [time]
      ensures old(displayTimingIndex) >= DisplayTimingLength
              ==> displayTimingHistory == old(displayTimingHistory)[1..] + [time]
      ensures old(displayTimingIndex) < DisplayTimingLength
              ==> displayTimingHistory == old(displayTimingHistory) + [time]
      ensures old(isDataTiming) && old(dataTimingIndex) < DataTimingTotal
              ==> dataTiming == old(dataTiming) + [time] && isDataTiming
      ensures old(isDataTiming) && old(dataTimingIndex) >= DataTimingTotal
              ==> dataTiming == old(dataTiming) && !isDataTiming
      ensures !old(isDataTiming) ==> dataTiming == old(dataTiming) && !isDataTiming
      ensures filtersToProcess == old(filtersToProcess) && numChannels == old(numChannels)
      ensures useWasm == old(useWasm)
    {
      LastNSlide(timings, time, DisplayTimingLength);
      timings := timings + [time];
      if displayTimingIndex >= DisplayTimingLength {
        displayTimingHistory := displayTimingHistory[1..] + [time];
      } else {
        displayTimingHistory := displayTimingHistory + [time];
        displayTimingIndex := displayTimingIndex + 1;
      }

      if isDataTiming {
        if dataTimingIndex < DataTimingTotal {
          dataTiming := dataTiming + [time];
          dataTimingIndex := dataTimingIndex + 1;
        } else {
          isDataTiming := false;
        }
      }
    }

    /** The on-screen average: nothing until 30 timings have arrived, then the
        mean of the last 30. */
    method GetTimingAvg() returns (avg: Option<real>)
      requires Valid()
      ensures avg.None? <==> |timings| < DisplayTimingLength
      ensures avg.None? <==> displayTimingIndex < DisplayTimingLength
      ensures avg.Some? ==> avg.value == Sum(LastN(timings, DisplayTimingLength)) / DisplayTimingLength as real
    {
      if displayTimingIndex >= DisplayTimingLength {
        var sum := 0.0;
        var i := 0;
        while i < |displayTimingHistory|
          invariant 0 <= i <= |displayTimingHistory|
          invariant sum == Sum(displayTimingHistory[..i])
        {
          assert displayTimingHistory[..i + 1][..i] == displayTimingHistory[..i];
          sum := sum + displayTimingHistory[i];
          i := i + 1;
        }
        assert displayTimingHistory[..i] == displayTimingHistory;
        avg := Some(sum / DisplayTimingLength as real);
      } else {
        avg := None;
      }
    }

    /** The checkbox handler: box j (whose value is j) contributes `1 << j`;
        grayscale chooses one channel, otherwise four. */
    method UpdateSettings(checked: seq<bool>, grayscale: bool, wasm: bool)
      requires Valid()
      modifies this
      ensures Valid()
      ensures filtersToProcess == MaskOf(checked)
      ensures numChannels == (if grayscale then 1 else 4)
      ensures useWasm == wasm
      ensures timings == old(timings) && displayTimingIndex == old(displayTimingIndex)
      ensures displayTimingHistory == old(displayTimingHistory)
      ensures dataTiming == old(dataTiming) && dataTimingIndex == old(dataTimingIndex)
      ensures isDataTiming == old(isDataTiming)
    {
      var newFilters: bv32 := 0;
      var j := 0;
      while j < |checked|
        invariant 0 <= j <= |checked|
        invariant newFilters == MaskOf(checked[..j])
      {
        assert checked[..j + 1][..j] == checked[..j];
        if checked[j] {
          newFilters := newFilters | Bit(j);
        }
        j := j + 1;
      }
      assert checked[..j] == checked;

      filtersToProcess := newFilters;

      if grayscale {
        numChannels := 1;
      } else {
        numChannels := 4;
      }

      useWasm := wasm;
    }
  }
}
