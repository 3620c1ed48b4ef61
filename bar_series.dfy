/**
 * The host's bar series as the indicator sees it: one open time and one tick
 * volume per bar, oldest bar first. Open times are host clock ticks.
 */
module BarSeries {

  datatype Bars = Bars(openTimes: seq<int>, tickVolumes: seq<nat>) {
    /** The host keeps one tick volume per bar. */
    predicate Valid() {
      |openTimes| == |tickVolumes|
    }

    function Count(): nat {
      |openTimes|
    }
  }

  /** Open times never go backwards (the host's bars are in time order). */
  predicate Ascending(openTimes: seq<int>) {
    forall i, j :: 0 <= i < j < |openTimes| ==> openTimes[i] <= openTimes[j]
  }

  // ---------------------------------------------------------------------------
  // Bar lookup
  // ---------------------------------------------------------------------------

  /** Index of the last bar whose open time is at or before `time`; -1 if there is none. */
  function BarIndex(openTimes: seq<int>, time: int): (r: int)
    ensures -1 <= r < |openTimes|
    decreases |openTimes|
  {
    if |openTimes| == 0 then -1
    else if openTimes[|openTimes| - 1] <= time then |openTimes| - 1
    else BarIndex(openTimes[..|openTimes| - 1], time)
  }

  /** BarIndex finds a bar at or before `time`, and every later bar opens after `time`. */
  lemma {:induction false} BarIndexIsLastAtOrBefore(openTimes: seq<int>, time: int)
    ensures var r := BarIndex(openTimes, time);
            (0 <= r ==> openTimes[r] <= time) &&
            (forall j :: r < j < |openTimes| ==> time < openTimes[j])
  {
    if |openTimes| > 0 && time < openTimes[|openTimes| - 1] {
      var prefix := openTimes[..|openTimes| - 1];
      BarIndexIsLastAtOrBefore(prefix, time);
      assert forall j :: 0 <= j < |prefix| ==> prefix[j] == openTimes[j];
    }
  }

  /** -1 comes back exactly when every bar opens after `time`. */
  lemma {:induction false} BarIndexMissing(openTimes: seq<int>, time: int)
    ensures BarIndex(openTimes, time) == -1
        <==> forall j :: 0 <= j < |openTimes| ==> time < openTimes[j]
  {
    BarIndexIsLastAtOrBefore(openTimes, time);
  }

  /** A later time never maps to an earlier bar. */
  lemma {:induction false} BarIndexMonotonic(openTimes: seq<int>, time: int, later: int)
    requires time <= later
    ensures BarIndex(openTimes, time) <= BarIndex(openTimes, later)
  {
    BarIndexIsLastAtOrBefore(openTimes, time);
    BarIndexIsLastAtOrBefore(openTimes, later);
  }

  /**
   * On bars in time order the found bar is the one whose span contains `time`:
   * it and every earlier bar open at or before `time`, the next one after it.
   */
  lemma {:induction false} BarIndexInAscendingBars(openTimes: seq<int>, time: int)
    requires Ascending(openTimes)
    ensures var r := BarIndex(openTimes, time);
            (forall j :: 0 <= j <= r ==> openTimes[j] <= time) &&
            (r + 1 < |openTimes| ==> time < openTimes[r + 1])
  {
    BarIndexIsLastAtOrBefore(openTimes, time);
  }

  /** GetBarIndex: scan the bars backwards and stop at the first one opening at or before `time`. */
  method GetBarIndex(openTimes: seq<int>, time: int) returns (index: int)
    ensures index == BarIndex(openTimes, time)
    ensures 0 <= index ==> openTimes[index] <= time
    ensures forall j :: index < j < |openTimes| ==> time < openTimes[j]
  {
    var i := |openTimes| - 1;
    assert openTimes[..i + 1] == openTimes;
    while i >= 0
      invariant -1 <= i < |openTimes|
      invariant forall j :: i < j < |openTimes| ==> time < openTimes[j]
      invariant BarIndex(openTimes, time) == BarIndex(openTimes[..i + 1], time)
    {
      if openTimes[i] <= time {
        return i;
      }
      assert openTimes[..i + 1][..i] == openTimes[..i];
      i := i - 1;
    }
    assert openTimes[..0] == [];
    return -1;
  }

  // ---------------------------------------------------------------------------
  // Range sum
  // ---------------------------------------------------------------------------

  /** Sum of tickVolumes[startIndex] .. tickVolumes[endIndex], both ends included; 0 for an empty range. */
  function VolumeSum(tickVolumes: seq<nat>, startIndex: int, endIndex: int): (r: int)
    requires startIndex <= endIndex ==> 0 <= startIndex && endIndex < |tickVolumes|
    ensures 0 <= r
    decreases endIndex - startIndex
  {
    if startIndex > endIndex then 0
    else VolumeSum(tickVolumes, startIndex, endIndex - 1) + tickVolumes[endIndex]
  }

  /** The first bar of a non-empty range can be split off. */
  lemma {:induction false} VolumeSumFirst(tickVolumes: seq<nat>, startIndex: int, endIndex: int)
    requires 0 <= startIndex <= endIndex < |tickVolumes|
    ensures VolumeSum(tickVolumes, startIndex, endIndex)
         == tickVolumes[startIndex] + VolumeSum(tickVolumes, startIndex + 1, endIndex)
    decreases endIndex - startIndex
  {
    if startIndex < endIndex {
      VolumeSumFirst(tickVolumes, startIndex, endIndex - 1);
    }
  }

  /**
   * Summing [lo, hi] instead of [lo + 1, hi - 1] adds the volumes of the two
   * end bars (once, when they are the same bar).
   */
  lemma {:induction false} VolumeSumOfEndBars(tickVolumes: seq<nat>, lo: int, hi: int)
    requires 0 <= lo <= hi < |tickVolumes|
    ensures VolumeSum(tickVolumes, lo, hi)
         == tickVolumes[lo] + (if lo < hi then tickVolumes[hi] else 0)
            + VolumeSum(tickVolumes, lo + 1, hi - 1)
  {
    VolumeSumFirst(tickVolumes, lo, hi);
  }

  /** Every bar of the range contributes: the range sum is at least any one bar's volume. */
  lemma {:induction false} VolumeSumCoversEachBar(tickVolumes: seq<nat>, startIndex: int, endIndex: int, j: int)
    requires startIndex <= j <= endIndex
    requires 0 <= startIndex && endIndex < |tickVolumes|
    ensures tickVolumes[j] <= VolumeSum(tickVolumes, startIndex, endIndex)
    decreases endIndex - startIndex
  {
    if j < endIndex {
      VolumeSumCoversEachBar(tickVolumes, startIndex, endIndex - 1, j);
    }
  }

  /** CalculateVolumeSum: accumulate the tick volumes of an inclusive index range. */
  method CalculateVolumeSum(tickVolumes: seq<nat>, startIndex: int, endIndex: int) returns (sum: int)
    requires startIndex <= endIndex ==> 0 <= startIndex && endIndex < |tickVolumes|
    ensures sum == VolumeSum(tickVolumes, startIndex, endIndex)
    ensures startIndex > endIndex ==> sum == 0
  {
    sum := 0;
    if startIndex > endIndex {
      return;
    }
    var i := startIndex;
    while i <= endIndex
      invariant startIndex <= i <= endIndex + 1
      invariant sum == VolumeSum(tickVolumes, startIndex, i - 1)
    {
      sum := sum + tickVolumes[i];
      i := i + 1;
    }
  }
}
