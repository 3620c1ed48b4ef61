/**
 * The indicator itself: two user-movable vertical lines, the tick volume
 * summed between them, and the label that shows the sum.
 */
module VolumeIndicator {
  import opened IntMath
  import opened BarSeries
  import opened LabelPlacement

  datatype Option<T> = None | Some(value: T)

  /** The user's parameters that the computation reads. */
  datatype Settings = Settings(includeLinesBars: bool, labelPosition: LabelPosition,
                               labelOrientation: LabelOrientation)

  /** An inclusive range of bar indices; empty when startIndex > endIndex. */
  datatype Range = Range(startIndex: int, endIndex: int)

  /** What one refresh leaves behind: both line times and the label it drew, if any. */
  datatype RefreshOutcome = RefreshOutcome(line1Time: int, line2Time: int, drawn: Option<Label>)

  /** With fewer bars than this a refresh does nothing. */
  const MinBars := 3

  /** A line time in the future is moved back to the open time of the current bar. */
  function ClampToPresent(lineTime: int, currentBarTime: int): (r: int)
    ensures r <= currentBarTime
    ensures lineTime <= currentBarTime ==> r == lineTime
    ensures r == lineTime || r == currentBarTime
  {
    if lineTime > currentBarTime then currentBarTime else lineTime
  }

  /** Bar j lies between the two line bars, the line bars themselves counting when `inclusive`. */
  predicate BetweenLines(j: int, line1Index: int, line2Index: int, inclusive: bool) {
    if inclusive then line1Index <= j <= line2Index || line2Index <= j <= line1Index
    else line1Index < j < line2Index || line2Index < j < line1Index
  }

  /** The index range to sum: min..max of the line bars, shrunk by one at each end when their bars are excluded. */
  function SummedRange(line1Index: int, line2Index: int, includeLinesBars: bool): (r: Range)
    ensures forall j :: r.startIndex <= j <= r.endIndex <==> BetweenLines(j, line1Index, line2Index, includeLinesBars)
    ensures r.startIndex <= r.endIndex ==>
              Min(line1Index, line2Index) <= r.startIndex && r.endIndex <= Max(line1Index, line2Index)
  {
    var startIndex := Min(line1Index, line2Index);
    var endIndex := Max(line1Index, line2Index);
    if includeLinesBars then Range(startIndex, endIndex) else Range(startIndex + 1, endIndex - 1)
  }

  /** Ordering the line bars with min and max makes the range independent of which line is first. */
  lemma SummedRangeSymmetric(line1Index: int, line2Index: int, includeLinesBars: bool)
    ensures SummedRange(line1Index, line2Index, includeLinesBars)
         == SummedRange(line2Index, line1Index, includeLinesBars)
  {
  }

  /** RefreshVolumeSum as a function of the bars, the settings and the two line times. */
  function Refresh(bars: Bars, settings: Settings, line1Time: int, line2Time: int): (o: RefreshOutcome)
    requires bars.Valid()
    ensures o.drawn.Some? ==> 0 <= o.drawn.value.volume && 0 <= o.drawn.value.anchorIndex < bars.Count()
  {
    if bars.Count() < MinBars then RefreshOutcome(line1Time, line2Time, None)
    else
      var currentBarTime := bars.openTimes[bars.Count() - 1];
      var t1 := ClampToPresent(line1Time, currentBarTime);
      var t2 := ClampToPresent(line2Time, currentBarTime);
      var i1 := BarIndex(bars.openTimes, t1);
      var i2 := BarIndex(bars.openTimes, t2);
      if i1 < 0 || i2 < 0 then RefreshOutcome(t1, t2, None)
      else
        var range := SummedRange(i1, i2, settings.includeLinesBars);
        var volume := VolumeSum(bars.tickVolumes, range.startIndex, range.endIndex);
        RefreshOutcome(t1, t2, Some(PlaceLabel(volume, i1, i2, settings.labelPosition, settings.labelOrientation)))
  }

  // ---------------------------------------------------------------------------
  // Properties of a refresh
  // ---------------------------------------------------------------------------

  /** With fewer than three bars nothing moves and nothing is drawn. */
  lemma RefreshWithTooFewBars(bars: Bars, settings: Settings, line1Time: int, line2Time: int)
    requires bars.Valid() && bars.Count() < MinBars
    ensures Refresh(bars, settings, line1Time, line2Time) == RefreshOutcome(line1Time, line2Time, None)
  {
  }

  /** Afterwards no line lies in the future, and a line that did not is left where it was. */
  lemma RefreshKeepsLinesInThePast(bars: Bars, settings: Settings, line1Time: int, line2Time: int)
    requires bars.Valid() && MinBars <= bars.Count()
    ensures var o := Refresh(bars, settings, line1Time, line2Time);
            var current := bars.openTimes[bars.Count() - 1];
            o.line1Time <= current && o.line2Time <= current &&
            (line1Time <= current ==> o.line1Time == line1Time) &&
            (line2Time <= current ==> o.line2Time == line2Time)
  {
  }

  /**
   * A label is drawn exactly when each line has some bar opening at or before
   * it: clamping a line to the current bar never loses it.
   */
  lemma RefreshDrawsIffBothLinesHaveBars(bars: Bars, settings: Settings, line1Time: int, line2Time: int)
    requires bars.Valid() && MinBars <= bars.Count()
    ensures Refresh(bars, settings, line1Time, line2Time).drawn.Some?
        <==> (exists j :: 0 <= j < bars.Count() && bars.openTimes[j] <= line1Time) &&
             (exists j :: 0 <= j < bars.Count() && bars.openTimes[j] <= line2Time)
  {
    var n := bars.Count();
    var current := bars.openTimes[n - 1];
    var t1 := ClampToPresent(line1Time, current);
    var t2 := ClampToPresent(line2Time, current);
    BarIndexMissing(bars.openTimes, t1);
    BarIndexMissing(bars.openTimes, t2);
    assert (exists j :: 0 <= j < n && bars.openTimes[j] <= line1Time)
       <==> (exists j :: 0 <= j < n && bars.openTimes[j] <= t1) by {
      if line1Time > current {
        assert bars.openTimes[n - 1] <= t1 && bars.openTimes[n - 1] <= line1Time;
      }
    }
    assert (exists j :: 0 <= j < n && bars.openTimes[j] <= line2Time)
       <==> (exists j :: 0 <= j < n && bars.openTimes[j] <= t2) by {
      if line2Time > current {
        assert bars.openTimes[n - 1] <= t2 && bars.openTimes[n - 1] <= line2Time;
      }
    }
  }

  /** Which line is the first does not matter: swapping them swaps the stored times and draws the same label. */
  lemma RefreshIndependentOfLineOrder(bars: Bars, settings: Settings, line1Time: int, line2Time: int)
    requires bars.Valid()
    ensures var o := Refresh(bars, settings, line1Time, line2Time);
            Refresh(bars, settings, line2Time, line1Time) == RefreshOutcome(o.line2Time, o.line1Time, o.drawn)
  {
  }

  /** With the line bars excluded, lines on the same or on adjacent bars enclose no volume. */
  lemma RefreshExcludingAdjacentLineBars(bars: Bars, settings: Settings, line1Time: int, line2Time: int)
    requires bars.Valid() && MinBars <= bars.Count() && !settings.includeLinesBars
    requires var current := bars.openTimes[bars.Count() - 1];
             var i1 := BarIndex(bars.openTimes, ClampToPresent(line1Time, current));
             var i2 := BarIndex(bars.openTimes, ClampToPresent(line2Time, current));
             -1 <= i1 - i2 <= 1
    ensures var o := Refresh(bars, settings, line1Time, line2Time);
            o.drawn.Some? ==> o.drawn.value.volume == 0
  {
  }

  /**
   * Including the line bars adds exactly their volumes (once when both lines
   * are on one bar) to what is summed without them.
   */
  lemma RefreshIncludingLineBars(bars: Bars, settings: Settings, line1Time: int, line2Time: int)
    requires bars.Valid()
    ensures var with := Refresh(bars, settings.(includeLinesBars := true), line1Time, line2Time);
            var without := Refresh(bars, settings.(includeLinesBars := false), line1Time, line2Time);
            with.drawn.Some? <==> without.drawn.Some?
    ensures var with := Refresh(bars, settings.(includeLinesBars := true), line1Time, line2Time);
            var without := Refresh(bars, settings.(includeLinesBars := false), line1Time, line2Time);
            with.drawn.Some? ==>
              var i1 := BarIndex(bars.openTimes, with.line1Time);
              var i2 := BarIndex(bars.openTimes, with.line2Time);
              with.drawn.value.volume
                == without.drawn.value.volume + bars.tickVolumes[Min(i1, i2)]
                   + (if i1 != i2 then bars.tickVolumes[Max(i1, i2)] else 0)
  {
    if MinBars <= bars.Count() {
      var current := bars.openTimes[bars.Count() - 1];
      var i1 := BarIndex(bars.openTimes, ClampToPresent(line1Time, current));
      var i2 := BarIndex(bars.openTimes, ClampToPresent(line2Time, current));
      if 0 <= i1 && 0 <= i2 {
        VolumeSumOfEndBars(bars.tickVolumes, Min(i1, i2), Max(i1, i2));
      }
    }
  }

  // ---------------------------------------------------------------------------
  // The indicator object
  // ---------------------------------------------------------------------------

  /** Where Initialize puts a line that does not exist on the chart yet. */
  function InitialLineTime(existing: Option<int>, bars: Bars, defaultIndex: int): (t: int)
    requires existing.None? ==> 0 <= defaultIndex < bars.Count()
    ensures existing.Some? ==> t == existing.value
    ensures existing.None? ==> t == bars.openTimes[defaultIndex]
  {
    match existing
    case Some(lineTime) => lineTime
    case None => bars.openTimes[defaultIndex]
  }

  /** A line created at bar k is found by the bar lookup at bar k or at a later bar that opens no later than it. */
  lemma {:induction false} InitialLineIsFound(existing: Option<int>, bars: Bars, defaultIndex: int)
    requires existing.None? && 0 <= defaultIndex < bars.Count()
    ensures defaultIndex <= BarIndex(bars.openTimes, InitialLineTime(existing, bars, defaultIndex))
  {
    BarIndexIsLastAtOrBefore(bars.openTimes, InitialLineTime(existing, bars, defaultIndex));
  }

  class VolumeBetweenVerticalLines {
    const settings: Settings
    /** The times of the two vertical lines; the user drags them, a refresh may clamp them. */
    var line1Time: int
    var line2Time: int
    /** The volumeLabel currently on the chart, if one has been drawn. */
    var volumeLabel: Option<Label>

    /**
     * Initialize: reuse a line already on the chart or create it (the first six
     * bars back from the current one, the second on the current bar), then refresh.
     */
    constructor Initialize(bars: Bars, settings: Settings, existingLine1: Option<int>, existingLine2: Option<int>)
      requires bars.Valid()
      requires existingLine1.None? || existingLine2.None? ==> 0 < bars.Count()
      ensures this.settings == settings
      ensures var o := Refresh(bars, settings,
                               InitialLineTime(existingLine1, bars, Max(0, bars.Count() - 6)),
                               InitialLineTime(existingLine2, bars, bars.Count() - 1));
              line1Time == o.line1Time && line2Time == o.line2Time && volumeLabel == o.drawn
    {
      this.settings := settings;
      line1Time := InitialLineTime(existingLine1, bars, Max(0, bars.Count() - 6));
      line2Time := InitialLineTime(existingLine2, bars, bars.Count() - 1);
      volumeLabel := None;
      new;
      RefreshVolumeSum(bars);
    }

    /** One refresh: clamp, locate, order, sum, draw. An early exit leaves the label on the chart as it was. */
    method RefreshVolumeSum(bars: Bars)
      requires bars.Valid()
      modifies this
      ensures var o := Refresh(bars, settings, old(line1Time), old(line2Time));
              line1Time == o.line1Time && line2Time == o.line2Time &&
              volumeLabel == (if o.drawn.Some? then o.drawn else old(volumeLabel))
    {
      if bars.Count() < MinBars {
        return;
      }
      var line1 := line1Time;
      var line2 := line2Time;
      var currentBarTime := bars.openTimes[bars.Count() - 1];
      if line1 > currentBarTime {
        line1 := currentBarTime;
        line1Time := currentBarTime;
      }
      if line2 > currentBarTime {
        line2 := currentBarTime;
        line2Time := currentBarTime;
      }
      var line1Index := GetBarIndex(bars.openTimes, line1);
      var line2Index := GetBarIndex(bars.openTimes, line2);
      if line1Index < 0 || line2Index < 0 {
        return;
      }
      var startIndex := Min(line1Index, line2Index);
      var endIndex := Max(line1Index, line2Index);
      if !settings.includeLinesBars {
        startIndex := startIndex + 1;
        endIndex := endIndex - 1;
      }
      var volumeSum := CalculateVolumeSum(bars.tickVolumes, startIndex, endIndex);
      DisplayVolumeSum(volumeSum, line1Index, line2Index);
    }

    /** Replace any label on the chart with one for this volume, placed by the settings. */
    method DisplayVolumeSum(volumeSum: int, line1Index: int, line2Index: int)
      modifies this`volumeLabel
      ensures volumeLabel == Some(PlaceLabel(volumeSum, line1Index, line2Index,
                                       settings.labelPosition, settings.labelOrientation))
    {
      var isLeft := IsLeft(settings.labelPosition);
      var targetIndex := if isLeft then Min(line1Index, line2Index) else Max(line1Index, line2Index);
      volumeLabel := Some(Label(volumeSum, targetIndex, LabelRowFor(settings.labelPosition),
                          HorizontalAlignmentFor(settings.labelPosition, settings.labelOrientation),
                          VerticalAlignmentFor(settings.labelPosition)));
    }

    /** The per-bar callback refreshes only on the last bar. */
    method Calculate(bars: Bars, isLastBar: bool)
      requires bars.Valid()
      modifies this
      ensures var o := Refresh(bars, settings, old(line1Time), old(line2Time));
              if isLastBar then
                line1Time == o.line1Time && line2Time == o.line2Time &&
                volumeLabel == (if o.drawn.Some? then o.drawn else old(volumeLabel))
              else
                line1Time == old(line1Time) && line2Time == old(line2Time) && volumeLabel == old(volumeLabel)
    {
      if !isLastBar {
        return;
      }
      RefreshVolumeSum(bars);
    }

    /** A chart object changed (typically a line was dragged): refresh. */
    method OnChartObjectsUpdated(bars: Bars)
      requires bars.Valid()
      modifies this
      ensures var o := Refresh(bars, settings, old(line1Time), old(line2Time));
              line1Time == o.line1Time && line2Time == o.line2Time &&
              volumeLabel == (if o.drawn.Some? then o.drawn else old(volumeLabel))
    {
      RefreshVolumeSum(bars);
    }

    /** The chart was zoomed or scrolled: refresh. */
    method OnChartChanged(bars: Bars)
      requires bars.Valid()
      modifies this
      ensures var o := Refresh(bars, settings, old(line1Time), old(line2Time));
              line1Time == o.line1Time && line2Time == o.line2Time &&
              volumeLabel == (if o.drawn.Some? then o.drawn else old(volumeLabel))
    {
      RefreshVolumeSum(bars);
    }
  }
}
