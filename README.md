# Volume Between Vertical Lines — Dafny model

The repository is a cTrader chart indicator. It sums the tick volume of the
bars between two vertical lines that the user can drag. It then shows that sum
as a text label next to one of the lines. This project models the integer core
under the host API calls:

- **Bar lookup** (`GetBarIndex`). A backward scan over the bars' open times
  gives the last bar that opens at or before a given time, or -1.
- **Range sum** (`CalculateVolumeSum`). An accumulating loop sums the tick
  volumes of an inclusive index range. An empty range gives 0.
- **Refresh** (`RefreshVolumeSum`). The steps, in order:
  - with fewer than three bars, stop;
  - clamp lines that lie in the future to the current bar's open time, and
    store the clamped time back on the line;
  - look up both lines' bars, and stop if either has none;
  - order the two indices;
  - optionally drop the two line bars from the range;
  - sum that range;
  - draw the label.
- **Label placement** (`DisplayVolumeSum`, `DrawLabelNearLine`, `GetLabelPrice`).
  This picks the line the label sits next to (leftmost or rightmost), the label's
  horizontal and vertical alignment, and its height (top, middle or bottom of
  the chart).

Modules:

- `IntMath`: `Math.Min` and `Math.Max`.
- `BarSeries`: the bars, the lookup and the range sum. Each is a method with a
  loop, proved against a specification function.
- `LabelPlacement`: the position and orientation enums and the placement rules,
  as functions.
- `VolumeIndicator`: `Refresh`, the whole refresh as a function, with its
  properties as lemmas. It also holds the class `VolumeBetweenVerticalLines`.
  The class keeps the two line times and the label currently on the chart. Its
  methods change these fields step by step, as the source does. The constructor
  and the callback methods have an `ensures` that ties the new fields to
  `Refresh` applied to the old ones. `DisplayVolumeSum` replaces the label with
  the one `PlaceLabel` describes.

Times are integers (host clock ticks). Tick volumes are non-negative integers.
The host's bars arrive as a parameter of every callback, because the host owns
them and they can change between callbacks.

## Model

| member | source | states |
|---|---|---|
| `BarSeries.BarIndex` | VolumeBetweenVerticalLines.cs:188-196 | the bar lookup as a function; its result is always in [-1, Count-1] |
| `BarSeries.BarIndexIsLastAtOrBefore` | VolumeBetweenVerticalLines.cs:188-196 | a found bar opens at or before the time, and every later bar opens after it: the result is the greatest such index |
| `BarSeries.BarIndexMissing` | VolumeBetweenVerticalLines.cs:195 | -1 is returned exactly when every bar opens after the time (both directions) |
| `BarSeries.BarIndexMonotonic` | VolumeBetweenVerticalLines.cs:188-196 | a later time never maps to an earlier bar |
| `BarSeries.BarIndexInAscendingBars` | VolumeBetweenVerticalLines.cs:188-196 | on bars in time order, the found bar is the one whose span contains the time |
| `BarSeries.GetBarIndex` | VolumeBetweenVerticalLines.cs:188-196 | the backward loop with early return computes `BarIndex`: the last bar at or before the time, and no later bar qualifies |
| `BarSeries.VolumeSum` | VolumeBetweenVerticalLines.cs:198-211 | the inclusive range sum of non-negative volumes is non-negative; an empty range sums to 0 |
| `BarSeries.VolumeSumFirst` | VolumeBetweenVerticalLines.cs:205-208 | the first bar of a non-empty range can be split off the sum |
| `BarSeries.VolumeSumOfEndBars` | VolumeBetweenVerticalLines.cs:164-168 | [lo, hi] sums to [lo+1, hi-1] plus the two end bars' volumes, counted once when they are the same bar |
| `BarSeries.VolumeSumCoversEachBar` | VolumeBetweenVerticalLines.cs:205-208 | each bar of the range is included: its volume is at most the sum |
| `BarSeries.CalculateVolumeSum` | VolumeBetweenVerticalLines.cs:198-211 | the accumulating loop computes `VolumeSum`, and 0 when startIndex > endIndex |
| `LabelPlacement.AnchorIndex` | VolumeBetweenVerticalLines.cs:220-233 | the anchor is one of the two line bars: the leftmost for the three Left positions, the rightmost for the three Right ones |
| `LabelPlacement.HorizontalAlignmentFor` | VolumeBetweenVerticalLines.cs:249-258 | Left alignment exactly when a Left position agrees with Outside (Left+Outside, Right+Inside), Right otherwise |
| `LabelPlacement.OrientationMeaning` | VolumeBetweenVerticalLines.cs:249-258 | with the lines on different bars, the text runs toward the other line exactly when the orientation is Inside |
| `LabelPlacement.VerticalAlignmentFor` | VolumeBetweenVerticalLines.cs:260-275 | Top positions get Bottom, Middle positions Center and Bottom positions Top: the text always runs from the label's row toward the middle of the chart |
| `LabelPlacement.LabelRowFor` | VolumeBetweenVerticalLines.cs:278-299 | the label's height is the top of the chart for the two Top positions, the middle for the two Middle ones and the bottom for the two Bottom ones |
| `LabelPlacement.IsLeft` | VolumeBetweenVerticalLines.cs:221-223 | a position is Left exactly when it is not one of the three Right positions |
| `IntMath.Min` | VolumeBetweenVerticalLines.cs:161 | the minimum is one of the two arguments and no greater than either |
| `IntMath.Max` | VolumeBetweenVerticalLines.cs:162 | the maximum is one of the two arguments and no smaller than either |
| `LabelPlacement.PositionIsSideAndRow` | VolumeBetweenVerticalLines.cs:17-25 | each of the six positions is exactly one side (left/right) combined with one row (top/middle/bottom) |
| `LabelPlacement.PlaceLabel` | VolumeBetweenVerticalLines.cs:213-275 | the drawn label has the given volume and sits on the correct line bar. It carries the horizontal alignment rule, the row named by the position, and the vertical alignment that points from that row toward the chart's middle |
| `VolumeIndicator.ClampToPresent` | VolumeBetweenVerticalLines.cs:140-151 | a clamped time is never after the current bar, and a time that already was not after it is unchanged |
| `VolumeIndicator.SummedRange` | VolumeBetweenVerticalLines.cs:160-168 | the summed range contains exactly the bars between the two line bars, with the line bars when IncludeLinesBars is set and without them otherwise; a non-empty range lies inside [min, max] |
| `VolumeIndicator.SummedRangeSymmetric` | VolumeBetweenVerticalLines.cs:161-162 | swapping the two line bars gives the same start and end index |
| `VolumeIndicator.Refresh` | VolumeBetweenVerticalLines.cs:128-175 | any label drawn shows a non-negative volume and sits on an existing bar |
| `VolumeIndicator.RefreshWithTooFewBars` | VolumeBetweenVerticalLines.cs:130-131 | with fewer than 3 bars no line moves and nothing is drawn |
| `VolumeIndicator.RefreshKeepsLinesInThePast` | VolumeBetweenVerticalLines.cs:140-151 | afterwards both stored line times are at or before the current bar's open time, and a line that already was keeps its time |
| `VolumeIndicator.RefreshDrawsIffBothLinesHaveBars` | VolumeBetweenVerticalLines.cs:153-158 | a label is drawn exactly when each original line time has a bar opening at or before it |
| `VolumeIndicator.RefreshIndependentOfLineOrder` | VolumeBetweenVerticalLines.cs:160-162 | swapping the two lines swaps the stored times and draws the identical label, so the volume, anchor and alignments are the same |
| `VolumeIndicator.RefreshExcludingAdjacentLineBars` | VolumeBetweenVerticalLines.cs:164-168 | without the line bars, lines on the same or adjacent bars give a sum of 0 |
| `VolumeIndicator.RefreshIncludingLineBars` | VolumeBetweenVerticalLines.cs:164-171 | setting IncludeLinesBars does not change whether a label is drawn, and adds exactly the line bars' volumes to the sum |
| `VolumeIndicator.InitialLineIsFound` | VolumeBetweenVerticalLines.cs:83-97 | a line created at bar k is found by the bar lookup at bar k or a later bar |
| `VolumeIndicator.VolumeBetweenVerticalLines.Initialize` | VolumeBetweenVerticalLines.cs:81-105 | first line at bar max(0, Count-6) and second at bar Count-1 unless they already exist, then one refresh |
| `VolumeIndicator.VolumeBetweenVerticalLines.RefreshVolumeSum` | VolumeBetweenVerticalLines.cs:128-175 | the step-by-step refresh leaves the line times and label that `Refresh` describes; an early exit keeps the previous label |
| `VolumeIndicator.VolumeBetweenVerticalLines.DisplayVolumeSum` | VolumeBetweenVerticalLines.cs:213-276 | the label on the chart is replaced by the one `PlaceLabel` describes |
| `VolumeIndicator.VolumeBetweenVerticalLines.Calculate` | VolumeBetweenVerticalLines.cs:107-111 | refreshes on the last bar and changes nothing otherwise |
| `VolumeIndicator.VolumeBetweenVerticalLines.OnChartObjectsUpdated` | VolumeBetweenVerticalLines.cs:113-116 | a chart object update performs one refresh |
| `VolumeIndicator.VolumeBetweenVerticalLines.OnChartChanged` | VolumeBetweenVerticalLines.cs:118-126 | a scroll or a zoom performs one refresh; the two C# overloads are one method here |

## Left out

- Chart object lookup, creation and removal (`Chart.FindObject`, `DrawVerticalLine`, `DrawText`, `RemoveObject`) are host calls. Whether a line already exists is a parameter of `Initialize`. Drawing a label is an assignment to the `volumeLabel` field.
- Event subscription (`Chart.ObjectsUpdated`, `ZoomChanged`, `ScrollChanged`) is host wiring. Each handler is modelled only as "performs one refresh". `IsLastBar` is a parameter of `Calculate`.
- `UpdateLineProperties` and the font, colour, style, thickness and `IsInteractive` assignments only copy parameters to host objects.
- The label's price (`Chart.TopY`, `Chart.BottomY` and their average) is floating point. Only the choice of top, middle or bottom is modelled (`LabelRowFor`). The `default` branch of `GetLabelPrice` cannot be reached with a six-value enum, so it has no counterpart.
- The label text (`ToString("N0")`) is culture-dependent formatting. The label holds the integer volume instead.
- The `(long)` cast of the host's double tick volumes is not modelled: volumes are non-negative integers.
- CalculateVolumeSum: does not model 64-bit wrap-around of the `long` sum, because a realistic tick-volume total stays many orders of magnitude below 2^63.
- GetBarIndex: indices are unbounded integers rather than 32-bit `int`, because a bar count near 2^31 is unrealistic.
- The meaning of the host's alignment values is assumed: an alignment names the side of the anchor on which the text is drawn. `OrientationMeaning` and the `ensures` of `VerticalAlignmentFor` rest on that reading.
- Initialize: assumes the host supplies at least one bar whenever a line has to be created. The source reads `Bars.OpenTimes[Math.Max(0, Count-6)]` and `Bars.OpenTimes[Count-1]` without a guard. On an empty series that asks the host for indices 0 and -1, and what the host returns then is not modelled.
- A label left on the chart by an earlier run of the indicator is not modelled. `Initialize` starts with no label.
