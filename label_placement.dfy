/**
 * Where the volume label goes: which line it sits next to, on which side
 * of that line its text is drawn, and at which height of the chart.
 */
module LabelPlacement {
  import opened IntMath

  /** The user's "Label Position" setting. */
  datatype LabelPosition = RightTop | RightMiddle | RightBottom | LeftTop | LeftMiddle | LeftBottom

  /** The user's "Label Orientation" setting: text outside or inside the span between the lines. */
  datatype LabelOrientation = Outside | Inside

  /** The host's text alignments used by the label; each names the side of the anchor the text lies on. */
  datatype HorizontalAlignment = Left | Right
  datatype VerticalAlignment = Top | Center | Bottom

  /** Which price the label is anchored at: the top, the middle or the bottom of the visible chart. */
  datatype LabelRow = ChartTop | ChartMiddle | ChartBottom

  /** The label as drawn: the volume it shows, the bar it is anchored at, its height and alignments. */
  datatype Label = Label(volume: int, anchorIndex: int, row: LabelRow,
                         horizontal: HorizontalAlignment, vertical: VerticalAlignment)

  /** The three Left positions; every other position is one of the three Right ones. */
  predicate IsLeft(position: LabelPosition)
    ensures IsLeft(position) <==> !(position.RightTop? || position.RightMiddle? || position.RightBottom?)
  {
    position.LeftTop? || position.LeftMiddle? || position.LeftBottom?
  }

  /** The label sits next to the leftmost line for Left positions and the rightmost for Right ones. */
  function AnchorIndex(position: LabelPosition, line1Index: int, line2Index: int): (r: int)
    ensures r == line1Index || r == line2Index
    ensures IsLeft(position) ==> r <= line1Index && r <= line2Index
    ensures !IsLeft(position) ==> line1Index <= r && line2Index <= r
  {
    if IsLeft(position) then Min(line1Index, line2Index) else Max(line1Index, line2Index)
  }

  /** Left is chosen exactly when "left of the lines" and "outside" agree. */
  function HorizontalAlignmentFor(position: LabelPosition, orientation: LabelOrientation): (h: HorizontalAlignment)
    ensures h == Left <==> (IsLeft(position) <==> orientation == Outside)
  {
    if IsLeft(position) then
      (if orientation == Outside then Left else Right)
    else
      (if orientation == Outside then Right else Left)
  }

  /** The vertical alignment always makes the text run from its row toward the middle of the chart, so it stays in view. */
  function VerticalAlignmentFor(position: LabelPosition): (v: VerticalAlignment)
    ensures VerticalDirection(v) == -RowLevel(LabelRowFor(position))
  {
    match position
    case LeftTop | RightTop => Bottom
    case LeftMiddle | RightMiddle => Center
    case LeftBottom | RightBottom => Top
  }

  /** GetLabelPrice's choice of height: the top, middle or bottom of the chart as the position's name says. */
  function LabelRowFor(position: LabelPosition): (row: LabelRow)
    ensures RowLevel(row) == if position.LeftTop? || position.RightTop? then 1
                             else if position.LeftMiddle? || position.RightMiddle? then 0
                             else -1
  {
    match position
    case LeftTop | RightTop => ChartTop
    case LeftMiddle | RightMiddle => ChartMiddle
    case LeftBottom | RightBottom => ChartBottom
  }

  /** The bar direction in which the text runs from its anchor: -1 toward older bars, +1 toward newer ones. */
  function HorizontalDirection(h: HorizontalAlignment): int {
    match h
    case Left => -1
    case Right => 1
  }

  /** The direction in which the text runs from its anchor: +1 up, 0 centred, -1 down. */
  function VerticalDirection(v: VerticalAlignment): int {
    match v
    case Top => 1
    case Center => 0
    case Bottom => -1
  }

  /** The height of a row relative to the middle of the chart. */
  function RowLevel(row: LabelRow): int {
    match row
    case ChartTop => 1
    case ChartMiddle => 0
    case ChartBottom => -1
  }

  /** The two positions' halves: each position is one side combined with one row. */
  lemma PositionIsSideAndRow(p: LabelPosition, q: LabelPosition)
    ensures p == q <==> IsLeft(p) == IsLeft(q) && LabelRowFor(p) == LabelRowFor(q)
  {
  }

  /**
   * Orientation means what it says: with the lines on different bars, the
   * text runs toward the other line exactly when the orientation is Inside.
   */
  lemma OrientationMeaning(position: LabelPosition, orientation: LabelOrientation, line1Index: int, line2Index: int)
    requires line1Index != line2Index
    ensures var anchor := AnchorIndex(position, line1Index, line2Index);
            var other := if anchor == line1Index then line2Index else line1Index;
            var dir := HorizontalDirection(HorizontalAlignmentFor(position, orientation));
            orientation == Inside <==> 0 < dir * (other - anchor)
  {
  }

  /** DisplayVolumeSum and DrawLabelNearLine together: the label for a volume between two line bars. */
  function PlaceLabel(volume: int, line1Index: int, line2Index: int,
                      position: LabelPosition, orientation: LabelOrientation): (l: Label)
    ensures l.volume == volume
    ensures l.anchorIndex == line1Index || l.anchorIndex == line2Index
    ensures IsLeft(position) ==> l.anchorIndex <= line1Index && l.anchorIndex <= line2Index
    ensures !IsLeft(position) ==> line1Index <= l.anchorIndex && line2Index <= l.anchorIndex
    ensures (l.horizontal == Left) <==> (IsLeft(position) <==> orientation == Outside)
    ensures RowLevel(l.row) == if position.LeftTop? || position.RightTop? then 1
                               else if position.LeftMiddle? || position.RightMiddle? then 0
                               else -1
    ensures VerticalDirection(l.vertical) == -RowLevel(l.row)
  {
    Label(volume, AnchorIndex(position, line1Index, line2Index), LabelRowFor(position),
          HorizontalAlignmentFor(position, orientation), VerticalAlignmentFor(position))
  }
}
