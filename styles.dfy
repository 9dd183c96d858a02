/**
 * The style helpers whose output depends on their arguments: the win/loss
 * colour bands, the stacked chart bars, the card's placement and
 * visibility, and the outlier list items. Only the properties that vary are
 * modelled.
 */
module Styles {
  import opened Opportunities
  import opened MapView

  /** `copilotColors`. */
  const CopilotColors: Palette := Palette("#0078D4", "#00BCF2", "#8661C5", "#5C2D91", "#107C10")

  /** The win/loss colour band: green from 70, blue from 50, purple below. */
  function RatioColor(ratio: real): (c: string)
    ensures c == CopilotColors.green <==> ratio >= 70.0
    ensures c == CopilotColors.blue <==> 50.0 <= ratio < 70.0
    ensures c == CopilotColors.purple <==> ratio < 50.0
  {
    if ratio >= 70.0 then CopilotColors.green
    else if ratio >= 50.0 then CopilotColors.blue
    else CopilotColors.purple
  }

  /** The varying part of `getWinLossBarStyles`: the width in percent and the colour. */
  datatype WinLossBarStyle = WinLossBarStyle(widthPercent: real, backgroundColor: string)

  /** `getWinLossBarStyles`: a bar `ratio`% wide in the ratio's colour band. */
  function GetWinLossBarStyles(ratio: real): (s: WinLossBarStyle)
    ensures s.widthPercent == ratio
    ensures s.backgroundColor == CopilotColors.green <==> ratio >= 70.0
    ensures s.backgroundColor == CopilotColors.blue <==> 50.0 <= ratio < 70.0
    ensures s.backgroundColor == CopilotColors.purple <==> ratio < 50.0
  {
    WinLossBarStyle(ratio, RatioColor(ratio))
  }

  /** `getCircularProgressStyles`: the colour of the ring's top border. */
  function GetCircularProgressStyles(ratio: real): (borderTopColor: string)
    ensures borderTopColor == GetWinLossBarStyles(ratio).backgroundColor
  {
    RatioColor(ratio)
  }

  /** The varying part of `getStackedBarStyles`. */
  datatype StackedBarStyle = StackedBarStyle(heightPercent: real, minHeight: string, backgroundColor: string, boxShadow: string)

  /** `getStackedBarStyles`: a non-empty bar is at least 2px tall; a hovered bar casts a shadow. */
  function GetStackedBarStyles(heightPercent: real, color: string, isHovered: bool): (s: StackedBarStyle)
    ensures s.heightPercent == heightPercent && s.backgroundColor == color
    ensures s.minHeight == "2px" <==> heightPercent > 0.0
    ensures heightPercent <= 0.0 ==> s.minHeight == "0"
    ensures s.boxShadow != "none" <==> isHovered
  {
    StackedBarStyle(heightPercent,
                    if heightPercent > 0.0 then "2px" else "0",
                    color,
                    if isHovered then "0 0 8px rgba(0, 0, 0, 0.3)" else "none")
  }

  /** The varying part of `getCardStyle`. */
  datatype CardStyle = CardStyle(left: real, top: real, display: string)

  /** `getCardStyle`: the card at its position, displayed exactly when visible. */
  function GetCardStyle(position: Point, isVisible: bool): (s: CardStyle)
    ensures s.left == position.x && s.top == position.y
    ensures s.display == "block" <==> isVisible
    ensures s.display == "none" <==> !isVisible
  {
    CardStyle(position.x, position.y, if isVisible then "block" else "none")
  }

  /** `outlierIndicatorStyles`: orange for a low confidence, red otherwise. */
  function OutlierIndicatorColor(isLow: bool): (c: string)
    ensures c == "orange" <==> isLow
    ensures c == "red" <==> !isLow
  {
    if isLow then "orange" else "red"
  }

  /** The varying part of `outlierItemStyles`. */
  datatype OutlierItemStyle = OutlierItemStyle(marginBottom: string, borderBottom: string)

  /** `outlierItemStyles`: only the last item has no bottom margin and no separator line. */
  function OutlierItemStyles(isLast: bool): (s: OutlierItemStyle)
    ensures s.marginBottom == "0" <==> isLast
    ensures s.borderBottom == "none" <==> isLast
  {
    if isLast then OutlierItemStyle("0", "none")
    else OutlierItemStyle("8px", "1px solid rgba(0, 188, 242, 0.2)")
  }

  // ---------------------------------------------------------------------
  // Properties
  // ---------------------------------------------------------------------

  /** The indicator of an outlier is orange exactly when its confidence is below 50. */
  lemma IndicatorFollowsConfidence(c: real)
    ensures OutlierIndicatorColor(OutlierConfidenceLevel(c).isLow) == "orange" <==> c < 50.0
  {
    var level := OutlierConfidenceLevel(c);
    assert level.isLow <==> c < 50.0;
  }
}
