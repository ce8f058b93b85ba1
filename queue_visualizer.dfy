/**
 * The queue bar component: a clamped progress ratio and a clamped count
 * of people ahead, in a compact and a full layout.
 */
module QueueVisualizer {
  import opened JsMath
  import opened QueueContext
  import ActiveTokenWidget

  /**
   * `min(1, max(0, serving / userToken))`, with the same treatment of a
   * zero `userToken` as the home card.
   */
  function VisualizerProgress(serving: int, userToken: int): (p: real)
    requires serving != 0 || userToken != 0
    ensures 0.0 <= p <= 1.0
  {
    if userToken == 0 then
      if serving > 0 then 1.0 else 0.0
    else
      MinReal(1.0, MaxReal(0.0, serving as real / userToken as real))
  }

  /** `max(0, userToken - serving)`. */
  function Ahead(serving: int, userToken: int): (a: int)
    ensures a >= 0
    ensures a == 0 <==> serving >= userToken
    ensures serving <= userToken ==> a == userToken - serving
  {
    Max(0, userToken - serving)
  }

  datatype View =
    | Compact(progress: real, ahead: int)
    | Full(progress: real, serving: int, userToken: int, estimatedWait: int)

  /** The rendered component; `total` is accepted and not used. */
  function Render(total: int, serving: int, userToken: int, estimatedWait: int, compact: bool): (v: View)
    requires serving != 0 || userToken != 0
    ensures v.Compact? <==> compact
    ensures v.progress == VisualizerProgress(serving, userToken)
    ensures 0.0 <= v.progress <= 1.0
    ensures v.Compact? ==> v.ahead == Ahead(serving, userToken)
    ensures v.Compact? ==> v.ahead >= 0 && (v.ahead == 0 <==> serving >= userToken)
    ensures v.Full? ==> v.serving == serving && v.userToken == userToken && v.estimatedWait == estimatedWait
  {
    var progress := VisualizerProgress(serving, userToken);
    if compact then Compact(progress, Ahead(serving, userToken))
    else Full(progress, serving, userToken, estimatedWait)
  }

  /** Both layouts show the same progress. */
  lemma LayoutsShareProgress(total: int, serving: int, userToken: int, estimatedWait: int)
    requires serving != 0 || userToken != 0
    ensures Render(total, serving, userToken, estimatedWait, true).progress
         == Render(total, serving, userToken, estimatedWait, false).progress
  {
  }

  /** The two clamps are applied in the other order than on the home card, with the same result. */
  lemma ProgressAgreesWithWidget(serving: int, userToken: int)
    requires serving != 0 || userToken != 0
    ensures VisualizerProgress(serving, userToken) == ActiveTokenWidget.WidgetProgress(serving, userToken)
  {
  }

  /** Until the served token passes the user's, the clamped count is the card's raw count. */
  lemma AheadAgreesWithWidget(b: ActiveBooking)
    requires b.servingToken <= b.tokenNumber
    ensures Ahead(b.servingToken, b.tokenNumber) == ActiveTokenWidget.TokensAhead(b)
  {
  }
}
