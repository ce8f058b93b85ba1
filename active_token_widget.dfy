/**
 * The home-screen card for the active booking: tokens ahead, a clamped
 * progress ratio, an estimate in minutes and a one-line status message.
 */
module ActiveTokenWidget {
  import opened Wrappers
  import opened JsMath
  import opened QueueContext
  import ActiveToken

  /** Minutes per token used when the booking's average wait is 0. */
  const DefaultAvgWait: int := 5
  /** Below this many minutes the card says the turn is close. */
  const AlmostThreshold: int := 15

  /** `tokenNumber - servingToken`, not clamped: the live screen's people ahead. */
  function TokensAhead(b: ActiveBooking): (n: int)
    ensures n == ActiveToken.PeopleBefore(b)
    ensures n > 0 <==> b.servingToken < b.tokenNumber
  {
    b.tokenNumber - b.servingToken
  }

  /**
   * `max(0, min(1, servingToken / tokenNumber))`. Dividing a non-zero
   * token by 0 gives an infinity, which the clamps turn into 1 or 0; 0/0 is
   * not a number and is excluded.
   */
  function WidgetProgress(servingToken: int, tokenNumber: int): (p: real)
    requires servingToken != 0 || tokenNumber != 0
    ensures 0.0 <= p <= 1.0
    ensures tokenNumber > 0 && servingToken >= tokenNumber ==> p == 1.0
    ensures tokenNumber > 0 && 0 <= servingToken <= tokenNumber ==> p == servingToken as real / tokenNumber as real
  {
    if tokenNumber == 0 then
      if servingToken > 0 then 1.0 else 0.0
    else
      MaxReal(0.0, MinReal(1.0, servingToken as real / tokenNumber as real))
  }

  /** `tokensAhead * (avgWaitTime || 5)`. */
  function EstimatedMins(tokensAhead: int, avgWaitTime: int): (m: int)
    ensures avgWaitTime != 0 ==> m == tokensAhead * avgWaitTime
    ensures avgWaitTime == 0 ==> m == tokensAhead * DefaultAvgWait
  {
    tokensAhead * (if avgWaitTime != 0 then avgWaitTime else DefaultAvgWait)
  }

  datatype StatusLine = AlmostYourTurn | MinsToGo(mins: int)

  function Status(estimatedMins: int): (l: StatusLine)
    ensures l == AlmostYourTurn <==> estimatedMins < AlmostThreshold
    ensures l.MinsToGo? ==> l.mins == estimatedMins
  {
    if estimatedMins < AlmostThreshold then AlmostYourTurn else MinsToGo(estimatedMins)
  }

  datatype WidgetView = WidgetView(tokenNumber: int, servingToken: int, tokensAhead: int,
                                   progress: real, estimatedMins: int, status: StatusLine, clinicName: string)

  /** The card, or nothing when there is no active booking. */
  function Widget(activeBooking: Option<ActiveBooking>): (v: Option<WidgetView>)
    requires activeBooking.Some? ==> activeBooking.value.servingToken != 0 || activeBooking.value.tokenNumber != 0
    ensures v.None? <==> activeBooking.None?
    ensures v.Some? ==>
      && v.value.tokensAhead == activeBooking.value.tokenNumber - activeBooking.value.servingToken
      && v.value.tokenNumber == activeBooking.value.tokenNumber
      && v.value.servingToken == activeBooking.value.servingToken
      && v.value.clinicName == activeBooking.value.clinicName
      && v.value.progress == WidgetProgress(activeBooking.value.servingToken, activeBooking.value.tokenNumber)
      && 0.0 <= v.value.progress <= 1.0
      && v.value.estimatedMins == EstimatedMins(v.value.tokensAhead, activeBooking.value.avgWaitTime)
      && v.value.status == Status(v.value.estimatedMins)
      && (v.value.status == AlmostYourTurn <==> v.value.estimatedMins < 15)
  {
    match activeBooking
    case None => None
    case Some(b) =>
      var ahead := TokensAhead(b);
      var mins := EstimatedMins(ahead, b.avgWaitTime);
      Some(WidgetView(b.tokenNumber, b.servingToken, ahead,
                      WidgetProgress(b.servingToken, b.tokenNumber), mins, Status(mins), b.clinicName))
  }

  /** For a positive token and a non-negative served token, the card's progress is the live screen's. */
  lemma ProgressAgreesWithActiveToken(servingToken: int, tokenNumber: int)
    requires tokenNumber > 0 && servingToken >= 0
    ensures WidgetProgress(servingToken, tokenNumber) == ActiveToken.Progress(tokenNumber, servingToken)
  {
  }

  /** With a non-zero average wait, the card's estimate is the live screen's total wait. */
  lemma EstimateAgreesWithTotalWait(b: ActiveBooking)
    requires b.avgWaitTime != 0
    ensures EstimatedMins(TokensAhead(b), b.avgWaitTime) == ActiveToken.TotalWait(b)
  {
  }
}
