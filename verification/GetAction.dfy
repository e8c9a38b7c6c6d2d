/**
 * The get-action route (src/app/api/trading/get-action/route.ts): computes the
 * CPR levels of a posted bar at three decimals and a coarse action for the
 * current price, relative to the central range only.
 *
 * Request fields are modelled as present numbers or `None` for `undefined`;
 * the message table (src/data/messages.ts) has no SELL_OFF entry, so the
 * sell-off message is `undefined`, modelled as `None`.
 */
module GetAction {
  import opened Js
  import opened Decimal
  import opened Cpr

  /**
   * TradingService.CalculatePoints: the levels rounded to three decimals, with
   * tc written as pivot − bc + pivot. It agrees with the reference calculator.
   */
  function CalculatePoints(high: real, low: real, close: real): (lv: Levels)
    ensures lv == CprLevels(high, low, close, 3)
  {
    var pivot := ToFixed((high + low + close) / 3.0, 3);
    var bc := ToFixed((high + low) / 2.0, 3);
    var tc := ToFixed(pivot - bc + pivot, 3);
    var r1 := ToFixed(2.0 * pivot - low, 3);
    var r2 := ToFixed(pivot + (high - low), 3);
    var r3 := ToFixed(r1 + (high - low), 3);
    var r4 := ToFixed(r2 + (high - low), 3);
    var s1 := ToFixed(2.0 * pivot - high, 3);
    var s2 := ToFixed(pivot - (high - low), 3);
    var s3 := ToFixed(s1 - (high - low), 3);
    var s4 := ToFixed(s2 - (high - low), 3);
    assert pivot - bc + pivot == pivot + (pivot - bc);
    Levels(pivot, bc, tc, r1, r2, r3, r4, s1, s2, s3, s4)
  }

  /** The branches of DetermineAction, in the order it tests them; NoMatch keeps the empty message. */
  datatype Action = SellOff | CallBuy | AboveTcBy15 | Monitoring | PutBuy | BelowBcBy15 | NoMatch

  const CallBuyText := "Buy Call Signal: The current price has crossed above the Top Center (TC) line, indicating a potential upward trend."
  const MonitoringText := "Monitoring Signal: The current price is positioned between the Bottom Center (BC) and Top Center (TC) lines, suggesting a period of stability. No immediate action is required."
  const PutBuyText := "Buy Put Signal: The current price is below the Bottom Center (BC) line, indicating a potential downward trend."
  const AboveTcText := "Price is above TC + 15. Consider taking action."
  const BelowBcText := "Price is below BC - 15. Consider taking action."
  const MissingFieldsText := "Missing required fields: high, low, close, currentPrice"

  /** The message of each branch; the sell-off entry is missing from the table, hence `None`. */
  function ActionText(a: Action): Option<string> {
    match a
    case SellOff => None
    case CallBuy => Some(CallBuyText)
    case AboveTcBy15 => Some(AboveTcText)
    case Monitoring => Some(MonitoringText)
    case PutBuy => Some(PutBuyText)
    case BelowBcBy15 => Some(BelowBcText)
    case NoMatch => Some("")
  }

  /**
   * TradingService.DetermineAction. The put test is `price <= bc - 15`, which
   * already accepts every price the following `price < bc - 15` test would, so
   * that last branch is dead. `close` is only logged.
   */
  function DetermineAction(price: real, close: real, tc: real, pivot: real, bc: real): (a: Action)
    ensures a != BelowBcBy15
    ensures a == SellOff <==> price <= tc && price < pivot
    ensures a == CallBuy <==> !(price <= tc && price < pivot) && tc < price <= tc + 15.0
    ensures a == AboveTcBy15 <==> !(price <= tc && price < pivot) && price > tc + 15.0
    ensures a == Monitoring <==> pivot <= price && bc <= price <= tc
    ensures a == PutBuy <==> pivot <= price <= tc && price <= bc - 15.0
    ensures a == NoMatch <==> pivot <= price <= tc && bc - 15.0 < price < bc
  {
    if price <= tc && price < pivot then SellOff
    else if price > tc && price <= tc + 15.0 then CallBuy
    else if price > tc + 15.0 then AboveTcBy15
    else if price >= bc && price <= tc then Monitoring
    else if price < bc && price <= bc - 15.0 then PutBuy
    else if price < bc - 15.0 then BelowBcBy15
    else NoMatch
  }

  /**
   * With levels from CalculatePoints only four outcomes remain: a pivot below
   * bc puts tc below the pivot, so every price at or below tc is a sell-off,
   * and otherwise bc <= pivot, so every price from the pivot to tc is inside
   * the range. The put message and the empty message are never returned.
   */
  lemma {:induction false} CalculatedPointsActions(high: real, low: real, close: real, price: real)
    ensures var lv := CalculatePoints(high, low, close);
      var a := DetermineAction(price, close, lv.tc, lv.pivot, lv.bc);
      a == SellOff || a == CallBuy || a == AboveTcBy15 || a == Monitoring
  {
    CentralRangeSymmetric(high, low, close, 3);
  }

  /** The JSON reply: status, success flag, data (`None` for `{}`) and message. */
  datatype Response = Response(status: int, success: bool, data: Option<Levels>, message: Option<string>)

  /**
   * POST: 400 with the fixed message when any of the four fields is undefined
   * (0 is a value like any other); otherwise 200 with the three-decimal levels
   * and the action message, which is never the put message.
   */
  function Post(high: Option<real>, low: Option<real>, close: Option<real>,
                currentPrice: Option<real>): (r: Response)
    ensures r.status == 400 <==> high.None? || low.None? || close.None? || currentPrice.None?
    ensures r.status == 400 ==> r == Response(400, false, None, Some(MissingFieldsText))
    ensures r.status != 400 ==>
      && r.status == 200 && r.success
      && r.data == Some(CprLevels(high.value, low.value, close.value, 3))
      && r.message in {None, Some(CallBuyText), Some(AboveTcText), Some(MonitoringText)}
    ensures r.status == 200 ==>
      r.message == ActionText(DetermineAction(currentPrice.value, close.value,
                                              r.data.value.tc, r.data.value.pivot, r.data.value.bc))
  {
    if high.None? || low.None? || close.None? || currentPrice.None? then
      Response(400, false, None, Some(MissingFieldsText))
    else
      var points := CalculatePoints(high.value, low.value, close.value);
      var action := DetermineAction(currentPrice.value, close.value, points.tc, points.pivot, points.bc);
      CalculatedPointsActions(high.value, low.value, close.value, currentPrice.value);
      Response(200, true, Some(points), ActionText(action))
  }

  /** A price at or below both tc and the pivot gets no message at all. */
  lemma SellOffHasNoMessage(high: real, low: real, close: real, price: real)
    requires var lv := CprLevels(high, low, close, 3); price <= lv.tc && price < lv.pivot
    ensures Post(Some(high), Some(low), Some(close), Some(price)).message.None?
  {
  }
}
