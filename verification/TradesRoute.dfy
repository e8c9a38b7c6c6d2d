/**
 * The POST handler of the trades route (src/app/api/trades/route.ts): checks
 * the price and company of the request, looks up yesterday's CompanyLevels
 * record, and saves one Trade with its levels and zone message.
 *
 * The record lookup and the clock are parameters; the saved trades are the
 * store of the position model.
 */
module TradesRoute {
  import opened Js
  import opened Cpr
  import opened TradeModel
  import opened Positions

  const PriceRequired := "Current price is required."
  const CompanyRequired := "Company name is required."

  /**
   * The `error.message` of the TypeError thrown when the handler destructures
   * the null record; the wording is the V8 engine's.
   */
  const NullRecordError := "Cannot destructure property 'high' of 'historicalData' as it is null."

  /**
   * validateTradeInput: falsy tests, so a price of 0 or an empty company counts
   * as missing. No errors means `null`; otherwise the errors, price first.
   */
  method ValidateTradeInput(price: JsValue, company: JsValue) returns (errors: Option<seq<string>>)
    ensures errors.None? <==> Truthy(price) && Truthy(company)
    ensures errors.Some? ==> |errors.value| == (if Truthy(price) then 0 else 1) + (if Truthy(company) then 0 else 1)
    ensures errors.Some? ==> (PriceRequired in errors.value <==> !Truthy(price))
    ensures errors.Some? ==> (CompanyRequired in errors.value <==> !Truthy(company))
    ensures errors.Some? && !Truthy(price) ==> errors.value[0] == PriceRequired
  {
    var list: seq<string> := [];
    if !Truthy(price) {
      list := list + [PriceRequired];
    }
    if !Truthy(company) {
      list := list + [CompanyRequired];
    }
    errors := if |list| > 0 then Some(list) else None;
  }

  /** The request's price and company as JSON values: absent is `undefined`. */
  function PriceValue(price: Option<real>): JsValue {
    if price.Some? then Num(price.value) else Undefined
  }

  function CompanyValue(company: Option<string>): JsValue {
    if company.Some? then Str(company.value) else Undefined
  }

  /** The JSON reply: status, success flag and the error text when there is one. */
  datatype Reply = Reply(status: int, success: bool, error: Option<string>)

  /**
   * The success path: a new trade from yesterday's bar and the price, its levels
   * and zone message computed, then saved.
   */
  method CreateTrade(store: TradeStore, bar: Bar, price: real, company: string, now: int)
    modifies store`saved
    ensures var lv := CprLevels(bar.high, bar.low, bar.close, 2);
      store.saved == old(store.saved) + [SavedTrade(company, price, lv, now, Message(ZoneOf(price, lv)), None, None)]
  {
    var bufferValue := BufferValue(bar.high, bar.low);
    var trade := new Trade(bar.high, bar.low, bar.close, price, company);
    var levels := trade.CalculateLevels();
    var signal := trade.GenerateSignal(bufferValue);
    store.Save(SavedTrade(trade.company, trade.price, trade.levels, now, trade.signal, None, None));
  }

  /**
   * POST. Invalid input: 400 with the errors joined by ", " and nothing saved.
   * No record for yesterday: destructuring null throws, 500 with the
   * TypeError's message, nothing saved.
   * Otherwise exactly one trade is saved, with no check against earlier trades:
   * yesterday's levels and the zone message of the price, whatever buffer the
   * handler passes to generateSignal.
   */
  method PostTrade(store: TradeStore, price: Option<real>, company: Option<string>,
                   yesterday: Option<Bar>, now: int) returns (reply: Reply)
    modifies store`saved
    ensures !(Truthy(PriceValue(price)) && Truthy(CompanyValue(company))) ==>
      && reply.status == 400 && !reply.success && reply.error.Some?
      && store.saved == old(store.saved)
    ensures reply.status == 400 ==>
      reply.error == Some(Join((if price.None? || price.value == 0.0 then [PriceRequired] else [])
                             + (if company.None? || company.value == "" then [CompanyRequired] else []), ", "))
    ensures reply.status == 500 ==> yesterday.None? && store.saved == old(store.saved)
    ensures reply.status == 201 ==>
      && price.Some? && company.Some? && yesterday.Some?
      && var lv := CprLevels(yesterday.value.high, yesterday.value.low, yesterday.value.close, 2);
         store.saved == old(store.saved) + [SavedTrade(company.value, price.value, lv, now,
                                                       Message(ZoneOf(price.value, lv)), None, None)]
    ensures Truthy(PriceValue(price)) && Truthy(CompanyValue(company)) ==>
      reply.status == (if yesterday.Some? then 201 else 500)
    ensures reply.status == 500 ==> reply.error == Some(NullRecordError)
    ensures reply.status in {400, 500, 201}
    ensures reply.status == 201 <==> reply.success
  {
    var errors := ValidateTradeInput(PriceValue(price), CompanyValue(company));
    if errors.Some? {
      assert errors.value == (if price.None? || price.value == 0.0 then [PriceRequired] else [])
                           + (if company.None? || company.value == "" then [CompanyRequired] else []) by {
        if price.None? || price.value == 0.0 {
          assert errors.value[0] == PriceRequired;
        }
      }
      return Reply(400, false, Some(Join(errors.value, ", ")));
    }
    if yesterday.None? {
      return Reply(500, false, Some(NullRecordError));
    }
    CreateTrade(store, yesterday.value, price.value, company.value, now);
    reply := Reply(201, true, None);
  }
}
