# Trading dashboard decision logic in Dafny

This project models the deterministic core of a Next.js trading dashboard. The
dashboard pulls bars from a broker, keeps a company's reference bar and trades
in MongoDB, and shows signals. The model covers the logic underneath that:

- the CPR (central pivot range) level calculator. It derives pivot, bc, tc,
  r1–r4 and s1–s4 from one high/low/close bar and rounds every intermediate
  value. The code has three copies: `Trade.calculateLevels`, the
  `CompanyLevels` pre-save hook and `TradingService.CalculatePoints`;
- the two first-match classifiers: the zone messages of
  `Trade.generateSignal` and `TradingService.DetermineAction`;
- the Entry/Exit position rule of the redirect route's PATCH handler. For each
  candle it compares the classified signal with the company's last saved trade;
- the Supertrend estimator: true range, ATR, bands, and the trend seed and flip;
- the trades route POST, with `validateTradeInput` and the buffer formula;
- the "DD-MM-YYYY" to "YYYY-MM-DD" date conversion;
- the Entry→Exit pairing and profit/loss of the Excel report, and its
  sheet-name sanitiser;
- the save rules of the `CompanyLevels` and `Supertrend` documents.

Numbers are exact rationals (`real`). `Number(x.toFixed(d))` is
`Decimal.ToFixed`, which rounds to `d` decimals half away from zero.
`Math.round` is `Decimal.MathRound`, which rounds half toward +∞. One reference
calculator, `Cpr.CprLevels(high, low, close, d)`, is proved equal to each of
the three copies.

Modules, one per file:

- `Decimal`, `Js`: rounding, and JavaScript truthiness and `join`.
- `Cpr`: the level calculator.
- `TradeModel`: Trade.ts.
- `CompanyLevelModel`: CompanyLevel.ts.
- `SupertrendDocModel`: Supertrend.ts.
- `GetAction`: the get-action route.
- `Indicators`: the Supertrend functions.
- `Positions`: the PATCH position logic.
- `DateFormat`: the date conversion.
- `TradesRoute`: the trades route.
- `Report`: generate-excel.

Facts about the code worth knowing:

- For the bar 100/80/95, tc, r1 and s1 are 93.34, 103.34 and 83.34, not 93.33,
  103.33 and 83.33. They are built from the already-rounded pivot
  (`Cpr.ReferenceBarLevels`).
- `bc <= pivot <= tc` is not an invariant of the calculator. A close below the
  bar's midpoint puts the pivot below bc (`Cpr.PivotBelowBcWhenCloseIsLow`).
  What always holds is `tc - pivot == pivot - bc` (`Cpr.CentralRangeSymmetric`).
- The outer levels are ordered but not strictly (`Cpr.LevelOrderNotStrict`).
- The Supertrend trend is seeded at index `period - 1`, the first candle with
  an ATR.
- `strings.SELL_OFF` does not exist in the message table, so get-action's
  sell-off message is `undefined` (`None` in the model).
- PATCH reads `{ signal }` from `trade.generateSignal(bufferValue)` and calls
  `trade.exitSignal(...)`. The `generateSignal` in Trade.ts returns a plain
  message string, and Trade.ts defines no `exitSignal`.
  The per-candle classifier and the exit check are therefore parameters
  (`Positions.Rules`) that return a signal in {Buy, Sell, Exit, No Action} and
  a reason.

## Model

| member | source | states |
|---|---|---|
| Decimal.ToFixed | src/modals/Trade.ts:60-72 | `Number(x.toFixed(d))` has at most d decimals and keeps the sign of x |
| Decimal.ToFixedError | src/modals/Trade.ts:60-63 | rounding moves a value by at most half a unit in the last place |
| Decimal.ToFixedMonotone | src/app/api/trading/redirect/route.ts:100-101 | rounding is monotone, so rounded bands keep the order of their unrounded values |
| Decimal.MathRound | src/app/api/trades/route.ts:50 | `Math.round` gives the integer n with x − 0.5 < n ≤ x + 0.5 |
| Decimal.ToFixedNegate | src/modals/Trade.ts:60-72 | `toFixed` of −x is −(`toFixed` of x): negative ties round away from zero, like positive ones |
| Decimal.ToFixedNegativeTie | src/modals/Trade.ts:60-63 | −0.125 to 2 decimals is −0.13 |
| Cpr.CprLevels | src/modals/Trade.ts:59-76 | the reference calculator: every one of the eleven levels has at most d decimals |
| Cpr.PivotAndBcNearExact | src/modals/Trade.ts:60-63 | pivot and bc are within half a unit in the last place of the exact mean (h+l+c)/3 and midpoint (h+l)/2 |
| Cpr.CentralRangeSymmetric | src/modals/Trade.ts:64 | tc − pivot = pivot − bc exactly, so bc ≤ pivot ⇔ pivot ≤ tc |
| Cpr.LevelSpacing | src/modals/Trade.ts:65-72 | for a bar with at most d decimals: r1 = 2·pivot − low, s1 = 2·pivot − high, r3 − r1 = r4 − r2 = s1 − s3 = s2 − s4 = high − low, and r2 + s2 = 2·pivot |
| Cpr.LevelOrder | src/modals/Trade.ts:60-72 | for low ≤ close ≤ high with at most d decimals: s4 ≤ s3 ≤ s2 ≤ s1 ≤ pivot ≤ r1 ≤ r2 ≤ r3 ≤ r4 |
| Cpr.ReferenceBarLevels | src/modals/Trade.ts:59-76 | bar 100/80/95 at 2 dp gives pivot 91.67, bc 90, tc 93.34, r1–r4 103.34/111.67/123.34/131.67, s1–s4 83.34/71.67/63.34/51.67 |
| Cpr.PivotBelowBcWhenCloseIsLow | src/modals/Trade.ts:60-64 | bar 100/80/80 gives pivot 86.67 < bc 90 and tc 83.34, so bc ≤ pivot ≤ tc fails |
| Cpr.LevelOrderNotStrict | src/modals/Trade.ts:60-66 | bar 100/99.99/100 rounds the pivot to 100 and gives r1 = r2 = 100.01 |
| TradeModel.ZoneOf | src/modals/Trade.ts:83-126 | first match wins: "above R4" ⇔ price > r4; a price in (r3 − 15, r3] gets the R3-buffer message, never the R2–R3 one; the fallback is unreachable; sell-off implies price ≤ tc and price < pivot; the put zones need pivot ≤ price < bc |
| TradeModel.Message | src/modals/Trade.ts:86-126 | the message text stored for each zone (the zones themselves are stated by ZoneOf) |
| TradeModel.CalculatedLevelsNeverReachPut | src/modals/Trade.ts:112-126 | with levels from the calculator, the BC-buffer branches and the fallback are never taken |
| TradeModel.RegressionBarAt22000 | src/modals/Trade.ts:59-126 | the bar 21801.45/16828.35/21731.4 with a price of 22000 falls in the "above TC + buffer" zone (tc 20925.9, r1 23412.45) |
| TradeModel.Trade.constructor | src/modals/Trade.ts:31-56 | a new document holds the given bar, price and company, an empty signal and zero levels |
| TradeModel.Trade.CalculateLevels | src/modals/Trade.ts:59-76 | stores the 2-dp levels in `levels` and returns that same value; it equals the reference calculator, so a second call gives identical levels |
| TradeModel.Trade.GenerateSignal | src/modals/Trade.ts:79-130 | stores and returns the zone message of the price against the stored levels; the argument plays no part (the buffer is the constant 15) |
| CompanyLevelModel.MissingPaths | src/modals/CompanyLevel.ts:27-30 | the paths that fail `required`: company when absent or empty, a number only when absent; none missing ⇔ the document is valid |
| CompanyLevelModel.CompanyLevels.PreSave | src/modals/CompanyLevel.ts:49-70 | the hook overwrites `levels` with the 2-dp levels of high/low/close, whatever they held, and writes nothing else |
| CompanyLevelModel.CompanyLevels.Save | src/modals/CompanyLevel.ts:25-70 | validation first: a document missing a required path fails with those paths and keeps its levels; otherwise the hook runs and never aborts, the stored levels equal the reference levels, tc − pivot = pivot − bc, and r2 + s2 = 2·pivot for 2-dp high and low |
| CompanyLevelModel.CompanyLevels.constructor | src/modals/CompanyLevel.ts:25-45 | a new document holds the given company and bar, with every level at its default 0 |
| SupertrendDocModel.ShiftTwice | src/modals/Supertrend.ts:29-33 | shifting twice adds 180000 ms on top of the first shift, so 360000 ms in all for a dated document |
| SupertrendDocModel.ShiftedDate | src/modals/Supertrend.ts:30-31 | the date the hook writes: the existing date, or now, plus 180000 ms (stated by ShiftTwice and Supertrend.PreSave) |
| SupertrendDocModel.InvalidPaths | src/modals/Supertrend.ts:15-27 | the failing paths in schema order; none ⇔ all eight fields present, company non-empty and trend "bullish" or "bearish" |
| SupertrendDocModel.Supertrend.PreSave | src/modals/Supertrend.ts:29-33 | the hook sets `date` to (the date, or now when absent) + 180000 ms and writes nothing else |
| SupertrendDocModel.Supertrend.Save | src/modals/Supertrend.ts:15-33 | an invalid document is refused with its paths and keeps its date; a valid one is saved with its date moved 180000 ms later |
| SupertrendDocModel.Supertrend.constructor | src/modals/Supertrend.ts:15-27 | a new document holds exactly the given eight fields, each present or absent |
| SupertrendDocModel.SaveTwice | src/modals/Supertrend.ts:29-33 | saving a valid document twice moves its date 360000 ms: the hook is not idempotent; an invalid document fails both saves and keeps its date; nothing but the date is ever written |
| GetAction.CalculatePoints | src/app/api/trading/get-action/route.ts:24-54 | the 3-dp levels, with tc written as pivot − bc + pivot, equal the reference calculator at 3 decimals |
| GetAction.DetermineAction | src/app/api/trading/get-action/route.ts:56-80 | each branch holds exactly when its test is the first to pass: sell-off ⇔ price ≤ tc ∧ price < pivot; call buy ⇔ tc < price ≤ tc + 15 after that; "above TC + 15" ⇔ price > tc + 15; the "below BC − 15" branch is never returned; `close` decides nothing |
| GetAction.ActionText | src/app/api/trading/get-action/route.ts:71-77 | the message of each action from the `strings` table (src/data/messages.ts:70-72); SELL_OFF is missing there, so the sell-off message is undefined (stated by SellOffHasNoMessage and Post) |
| GetAction.CalculatedPointsActions | src/app/api/trading/get-action/route.ts:71-79 | with levels from CalculatePoints only sell-off, call buy, "above TC + 15" or monitoring occur: never the put branches, never the empty message |
| GetAction.Post | src/app/api/trading/get-action/route.ts:84-129 | 400 with the fixed message ⇔ some field is undefined (0 is accepted); otherwise 200, success, data = the 3-dp levels, and the message is the text of DetermineAction for the current price against those levels' tc, pivot and bc: sell-off (undefined), call buy, "above TC + 15" or monitoring |
| GetAction.SellOffHasNoMessage | src/app/api/trading/get-action/route.ts:71-113 | a price at or below tc and below the pivot gets a reply without a message |
| Indicators.TrueRange | src/app/api/trading/redirect/route.ts:51-57 | the true range is one of high − low, \|high − prevClose\|, \|low − prevClose\|, is at least each of them, and is non-negative |
| Indicators.RoundedTrueRange | src/app/api/trading/redirect/route.ts:67-70 | the rounded true range of a candle, the first candle using its own close, is non-negative |
| Indicators.SumNonNegative | src/app/api/trading/redirect/route.ts:75-77 | the window sum of non-negative true ranges is non-negative |
| Indicators.AtrNonNegative | src/app/api/trading/redirect/route.ts:73-78 | every ATR value is non-negative |
| Indicators.AtrAt | src/app/api/trading/redirect/route.ts:73-78 | the ATR at candle i: the 2-dp mean of the `period` rounded true ranges ending at i (specification function; its properties are stated by AtrNonNegative and CalculateAtr) |
| Indicators.CalculateAtr | src/app/api/trading/redirect/route.ts:59-82 | the result is an ATR series (`IsAtrSeries`): it has max(n, period − 1) entries; entry i is null ⇔ i < period − 1; from period − 1 on it is the 2-dp mean of the rounded true ranges of the window ending at i |
| Indicators.BandsOrdered | src/app/api/trading/redirect/route.ts:97-101 | with multiplier·atr ≥ 0 the rounded lower band never exceeds the upper one |
| Indicators.UpperBand | src/app/api/trading/redirect/route.ts:99-100 | the upper band has 2 decimals and, with multiplier·atr ≥ 0, is at least the rounded midpoint |
| Indicators.LowerBand | src/app/api/trading/redirect/route.ts:99-101 | the lower band has 2 decimals and, with multiplier·atr ≥ 0, is at most the rounded midpoint |
| Indicators.Step | src/app/api/trading/redirect/route.ts:103-114 | at the seed the trend is bullish ⇔ close > upper band, with the reference on the other band; afterwards close > ref turns bullish on the lower band, close < ref turns bearish on the upper band, and close = ref changes nothing |
| Indicators.StateAfter | src/app/api/trading/redirect/route.ts:90-114 | the state after the first k candles; the trend is "neutral" ⇔ the reference is null |
| Indicators.PointAt | src/app/api/trading/redirect/route.ts:94-121 | a point exists ⇔ i ≥ period − 1; it carries candle i, and its value is null ⇔ its trend is "neutral" |
| Indicators.NothingBeforeSeed | src/app/api/trading/redirect/route.ts:91-95 | before index period − 1 the state stays (null, "neutral") |
| Indicators.TrendSettled | src/app/api/trading/redirect/route.ts:103-114 | from the seed on, the trend is bullish or bearish and the reference is a number |
| Indicators.LatestPoint | src/app/api/trading/redirect/route.ts:116-123 | the latest point is null ⇔ there are fewer candles than the period; otherwise it has a value and a trend other than "neutral" |
| Indicators.RisingClosesStayBullish | src/app/api/trading/redirect/route.ts:103-114 | with period + 1 candles, multiplier ≥ 0, a seed close above its upper band and a last close no lower than it, the latest point is bullish |
| Indicators.SupertrendAt | src/app/api/trading/redirect/route.ts:94-121 | one iteration of the loop: the state after candle i is the specification's state, and the stored point is the specification's point (null before the first ATR) |
| Indicators.CalculateSupertrend | src/app/api/trading/redirect/route.ts:87-124 | the result is empty for no candles, otherwise the one-element list holding the point of the last candle |
| Positions.BufferNearSixBasisPoints | src/app/api/trading/redirect/route.ts:449-451 | the buffer is within 0.51 of 0.06% of the bar's midpoint |
| Positions.BufferOfReferenceBar | src/app/api/trades/route.ts:48-50 | high 21801.45, low 16828.35 gives a buffer of 12 |
| Positions.BufferValue | src/app/api/trading/redirect/route.ts:449-451 | the buffer of a bar with non-negative high + low is non-negative (the trades route computes it the same way) |
| Positions.Overrides | src/app/api/trading/redirect/route.ts:495-500 | the override fires only for a classified Buy or Sell and an exit check that says Exit |
| Positions.NextKind | src/app/api/trading/redirect/route.ts:514 | the type of a saved Buy/Sell is the opposite of a typed last trade's, and Entry after an untyped one |
| Positions.Decide | src/app/api/trading/redirect/route.ts:488-522 | the exit override saves Exit, typed Exit, with the exit check's reason; otherwise, with a last trade, a candle is saved ⇔ its signal is Buy, Sell or Exit and differs from the last trade's, and what is saved is the classified signal with its reason; with no last trade Buy/Sell open an Entry and Exit is skipped; a saved Exit is typed Exit, a saved Buy/Sell flips the last trade's type |
| Positions.Apply | src/app/api/trading/redirect/route.ts:462-523 | a candle either leaves the saved trades alone or appends exactly one |
| Positions.Replay | src/app/api/trading/redirect/route.ts:462-523 | the loop only appends: earlier trades are kept and at most one trade is added per candle |
| Positions.ReplayKeepsRules | src/app/api/trading/redirect/route.ts:495-522 | every trade the loop saves differs in signal from the one before it, and is typed Exit when its signal is Exit and by the flip rule otherwise |
| Positions.ApplyKeepsRules | src/app/api/trading/redirect/route.ts:495-522 | one candle keeps the rules: a trade it appends differs in signal from its predecessor and follows the type rule |
| Positions.AlternatesWithoutExits | src/app/api/trading/redirect/route.ts:512-513 | with no Exit signals, saved types alternate Entry, Exit, Entry, … |
| Positions.ReplayWithoutExits | src/app/api/trading/redirect/route.ts:495-522 | when neither classifier nor exit check ever says Exit, no saved trade is an Exit |
| Positions.FreshDayAlternates | src/app/api/trading/redirect/route.ts:510-522 | from an empty store with no Exit signals, the saved trades alternate Buy/Sell and Entry/Exit, starting with an Entry |
| Positions.ExampleFirstThree | src/app/api/trading/redirect/route.ts:510-522 | classified Buy, Buy, Sell on an empty store save Buy then Sell |
| Positions.BuyBuySellSellBuy | src/app/api/trading/redirect/route.ts:510-522 | the signals Buy, Buy, Sell, Sell, Buy on an empty store save Buy Entry, Sell Exit, Buy Entry |
| Positions.TradeStore.LastTrade | src/app/api/trading/redirect/route.ts:484-486 | the last trade is the newest saved trade, none for an empty store |
| Positions.TradeStore.constructor | src/app/api/trading/redirect/route.ts:484-486 | a store holds exactly the given trades |
| Positions.TradeStore.Save | src/app/api/trading/redirect/route.ts:520-521 | saving appends the trade and nothing else |
| Positions.ProcessCandle | src/app/api/trading/redirect/route.ts:463-522 | one loop iteration leaves the store as the save rule says |
| Positions.Patch | src/app/api/trading/redirect/route.ts:394-532 | 400 for no candles and 500 for no previous-day bar, saving nothing; otherwise 200 and the store is the replay of every candle in order with the buffer of the previous-day bar |
| DateFormat.Split | src/app/api/trading/redirect/route.ts:411 | `split` gives at least one part and no part holds the separator |
| DateFormat.SplitJoin | src/app/api/trading/redirect/route.ts:411 | joining the parts with the separator gives the string back |
| DateFormat.NatText | src/app/api/trading/redirect/route.ts:412-414 | `String(n)` is a digit string without leading zeros, one character exactly for n < 10 |
| DateFormat.NatTextValue | src/app/api/trading/redirect/route.ts:412-414 | the digits `String(n)` prints denote n |
| DateFormat.PadStart2 | src/app/api/trading/redirect/route.ts:412-414 | `padStart(2, "0")` leaves texts of length 2 or more alone and left-fills shorter ones with "0" to length 2 |
| DateFormat.NatTextOfDigits | src/app/api/trading/redirect/route.ts:411-414 | a digit string without leading zeros survives `Number` then `String` |
| DateFormat.NumberText | src/app/api/trading/redirect/route.ts:411-414 | `String(Number(part))`: a digit string prints as its value without leading zeros, anything else as "NaN" (stated by NatTextOfDigits) |
| DateFormat.Field | src/app/api/trading/redirect/route.ts:411 | destructured element k of the split: its `Number` text, or "undefined" when the split has fewer parts (stated through ReformatDayMonthYear) |
| DateFormat.SplitDate | src/app/api/trading/redirect/route.ts:411 | three parts without "-" joined with "-" split back into exactly those three parts |
| DateFormat.ReformatDayMonthYear | src/app/api/trading/redirect/route.ts:326-329 | a date DD-MM-YYYY with a 1–2 digit day and month comes out as YYYY-MM-DD with day and month padded to two digits and the year as written, for a year without leading zeros (`Number` drops them: "04-03-0999" gives "999-03-04") |
| DateFormat.ReformatDate | src/app/api/trading/redirect/route.ts:411-414 | the conversion `${year}-${month padded}-${day padded}`; its contract says only that the result is at least six characters long, and its value for DD-MM-YYYY input is stated by ReformatDayMonthYear |
| DateFormat.ReformatZeroPaddedDate | src/app/api/trading/redirect/route.ts:411-414 | "14-03-2025" becomes "2025-03-14" |
| DateFormat.ReformatPadsDayAndMonth | src/app/api/trading/redirect/route.ts:411-414 | "4-3-2025" becomes "2025-03-04" |
| TradesRoute.ValidateTradeInput | src/app/api/trades/route.ts:11-17 | null ⇔ price and company are both truthy (0 and "" count as missing); otherwise one error per failed check, the price error first |
| Js.Truthy | src/app/api/trades/route.ts:13-14 | JavaScript truthiness as the `!price` and `!company` tests use it: undefined, null, false, 0, NaN and "" are falsy, every other value truthy (stated through ValidateTradeInput) |
| Js.Join | src/app/api/trades/route.ts:28 | `errors.join(", ")`: the parts with the separator between them (stated through PostTrade) |
| TradesRoute.CreateTrade | src/app/api/trades/route.ts:46-57 | exactly one trade is appended, with yesterday's 2-dp levels and the zone message of the price |
| TradesRoute.PostTrade | src/app/api/trades/route.ts:20-68 | invalid input gives 400 with the errors joined by ", " and saves nothing; for valid input the status is 201 ⇔ yesterday's record exists, and 500 with the TypeError's message otherwise, saving nothing; a 201 appends exactly one trade, with no check against earlier trades |
| Report.GroupTrades | src/app/api/generate-excel/route.js:72-119 | the while loop produces exactly the front-to-back grouping |
| Report.Grouped | src/app/api/generate-excel/route.js:76-116 | the front-to-back grouping that GroupTrades computes (specification function; GroupingKeepsEveryTrade, GroupCount and GroupShape state its properties) |
| Report.GroupingKeepsEveryTrade | src/app/api/generate-excel/route.js:72-119 | every trade is in exactly one group and the groups keep the input order |
| Report.GroupCount | src/app/api/generate-excel/route.js:76-116 | there are between ⌈n/2⌉ and n groups |
| Report.GroupShape | src/app/api/generate-excel/route.js:80-114 | every row has 7 cells; a group with an exit is an Entry followed by an Exit with its profit or loss; any other group, an Exit-typed one included, has no exit, no profit and three empty exit cells |
| Report.ProfitLossSign | src/app/api/generate-excel/route.js:84-87 | a Buy gains when the exit price is higher; any other signal gains when it is lower |
| Report.ProfitLoss | src/app/api/generate-excel/route.js:84-87 | exit − entry for a Buy, entry − exit otherwise (its sign is stated by ProfitLossSign) |
| Report.FormatTime | src/app/api/generate-excel/route.js:65-70 | `formatToIST`: "N/A" for a missing time, the IST text otherwise (the formatter is a parameter) |
| Report.SanitizeSheetName | src/app/api/generate-excel/route.js:55-57 | keeps the length, replaces each of \ / * ? : [ ] with "_", leaves every other character alone, and leaves no forbidden character |
| Report.SanitizeIdempotent | src/app/api/generate-excel/route.js:55-57 | sanitising twice is sanitising once |
| Report.ReportFor | src/app/api/generate-excel/route.js:17-63 | 400 ⇔ no company or an empty one; 404 ⇔ a company with no trades, before any workbook is built; otherwise the sheet is named SanitizeSheetName("Trades-" + company) and its groups are the front-to-back grouping of the trades, which holds every trade in order |

## Left out

- Kite broker calls: the login redirect, the session, `getOHLC`,
  `getHistoricalData`, `placeOrder` and the module-level access token. These
  are network I/O into a library that is not part of this model. PATCH
  receives the day's candles and the previous-day bars as parameters.
- MongoDB: the connection, `find`, `findOne`, `create` and `save`. A store is
  the company's trades in the order they were saved, and its last element is
  the last trade. The record the trades route looks up for yesterday is a
  parameter.
- Positions.Patch: the handler saves each trade with `createdAt` set to its
  candle's date and finds the last trade by the latest `createdAt`, so the
  store's last element is that trade only when every candle is later than
  every stored trade. A re-run for the same or an earlier day (the UI sends a
  fixed past date on every tick) compares against the trade with the latest
  candle time instead, and is not modelled. The trades route stamps
  `createdAt` with the current time. Concurrent requests are not modelled.
- The clock and time zones: `new Date()`, the day windows, `toISOString` and
  `toLocaleString` in Asia/Kolkata. The current time and the IST formatter are
  parameters. The report's query window is left out, as is the
  "14-03-2025 minus one day" date of PATCH.
- IEEE-754 floating point: numbers are exact rationals. `toFixed` and
  `Math.round` are exact decimal rounding.
- Positions.Rules: the per-candle classifier and exit check that PATCH calls
  are not part of this model. They are uninterpreted. The model assumes they
  set the trade's signal and reason, and that `type` and `reason` are stored
  with the trade. The Trade schema in src/modals/Trade.ts has no `type` or
  `reason` path, so Mongoose's strict mode would drop both on save; the model
  keeps them, as the handler's own reads of `lastTrade.type` expect.
- DateFormat.NumberText: only digit strings are converted. Whitespace, signs,
  decimals, exponents and hex give "NaN" in the model, whereas `Number` accepts
  some of them.
- TradesRoute.PostTrade: the 500 reply's error text is the V8 engine's wording
  of the TypeError; other JavaScript engines word it differently.
- DateFormat.ReformatDayMonthYear: states the output only for a year without
  leading zeros; for a year such as "0999" the model's `ReformatDate` drops the
  zeros as `Number` does, but no lemma states that case.
- Request bodies: a field is a present value or `undefined` (`None`). `null`,
  non-numeric strings and other JSON types are left out.
- Indicators.CalculateAtr, Indicators.CalculateSupertrend: require period ≥ 1. The code's `new Array(period - 1)`
  in calculateATR, which calculateSupertrend calls first, throws for period 0,
  and no caller passes one.
- The Trade schema's own `required` validation on save. No modelled caller
  saves a trade without its bar, price and company.
- The GET, PUT and DELETE handlers beyond the date conversion, the
  supertrend-excel route, ExcelJS workbook styling and serialisation, the UI
  components and polling, and all commented-out code.
