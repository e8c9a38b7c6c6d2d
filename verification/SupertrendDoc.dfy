/**
 * The Supertrend document (src/modals/Supertrend.ts): a stored trend point whose
 * pre-save hook moves its date three minutes forward on every save.
 *
 * Dates are milliseconds since the epoch; `None` is a missing (null or undefined)
 * date. The clock is a parameter.
 */
module SupertrendDocModel {
  import opened Js

  /** 3 * 60 * 1000 ms */
  const SaveShiftMs: int := 180000

  /** The date the hook writes: the existing date, or now when there is none, plus three minutes. */
  function ShiftedDate(date: Option<int>, now: int): (t: int) {
    (if date.Some? then date.value else now) + SaveShiftMs
  }

  /** Running the hook twice moves a date six minutes: the hook is not idempotent. */
  lemma ShiftTwice(date: Option<int>, now1: int, now2: int)
    ensures ShiftedDate(Some(ShiftedDate(date, now1)), now2) == ShiftedDate(date, now1) + 180000
    ensures date.Some? ==> ShiftedDate(Some(ShiftedDate(date, now1)), now2) == date.value + 360000
  {
  }

  datatype SaveOutcome = Saved | ValidationFailed(paths: seq<string>)

  /** The values the trend enum admits. */
  predicate IsTrend(s: string) {
    s == "bullish" || s == "bearish"
  }

  /**
   * The paths that fail validation, in schema order: every field is required (a
   * string must be non-empty), and trend must also be one of the enum values.
   */
  function InvalidPaths(company: Option<string>, low: Option<real>, open: Option<real>,
                        date: Option<int>, high: Option<real>, close: Option<real>,
                        trend: Option<string>, currentPrice: Option<real>): (paths: seq<string>)
    ensures paths == [] <==>
      && company.Some? && company.value != "" && low.Some? && open.Some? && date.Some?
      && high.Some? && close.Some? && trend.Some? && IsTrend(trend.value) && currentPrice.Some?
    ensures "trend" in paths <==> trend.None? || !IsTrend(trend.value)
    ensures "date" in paths <==> date.None?
  {
    (if company.None? || company.value == "" then ["company"] else [])
    + (if low.None? then ["low"] else [])
    + (if open.None? then ["open"] else [])
    + (if date.None? then ["date"] else [])
    + (if high.None? then ["high"] else [])
    + (if close.None? then ["close"] else [])
    + (if trend.None? || !IsTrend(trend.value) then ["trend"] else [])
    + (if currentPrice.None? then ["currentPrice"] else [])
  }

  class Supertrend {
    var company: Option<string>
    var trend: Option<string>
    var currentPrice: Option<real>
    var low: Option<real>
    var high: Option<real>
    var open: Option<real>
    var close: Option<real>
    var date: Option<int>

    constructor (company: Option<string>, trend: Option<string>, currentPrice: Option<real>,
                 low: Option<real>, high: Option<real>, open: Option<real>, close: Option<real>,
                 date: Option<int>)
      ensures this.company == company && this.trend == trend && this.currentPrice == currentPrice
      ensures this.low == low && this.high == high && this.open == open && this.close == close
      ensures this.date == date
    {
      this.company := company;
      this.trend := trend;
      this.currentPrice := currentPrice;
      this.low := low;
      this.high := high;
      this.open := open;
      this.close := close;
      this.date := date;
    }

    function Invalid(): seq<string>
      reads this
    {
      InvalidPaths(company, low, open, date, high, close, trend, currentPrice)
    }

    /** The pre-save hook: writes only `date`, and never stops the save. */
    method PreSave(now: int)
      modifies this`date
      ensures date == Some(ShiftedDate(old(date), now))
    {
      var d := if date.Some? then date.value else now;
      date := Some(d + SaveShiftMs);
    }

    /**
     * `doc.save()`: validation, then the hook. Because date is required, a saved
     * document always had a date, so the clock fallback of the hook is never used
     * on this path: the date moves exactly three minutes.
     */
    method Save(now: int) returns (r: SaveOutcome)
      modifies this`date
      ensures r == (if old(Invalid()) == [] then Saved else ValidationFailed(old(Invalid())))
      ensures r.Saved? ==> old(date).Some? && date == Some(old(date).value + SaveShiftMs)
      ensures !r.Saved? ==> date == old(date)
    {
      var invalid := Invalid();
      if invalid != [] {
        return ValidationFailed(invalid);
      }
      PreSave(now);
      r := Saved;
    }
  }

  /** Saving the same document twice moves its date six minutes. */
  method SaveTwice(doc: Supertrend, now1: int, now2: int) returns (first: SaveOutcome, second: SaveOutcome)
    modifies doc`date
    ensures first.Saved? ==> second.Saved? && old(doc.date).Some? && doc.date == Some(old(doc.date).value + 360000)
    ensures !first.Saved? ==> !second.Saved? && doc.date == old(doc.date)
  {
    first := doc.Save(now1);
    second := doc.Save(now2);
  }
}
