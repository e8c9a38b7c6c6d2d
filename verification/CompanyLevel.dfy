/**
 * The CompanyLevels document (src/modals/CompanyLevel.ts): a reference bar for
 * one company, whose eleven CPR levels a pre-save hook recomputes on every save.
 *
 * Saving runs the schema's validation first and the user pre-save hook after it
 * (Mongoose's order); a document that fails validation is not saved and its
 * hook does not run.
 */
module CompanyLevelModel {
  import opened Js
  import opened Decimal
  import opened Cpr

  datatype SaveOutcome = Saved | ValidationFailed(paths: seq<string>)

  /**
   * The required paths that are missing, in schema order. A required string must
   * be a non-empty string; a required number must be present (0 is accepted).
   */
  function MissingPaths(company: Option<string>, high: Option<real>, low: Option<real>,
                        close: Option<real>): (paths: seq<string>)
    ensures paths == [] <==> company.Some? && company.value != "" && high.Some? && low.Some? && close.Some?
    ensures "company" in paths <==> company.None? || company.value == ""
    ensures "high" in paths <==> high.None?
    ensures "low" in paths <==> low.None?
    ensures "close" in paths <==> close.None?
  {
    (if company.None? || company.value == "" then ["company"] else [])
    + (if high.None? then ["high"] else [])
    + (if low.None? then ["low"] else [])
    + (if close.None? then ["close"] else [])
  }

  class CompanyLevels {
    var company: Option<string>
    var high: Option<real>
    var low: Option<real>
    var close: Option<real>
    var levels: Levels

    /** `new CompanyLevels({ company, high, low, close })`: levels take their default 0. */
    constructor (company: Option<string>, high: Option<real>, low: Option<real>, close: Option<real>)
      ensures this.company == company && this.high == high && this.low == low && this.close == close
      ensures levels == ZeroLevels
    {
      this.company := company;
      this.high := high;
      this.low := low;
      this.close := close;
      levels := ZeroLevels;
    }

    /**
     * The pre-save hook: reads high, low and close and overwrites `levels` with
     * the two-decimal CPR levels, whatever they were; it has no failure path,
     * so the save always proceeds. It runs after validation, which guarantees
     * the three numbers are present.
     */
    method PreSave()
      requires high.Some? && low.Some? && close.Some?
      modifies this`levels
      ensures levels == CprLevels(high.value, low.value, close.value, 2)
    {
      var high := this.high.value;
      var low := this.low.value;
      var close := this.close.value;
      var pivot := ToFixed((high + low + close) / 3.0, 2);
      var bc := ToFixed((high + low) / 2.0, 2);
      var tc := ToFixed(pivot + (pivot - bc), 2);
      var r1 := ToFixed(2.0 * pivot - low, 2);
      var r2 := ToFixed(pivot + (high - low), 2);
      var r3 := ToFixed(r1 + (high - low), 2);
      var r4 := ToFixed(r2 + (high - low), 2);
      var s1 := ToFixed(2.0 * pivot - high, 2);
      var s2 := ToFixed(pivot - (high - low), 2);
      var s3 := ToFixed(s1 - (high - low), 2);
      var s4 := ToFixed(s2 - (high - low), 2);
      levels := Levels(pivot, bc, tc, r1, r2, r3, r4, s1, s2, s3, s4);
    }

    /**
     * `doc.save()`: validation, then the hook. A saved document's levels are the
     * CPR levels of its bar, symmetric about the pivot (tc − pivot = pivot − bc)
     * and, for a two-decimal bar, with R2 and S2 symmetric about it too.
     */
    method Save() returns (r: SaveOutcome)
      modifies this`levels
      ensures r == (if old(MissingPaths(company, high, low, close)) == [] then Saved
                    else ValidationFailed(old(MissingPaths(company, high, low, close))))
      ensures r.Saved? ==> levels == CprLevels(high.value, low.value, close.value, 2)
      ensures r.Saved? ==> levels.tc - levels.pivot == levels.pivot - levels.bc
      ensures r.Saved? && HasDecimals(high.value, 2) && HasDecimals(low.value, 2) ==>
                levels.r2 + levels.s2 == 2.0 * levels.pivot
      ensures !r.Saved? ==> levels == old(levels)
    {
      var missing := MissingPaths(company, high, low, close);
      if missing != [] {
        return ValidationFailed(missing);
      }
      PreSave();
      CentralRangeSymmetric(high.value, low.value, close.value, 2);
      if HasDecimals(high.value, 2) && HasDecimals(low.value, 2) {
        LevelSpacing(high.value, low.value, close.value, 2);
      }
      r := Saved;
    }
  }
}
