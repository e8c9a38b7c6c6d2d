/**
 * The Trade document (src/modals/Trade.ts): its level calculation and its
 * first-match zone classifier.
 *
 * `generateSignal` is an ordered if-else chain over the levels with a fixed
 * buffer of 15; the first true condition picks one of twenty zone messages,
 * and an empty result falls back to a "no specific signal" message. The
 * chain is the pure function ZoneOf; the document's two methods, which store
 * their results in the document, are the methods of class Trade.
 */
module TradeModel {
  import opened Decimal
  import opened Cpr

  /** The buffer generateSignal uses, whatever its caller passes. */
  const Buffer: real := 15.0

  /** The outcomes of generateSignal, in the order the chain tests them. */
  datatype Zone =
    | AboveR4 | BetweenR3R4 | NearR3 | BetweenR2R3 | NearR2 | BetweenR1R2 | NearR1
    | BelowS4 | BetweenS4S3 | NearS3 | BetweenS3S2 | NearS2 | BetweenS2S1 | NearS1
    | SellOff | NearTcCall | AboveTcBuffer | WithinCpr | NearBcPut | BelowBcBuffer
    | NoSpecificSignal

  /** The message stored for each zone. */
  function Message(z: Zone): string {
    match z
    case AboveR4 => "Price is above R4. Strong bullish signal."
    case BetweenR3R4 => "Price is between R3 and R4. Approaching strong bullish pressure."
    case NearR3 => "Price is within R3 ± BUFFER. High bullish potential."
    case BetweenR2R3 => "Price is between R2 and R3. Moderate bullish trend."
    case NearR2 => "Price is within R2 ± BUFFER. Approaching moderate bullish zone."
    case BetweenR1R2 => "Price is between R1 and R2. Weak bullish trend."
    case NearR1 => "Price is within R1 ± BUFFER. Approaching weak bullish zone."
    case BelowS4 => "Price is below S4. Strong bearish signal."
    case BetweenS4S3 => "Price is between S4 and S3. Strong bearish pressure."
    case NearS3 => "Price is within S3 ± BUFFER. High bearish potential."
    case BetweenS3S2 => "Price is between S3 and S2. Moderate bearish trend."
    case NearS2 => "Price is within S2 ± BUFFER. Approaching moderate bearish zone."
    case BetweenS2S1 => "Price is between S2 and S1. Weak bearish trend."
    case NearS1 => "Price is within S1 ± BUFFER. Approaching weak bearish zone."
    case SellOff => "Price is below Pivot and TC. Sell-off detected."
    case NearTcCall => "Price is within TC ± BUFFER. Call buy opportunity."
    case AboveTcBuffer => "Price is above TC + BUFFER. Strong call signal."
    case WithinCpr => "Price is within BC and TC. Monitoring for trends."
    case NearBcPut => "Price is within BC ± BUFFER. Put buy opportunity."
    case BelowBcBuffer => "Price is below BC - BUFFER. Strong put signal."
    case NoSpecificSignal => "No specific signal detected. Monitoring the market."
  }

  /**
   * The zone chain of generateSignal. The first true condition wins; the
   * fallback stands for the empty signal replaced by the default message.
   */
  function ZoneOf(price: real, lv: Levels): (z: Zone)
    // only the first test yields AboveR4, and it always does when it holds
    ensures z == AboveR4 <==> price > lv.r4
    // the R3 buffer comes before the R2-R3 band in the chain, so it shadows it
    ensures price <= lv.r4 && lv.r3 - Buffer < price <= lv.r3 ==> z == NearR3
    // every numeric price satisfies one of the tests: the fallback is dead
    ensures z != NoSpecificSignal
    ensures z == SellOff ==> price <= lv.tc && price < lv.pivot
    ensures z == NearBcPut || z == BelowBcBuffer ==> lv.pivot <= price < lv.bc
  {
    if price > lv.r4 then AboveR4
    else if price > lv.r3 && price <= lv.r4 then BetweenR3R4
    else if price > lv.r3 - Buffer && price <= lv.r3 then NearR3
    else if price > lv.r2 && price <= lv.r3 then BetweenR2R3
    else if price > lv.r2 - Buffer && price <= lv.r2 then NearR2
    else if price > lv.r1 && price <= lv.r2 then BetweenR1R2
    else if price > lv.r1 - Buffer && price <= lv.r1 then NearR1
    else if price < lv.s4 then BelowS4
    else if price >= lv.s4 && price < lv.s3 then BetweenS4S3
    else if price >= lv.s3 && price < lv.s3 + Buffer then NearS3
    else if price >= lv.s3 && price < lv.s2 then BetweenS3S2
    else if price >= lv.s2 && price < lv.s2 + Buffer then NearS2
    else if price >= lv.s2 && price < lv.s1 then BetweenS2S1
    else if price >= lv.s1 && price < lv.s1 + Buffer then NearS1
    else if price <= lv.tc && price < lv.pivot then SellOff
    else if price > lv.tc && price <= lv.tc + Buffer then NearTcCall
    else if price > lv.tc + Buffer then AboveTcBuffer
    else if price >= lv.bc && price <= lv.tc then WithinCpr
    else if price < lv.bc && price >= lv.bc - Buffer then NearBcPut
    else if price < lv.bc - Buffer then BelowBcBuffer
    else NoSpecificSignal
  }

  /**
   * With levels from the calculator, the put branches are never reached
   * either: reaching them needs pivot <= price < bc, but pivot < bc forces
   * tc < pivot, and then the sell-off test has already accepted the price.
   */
  lemma CalculatedLevelsNeverReachPut(high: real, low: real, close: real, price: real)
    ensures var z := ZoneOf(price, CprLevels(high, low, close, 2));
      z != NearBcPut && z != BelowBcBuffer && z != NoSpecificSignal
  {
    CentralRangeSymmetric(high, low, close, 2);
  }

  /**
   * The regression bar high 21801.45, low 16828.35, close 21731.4 has pivot
   * 20120.4, bc 19314.9, tc 20925.9 and r1 23412.45, so a price of 22000 lies
   * more than the buffer above tc and below every resistance band.
   */
  lemma RegressionBarAt22000()
    ensures ZoneOf(22000.0, CprLevels(21801.45, 16828.35, 21731.4, 2)) == AboveTcBuffer
  {
    var lv := CprLevels(21801.45, 16828.35, 21731.4, 2);
    assert HasDecimals(21801.45, 2) by {
      assert Scale(21801.45, 2) == 10.0 * Scale(21801.45, 1) == 10.0 * (10.0 * Scale(21801.45, 0)) == 2180145.0;
    }
    assert HasDecimals(16828.35, 2) by {
      assert Scale(16828.35, 2) == 10.0 * Scale(16828.35, 1) == 10.0 * (10.0 * Scale(16828.35, 0)) == 1682835.0;
    }
    assert lv.pivot == 20120.4 by {
      ToFixedTwo(60361.2 / 3.0);
      assert (100.0 * (60361.2 / 3.0) + 0.5).Floor == 2012040;
    }
    assert lv.bc == 19314.9 by {
      ToFixedTwo(38629.8 / 2.0);
      assert (100.0 * (38629.8 / 2.0) + 0.5).Floor == 1931490;
    }
    CentralRangeSymmetric(21801.45, 16828.35, 21731.4, 2);
    LevelSpacing(21801.45, 16828.35, 21731.4, 2);
    assert lv.tc == 20925.9;
    assert lv.r1 == 23412.45 && lv.s1 == 18439.35 && lv.s2 < lv.s1 && lv.s3 < lv.s1 && lv.s4 < lv.s2;
  }

  /** A Trade document: the fields the level and signal methods read and write. */
  class Trade {
    var high: real
    var low: real
    var close: real
    var price: real
    var company: string
    var signal: string
    var levels: Levels

    /** `new Trade({ high, low, close, price, company })`, with the schema defaults. */
    constructor (high: real, low: real, close: real, price: real, company: string)
      ensures this.high == high && this.low == low && this.close == close
      ensures this.price == price && this.company == company
      ensures signal == "" && levels == ZeroLevels
    {
      this.high := high;
      this.low := low;
      this.close := close;
      this.price := price;
      this.company := company;
      signal := "";
      levels := ZeroLevels;
    }

    /**
     * calculateLevels: the eleven levels at two decimals, each rounded as it is
     * computed, written to `levels` and returned. Only `levels` changes, so a
     * second call yields the same levels.
     */
    method CalculateLevels() returns (lv: Levels)
      modifies this`levels
      ensures levels == lv == CprLevels(high, low, close, 2)
    {
      var pivot := ToFixed((high + low + close) / 3.0, 2);
      var bc := ToFixed((high + low) / 2.0, 2);
      var tc := ToFixed(pivot + (pivot - bc), 2);
      var r1 := ToFixed(2.0 * pivot - low, 2);
      var r2 := ToFixed(pivot + (high - low), 2);
      var r3 := ToFixed(r1 + (high - low), 2);
      var r4 := ToFixed(r2 + (high - low), 2);
      var s1 := ToFixed(2.0 * pivot - high, 2);
      var s2 := ToFixed(pivot - (high - low), 2);
      var s3 := ToFixed(s1 - (high - low), 2);
      var s4 := ToFixed(s2 - (high - low), 2);
      levels := Levels(pivot, bc, tc, r1, r2, r3, r4, s1, s2, s3, s4);
      lv := levels;
    }

    /**
     * generateSignal: classifies `price` against the stored levels, stores the
     * message in `signal` and returns it. The argument is ignored: the buffer
     * is always 15. The fallback message for an empty signal is the last
     * outcome of ZoneOf.
     */
    method GenerateSignal(bufferValue: int) returns (s: string)
      modifies this`signal
      ensures s == signal == Message(ZoneOf(price, levels))
    {
      var zone := ZoneOf(price, levels);
      signal := Message(zone);
      s := signal;
    }
  }
}
