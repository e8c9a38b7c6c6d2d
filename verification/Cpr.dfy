/**
 * The Central Pivot Range (CPR) level calculator.
 *
 * From one reference bar (the previous session's high, low and close) it derives the
 * pivot, the bottom and top of the central range (bc, tc), four resistance levels and
 * four support levels. Every value is rounded to `d` decimals as soon as it is
 * computed, and later levels are built from the ROUNDED earlier ones; the code uses
 * d = 2 in the Trade and CompanyLevels models and d = 3 in the get-action route.
 */
module Cpr {
  import opened Decimal

  datatype Levels = Levels(
    pivot: real, bc: real, tc: real,
    r1: real, r2: real, r3: real, r4: real,
    s1: real, s2: real, s3: real, s4: real)

  /** The schema default of every level field. */
  const ZeroLevels := Levels(0.0, 0.0, 0.0, 0.0, 0.0, 0.0, 0.0, 0.0, 0.0, 0.0, 0.0)

  /** Every level has at most `d` decimals. */
  predicate AllHaveDecimals(lv: Levels, d: nat) {
    && HasDecimals(lv.pivot, d) && HasDecimals(lv.bc, d) && HasDecimals(lv.tc, d)
    && HasDecimals(lv.r1, d) && HasDecimals(lv.r2, d) && HasDecimals(lv.r3, d) && HasDecimals(lv.r4, d)
    && HasDecimals(lv.s1, d) && HasDecimals(lv.s2, d) && HasDecimals(lv.s3, d) && HasDecimals(lv.s4, d)
  }

  /** The reference calculator, rounding every intermediate value to `d` decimals. */
  function CprLevels(high: real, low: real, close: real, d: nat): (lv: Levels)
    ensures AllHaveDecimals(lv, d)
  {
    var range := high - low;
    var pivot := ToFixed((high + low + close) / 3.0, d);
    var bc := ToFixed((high + low) / 2.0, d);
    var tc := ToFixed(pivot + (pivot - bc), d);
    var r1 := ToFixed(2.0 * pivot - low, d);
    var r2 := ToFixed(pivot + range, d);
    var r3 := ToFixed(r1 + range, d);
    var r4 := ToFixed(r2 + range, d);
    var s1 := ToFixed(2.0 * pivot - high, d);
    var s2 := ToFixed(pivot - range, d);
    var s3 := ToFixed(s1 - range, d);
    var s4 := ToFixed(s2 - range, d);
    Levels(pivot, bc, tc, r1, r2, r3, r4, s1, s2, s3, s4)
  }

  /**
   * The pivot and bc are the exact mean and midpoint up to half a unit in the
   * last place.
   */
  lemma PivotAndBcNearExact(high: real, low: real, close: real, d: nat)
    ensures var lv := CprLevels(high, low, close, d);
      && -0.5 <= Scale(lv.pivot - (high + low + close) / 3.0, d) <= 0.5
      && -0.5 <= Scale(lv.bc - (high + low) / 2.0, d) <= 0.5
  {
    ToFixedError((high + low + close) / 3.0, d);
    ToFixedError((high + low) / 2.0, d);
  }

  /**
   * tc is built from the already-rounded pivot and bc, so rounding it changes
   * nothing: the central range is symmetric about the pivot, and bc <= pivot
   * exactly when pivot <= tc.
   */
  lemma {:induction false} CentralRangeSymmetric(high: real, low: real, close: real, d: nat)
    ensures var lv := CprLevels(high, low, close, d);
      && lv.tc - lv.pivot == lv.pivot - lv.bc
      && (lv.bc <= lv.pivot <==> lv.pivot <= lv.tc)
  {
    var lv := CprLevels(high, low, close, d);
    SubHasDecimals(lv.pivot, lv.bc, d);
    AddHasDecimals(lv.pivot, lv.pivot - lv.bc, d);
    ToFixedExact(lv.pivot + (lv.pivot - lv.bc), d);
  }

  /**
   * For a bar quoted with at most `d` decimals no rounding after the pivot changes
   * anything: r1 = 2·pivot − low, s1 = 2·pivot − high, consecutive outer levels are
   * one bar range apart, and R2 and S2 are symmetric about the pivot.
   */
  lemma {:induction false} LevelSpacing(high: real, low: real, close: real, d: nat)
    requires HasDecimals(high, d) && HasDecimals(low, d)
    ensures var lv := CprLevels(high, low, close, d);
      && lv.r1 == 2.0 * lv.pivot - low
      && lv.s1 == 2.0 * lv.pivot - high
      && lv.r2 == lv.pivot + (high - low)
      && lv.s2 == lv.pivot - (high - low)
      && lv.r3 - lv.r1 == high - low
      && lv.r4 - lv.r2 == high - low
      && lv.s1 - lv.s3 == high - low
      && lv.s2 - lv.s4 == high - low
      && lv.r2 + lv.s2 == 2.0 * lv.pivot
  {
    var lv := CprLevels(high, low, close, d);
    var p := lv.pivot;
    var range := high - low;
    SubHasDecimals(high, low, d);
    AddHasDecimals(p, p, d);
    assert 2.0 * p == p + p;
    SubHasDecimals(p + p, low, d);
    ToFixedExact(2.0 * p - low, d);
    SubHasDecimals(p + p, high, d);
    ToFixedExact(2.0 * p - high, d);
    AddHasDecimals(p, range, d);
    ToFixedExact(p + range, d);
    SubHasDecimals(p, range, d);
    ToFixedExact(p - range, d);
    AddHasDecimals(lv.r1, range, d);
    ToFixedExact(lv.r1 + range, d);
    AddHasDecimals(lv.r2, range, d);
    ToFixedExact(lv.r2 + range, d);
    SubHasDecimals(lv.s1, range, d);
    ToFixedExact(lv.s1 - range, d);
    SubHasDecimals(lv.s2, range, d);
    ToFixedExact(lv.s2 - range, d);
  }

  /**
   * For a well-formed bar (low <= close <= high) quoted with at most `d` decimals,
   * the resistance levels rise and the support levels fall, with the pivot between
   * s1 and r1. The order is not strict: rounding the pivot can make neighbours equal
   * (see LevelOrderNotStrict).
   */
  lemma LevelOrder(high: real, low: real, close: real, d: nat)
    requires HasDecimals(high, d) && HasDecimals(low, d)
    requires low <= close <= high
    ensures var lv := CprLevels(high, low, close, d);
      && lv.s4 <= lv.s3 <= lv.s2 <= lv.s1 <= lv.pivot <= lv.r1 <= lv.r2 <= lv.r3 <= lv.r4
  {
    LevelSpacing(high, low, close, d);
    ToFixedMonotone(low, (high + low + close) / 3.0, d);
    ToFixedMonotone((high + low + close) / 3.0, high, d);
    ToFixedExact(low, d);
    ToFixedExact(high, d);
  }

  /** The reference bar high = 100, low = 80, close = 95 at two decimals. */
  lemma ReferenceBarLevels()
    ensures CprLevels(100.0, 80.0, 95.0, 2)
      == Levels(91.67, 90.0, 93.34, 103.34, 111.67, 123.34, 131.67, 83.34, 71.67, 63.34, 51.67)
  {
    ToFixedTwo(275.0 / 3.0);
    ToFixedTwo(90.0);
    assert (100.0 * (275.0 / 3.0) + 0.5).Floor == 9167;
    assert (100.0 * 90.0 + 0.5).Floor == 9000;
    LevelSpacing(100.0, 80.0, 95.0, 2);
    CentralRangeSymmetric(100.0, 80.0, 95.0, 2);
  }

  /** A close below the midpoint puts the pivot below bc: bc <= pivot <= tc is not an invariant. */
  lemma PivotBelowBcWhenCloseIsLow()
    ensures var lv := CprLevels(100.0, 80.0, 80.0, 2);
      lv.pivot == 86.67 && lv.bc == 90.0 && lv.tc == 83.34
  {
    ToFixedTwo(260.0 / 3.0);
    ToFixedTwo(90.0);
    assert (100.0 * (260.0 / 3.0) + 0.5).Floor == 8667;
    assert (100.0 * 90.0 + 0.5).Floor == 9000;
    CentralRangeSymmetric(100.0, 80.0, 80.0, 2);
  }

  /** Rounding the pivot up to the high makes r1 and r2 coincide. */
  lemma LevelOrderNotStrict()
    ensures var lv := CprLevels(100.0, 99.99, 100.0, 2);
      lv.pivot == 100.0 && lv.r1 == lv.r2 == 100.01
  {
    ToFixedTwo(299.99 / 3.0);
    assert (100.0 * (299.99 / 3.0) + 0.5).Floor == 10000;
    assert Scale(100.0, 2) == 10000.0;
    assert Scale(99.99, 2) == 9999.0;
    LevelSpacing(100.0, 99.99, 100.0, 2);
  }
}
