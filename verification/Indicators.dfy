/**
 * The Supertrend estimator of the redirect route
 * (src/app/api/trading/redirect/route.ts): true range, a simple-moving-average
 * ATR with leading nulls, midpoint ± multiplier·ATR bands, and a trend that is
 * seeded on the first candle with an ATR and flips when the close crosses the
 * current reference band. Only the last point is returned.
 */
module Indicators {
  import opened Js
  import opened Decimal

  /** One OHLC candle; `date` is milliseconds since the epoch. */
  datatype Candle = Candle(date: int, open: real, high: real, low: real, close: real)

  function Abs(x: real): real {
    if x < 0.0 then -x else x
  }

  function Max(a: int, b: int): int {
    if a >= b then a else b
  }

  /** calculateTrueRange: the largest of the bar range and the two gaps to the previous close. */
  function TrueRange(high: real, low: real, prevClose: real): (tr: real)
    ensures tr >= high - low && tr >= Abs(high - prevClose) && tr >= Abs(low - prevClose)
    ensures tr == high - low || tr == Abs(high - prevClose) || tr == Abs(low - prevClose)
    ensures tr >= 0.0
  {
    var range, upGap, downGap := high - low, Abs(high - prevClose), Abs(low - prevClose);
    if range >= upGap && range >= downGap then range
    else if upGap >= downGap then upGap
    else downGap
  }

  /** The rounded true range of candle i; the first candle is its own previous candle. */
  function RoundedTrueRange(data: seq<Candle>, i: nat): (tr: real)
    requires i < |data|
    ensures tr >= 0.0
  {
    var prevClose := if i == 0 then data[i].close else data[i - 1].close;
    ToFixed(TrueRange(data[i].high, data[i].low, prevClose), 2)
  }

  /** The rounded true ranges of all candles. */
  function TrueRanges(data: seq<Candle>): (trs: seq<real>)
    ensures |trs| == |data|
    ensures forall i :: 0 <= i < |data| ==> trs[i] == RoundedTrueRange(data, i)
  {
    seq(|data|, i requires 0 <= i < |data| => RoundedTrueRange(data, i))
  }

  /** The reduce of the ATR window: the sum of its values. */
  function Sum(s: seq<real>): real {
    if |s| == 0 then 0.0 else Sum(s[..|s| - 1]) + s[|s| - 1]
  }

  lemma {:induction false} SumNonNegative(s: seq<real>)
    requires forall i :: 0 <= i < |s| ==> s[i] >= 0.0
    ensures Sum(s) >= 0.0
  {
    if |s| > 0 {
      SumNonNegative(s[..|s| - 1]);
    }
  }

  /** The ATR at candle i: the rounded mean of the `period` rounded true ranges ending at i. */
  function AtrAt(data: seq<Candle>, period: nat, i: nat): real
    requires 1 <= period <= i + 1 && i < |data|
  {
    ToFixed(Sum(TrueRanges(data)[i + 1 - period .. i + 1]) / period as real, 2)
  }

  /** Every ATR value is non-negative. */
  lemma AtrNonNegative(data: seq<Candle>, period: nat, i: nat)
    requires 1 <= period <= i + 1 && i < |data|
    ensures AtrAt(data, period, i) >= 0.0
  {
    var window := TrueRanges(data)[i + 1 - period .. i + 1];
    SumNonNegative(window);
    var mean := Sum(window) / period as real;
    assert mean >= 0.0;
  }

  /**
   * The ATR series of calculateATR: max(n, period − 1) entries, null exactly
   * for the first period − 1, then the ATR ending at each candle.
   */
  predicate IsAtrSeries(data: seq<Candle>, period: nat, atr: seq<Option<real>>)
    requires period >= 1
  {
    && |atr| == Max(|data|, period - 1)
    && (forall i :: 0 <= i < |atr| ==> (atr[i].None? <==> i < period - 1))
    && (forall i :: period - 1 <= i < |data| ==> atr[i] == Some(AtrAt(data, period, i)))
  }

  /**
   * calculateATR: the first period − 1 entries are null, every later candle gets
   * the ATR ending at it, and the result has max(n, period − 1) entries.
   */
  method CalculateAtr(data: seq<Candle>, period: int) returns (atr: seq<Option<real>>)
    requires period >= 1
    ensures IsAtrSeries(data, period, atr)
  {
    atr := seq(period - 1, _ => None);
    var trs: seq<real> := [];
    for i := 0 to |data|
      invariant trs == TrueRanges(data)[..i]
      invariant |atr| == Max(i, period - 1)
      invariant forall k :: 0 <= k < |atr| ==> (atr[k].None? <==> k < period - 1)
      invariant forall k :: period - 1 <= k < i ==> atr[k] == Some(AtrAt(data, period, k))
    {
      var prevClose := if i == 0 then data[i].close else data[i - 1].close;
      var tr := ToFixed(TrueRange(data[i].high, data[i].low, prevClose), 2);
      trs := trs + [tr];
      assert trs == TrueRanges(data)[..i + 1];
      if i >= period - 1 {
        var window := trs[i - period + 1 .. i + 1];
        assert window == TrueRanges(data)[i + 1 - period .. i + 1];
        var total := Sum(window);
        atr := atr + [Some(ToFixed(total / period as real, 2))];
      }
    }
  }

  datatype Trend = Neutral | Bullish | Bearish

  function TrendText(t: Trend): string {
    match t
    case Neutral => "neutral"
    case Bullish => "bullish"
    case Bearish => "bearish"
  }

  /** A returned point: the reference value and trend, with the candle's own fields. */
  datatype Point = Point(value: Option<real>, trend: Trend, candle: Candle)

  /** The bands about the candle's midpoint, rounded to two decimals. */
  function UpperBand(c: Candle, atr: real, multiplier: real): (u: real)
    ensures HasDecimals(u, 2)
    ensures multiplier * atr >= 0.0 ==> u >= ToFixed((c.high + c.low) / 2.0, 2)
  {
    var mid := (c.high + c.low) / 2.0;
    var u := ToFixed(mid + multiplier * atr, 2);
    if multiplier * atr >= 0.0 then ToFixedMonotone(mid, mid + multiplier * atr, 2); u else u
  }

  function LowerBand(c: Candle, atr: real, multiplier: real): (l: real)
    ensures HasDecimals(l, 2)
    ensures multiplier * atr >= 0.0 ==> l <= ToFixed((c.high + c.low) / 2.0, 2)
  {
    var mid := (c.high + c.low) / 2.0;
    var l := ToFixed(mid - multiplier * atr, 2);
    if multiplier * atr >= 0.0 then ToFixedMonotone(mid - multiplier * atr, mid, 2); l else l
  }

  /** The bands never cross when multiplier·atr is non-negative. */
  lemma BandsOrdered(c: Candle, atr: real, multiplier: real)
    requires multiplier * atr >= 0.0
    ensures LowerBand(c, atr, multiplier) <= UpperBand(c, atr, multiplier)
  {
    var mid := (c.high + c.low) / 2.0;
    ToFixedMonotone(mid - multiplier * atr, mid + multiplier * atr, 2);
  }

  /** A reference as a number for `>` and `<`: JavaScript compares null as 0. */
  function RefNumber(ref: Option<real>): real {
    if ref.Some? then ref.value else 0.0
  }

  /** The loop state: the reference band (`prevSupertrend`) and the trend. */
  datatype State = State(ref: Option<real>, trend: Trend)

  /**
   * One candle with an ATR. At the seed the trend is bullish iff the close is
   * above the upper band and the reference is the band on the other side;
   * afterwards a close above the reference turns bullish on the lower band, a
   * close below it turns bearish on the upper band, and a close equal to it
   * changes nothing.
   */
  function Step(s: State, seed: bool, close: real, upper: real, lower: real): (t: State)
    ensures seed ==> (t.trend == Bullish <==> close > upper) && t.trend != Neutral
    ensures seed ==> t.ref == Some(if t.trend == Bullish then lower else upper)
    ensures !seed && close > RefNumber(s.ref) ==> t == State(Some(lower), Bullish)
    ensures !seed && close < RefNumber(s.ref) ==> t == State(Some(upper), Bearish)
    ensures !seed && close == RefNumber(s.ref) ==> t == s
  {
    if seed then
      var trend := if close > upper then Bullish else Bearish;
      State(Some(if trend == Bullish then lower else upper), trend)
    else if close > RefNumber(s.ref) then State(Some(lower), Bullish)
    else if close < RefNumber(s.ref) then State(Some(upper), Bearish)
    else s
  }

  /** The state after candles [0, k). Candles without an ATR leave it alone. */
  function StateAfter(data: seq<Candle>, period: nat, multiplier: real, k: nat): (s: State)
    requires 1 <= period && k <= |data|
    ensures s.trend == Neutral <==> s.ref.None?
  {
    if k == 0 then State(None, Neutral)
    else
      var s := StateAfter(data, period, multiplier, k - 1);
      var i := k - 1;
      if i < period - 1 then s
      else
        var atr := AtrAt(data, period, i);
        Step(s, i == period - 1, data[i].close,
             UpperBand(data[i], atr, multiplier), LowerBand(data[i], atr, multiplier))
  }

  /** The point stored for candle i: null before the seed. */
  function PointAt(data: seq<Candle>, period: nat, multiplier: real, i: nat): (p: Option<Point>)
    requires 1 <= period && i < |data|
    ensures p.Some? <==> i >= period - 1
    ensures p.Some? ==> p.value.candle == data[i] && (p.value.value.None? <==> p.value.trend == Neutral)
  {
    if i < period - 1 then None
    else
      var s := StateAfter(data, period, multiplier, i + 1);
      Some(Point(s.ref, s.trend, data[i]))
  }

  /** Before the seed nothing happens. */
  lemma {:induction false} NothingBeforeSeed(data: seq<Candle>, period: nat, multiplier: real, k: nat)
    requires 1 <= period && k <= |data| && k < period
    ensures StateAfter(data, period, multiplier, k) == State(None, Neutral)
  {
    if k > 0 {
      NothingBeforeSeed(data, period, multiplier, k - 1);
    }
  }

  /** From the seed on, the trend is bullish or bearish and the reference is a number. */
  lemma {:induction false} TrendSettled(data: seq<Candle>, period: nat, multiplier: real, k: nat)
    requires 1 <= period <= k <= |data|
    ensures StateAfter(data, period, multiplier, k).trend != Neutral
    ensures StateAfter(data, period, multiplier, k).ref.Some?
  {
    if k > period {
      TrendSettled(data, period, multiplier, k - 1);
    }
  }

  /**
   * With period + 1 candles, a seed close above its upper band and a last close
   * no lower than the seed close, the latest point is bullish: the seed picks
   * bullish with the lower band as reference, and the last close is above it.
   */
  lemma RisingClosesStayBullish(data: seq<Candle>, period: nat, multiplier: real)
    requires 1 <= period && |data| == period + 1 && multiplier >= 0.0
    requires data[period - 1].close > UpperBand(data[period - 1], AtrAt(data, period, period - 1), multiplier)
    requires data[period].close >= data[period - 1].close
    ensures PointAt(data, period, multiplier, period).Some?
    ensures PointAt(data, period, multiplier, period).value.trend == Bullish
  {
    var atr := AtrAt(data, period, period - 1);
    NothingBeforeSeed(data, period, multiplier, period - 1);
    AtrNonNegative(data, period, period - 1);
    assert multiplier * atr >= 0.0;
    BandsOrdered(data[period - 1], atr, multiplier);
    var seeded := StateAfter(data, period, multiplier, period);
    assert seeded == State(Some(LowerBand(data[period - 1], atr, multiplier)), Bullish);
    assert data[period].close > RefNumber(seeded.ref);
  }

  /**
   * The latest point is null exactly when there are fewer candles than the
   * period; otherwise it carries a reference value and a trend other than
   * "neutral".
   */
  lemma LatestPoint(data: seq<Candle>, period: nat, multiplier: real)
    requires 1 <= period && |data| > 0
    ensures PointAt(data, period, multiplier, |data| - 1).None? <==> |data| < period
    ensures PointAt(data, period, multiplier, |data| - 1).Some? ==>
      var p := PointAt(data, period, multiplier, |data| - 1).value;
      p.trend != Neutral && p.value.Some?
  {
    if |data| >= period {
      TrendSettled(data, period, multiplier, |data|);
    }
  }

  /**
   * The body of the calculateSupertrend loop for candle i: nothing before the
   * first ATR; otherwise the bands, then the seed or the flip rule, and the
   * point of the candle.
   */
  method SupertrendAt(data: seq<Candle>, period: int, multiplier: real, atrArray: seq<Option<real>>, i: int,
                      ref: Option<real>, trend: Trend)
    returns (ref': Option<real>, trend': Trend, point: Option<Point>)
    requires 1 <= period && 0 <= i < |data|
    requires IsAtrSeries(data, period, atrArray)
    requires State(ref, trend) == StateAfter(data, period, multiplier, i)
    ensures State(ref', trend') == StateAfter(data, period, multiplier, i + 1)
    ensures point == PointAt(data, period, multiplier, i)
  {
    ref', trend' := ref, trend;
    if atrArray[i].None? {
      return ref', trend', None;
    }
    var atr := atrArray[i].value;
    var upperBand := UpperBand(data[i], atr, multiplier);
    var lowerBand := LowerBand(data[i], atr, multiplier);
    if i == period - 1 {
      trend' := if data[i].close > upperBand then Bullish else Bearish;
      ref' := Some(if trend' == Bullish then lowerBand else upperBand);
    } else if i > period - 1 {
      if data[i].close > RefNumber(ref) {
        trend' := Bullish;
        ref' := Some(lowerBand);
      } else if data[i].close < RefNumber(ref) {
        trend' := Bearish;
        ref' := Some(upperBand);
      }
    }
    point := Some(Point(ref', trend', data[i]));
  }

  /**
   * calculateSupertrend: fills one point per candle by index and returns the
   * last one (none for no candles).
   */
  method CalculateSupertrend(data: seq<Candle>, period: int, multiplier: real)
    returns (latest: seq<Option<Point>>)
    requires period >= 1
    ensures |data| == 0 ==> latest == []
    ensures |data| > 0 ==> latest == [PointAt(data, period, multiplier, |data| - 1)]
  {
    var atrs := CalculateAtr(data, period);
    var points := new Option<Point>[|data|](_ => None);
    var ref: Option<real> := None;
    var trend := Neutral;
    ghost var expected := seq(|data|, k requires 0 <= k < |data| => PointAt(data, period, multiplier, k));
    for i := 0 to |data|
      invariant State(ref, trend) == StateAfter(data, period, multiplier, i)
      invariant points[..i] == expected[..i]
      invariant forall k :: i <= k < |data| ==> points[k].None?
    {
      var point;
      ref, trend, point := SupertrendAt(data, period, multiplier, atrs, i, ref, trend);
      assert point == expected[i];
      if point.None? {
        assert points[..i + 1] == points[..i] + [point];
        continue;
      }
      points[i] := point;
      assert points[..i + 1] == points[..i] + [point];
    }
    assert points[..] == expected;
    latest := points[Max(|data| - 1, 0)..];
  }
}
