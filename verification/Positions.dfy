/**
 * The Entry/Exit position logic of the PATCH handler of the redirect route
 * (src/app/api/trading/redirect/route.ts): for every 3-minute candle of a day
 * it builds a trade from the previous day's bar, classifies the candle, and
 * compares the result with the company's last saved trade to decide whether
 * to save it, and with which type.
 *
 * The per-candle classifier and the exit check the handler calls are not
 * defined in Trade.ts; they are parameters (`Rules`) that
 * return a signal and a reason. The trade store is the company's saved trades
 * in the order they were saved; the last one is "the last trade".
 */
module Positions {
  import opened Js
  import opened Decimal
  import opened Cpr
  import opened TradeModel
  import opened Indicators

  /** The classifier's signals and their stored text. */
  datatype Signal = Buy | Sell | Exit | NoAction

  function SignalText(s: Signal): string {
    match s
    case Buy => "Buy"
    case Sell => "Sell"
    case Exit => "Exit"
    case NoAction => "No Action"
  }

  /** The `type` of a saved trade: "Entry" or "Exit". */
  datatype Kind = EntryKind | ExitKind

  /** A signal with the reason given for it. */
  datatype Verdict = Verdict(signal: Signal, reason: Option<string>)

  /**
   * The two calls the handler makes on each trade and that Trade.ts does not
   * define: the classifier, given the trade's levels, price and the buffer,
   * and the exit check, given also the last trade's signal and the candle's open.
   */
  datatype Rules = Rules(
    classify: (Levels, real, int) -> Verdict,
    exitCheck: (Levels, real, string, int, real) -> Verdict)

  /** The previous day's bar. */
  datatype Bar = Bar(high: real, low: real, close: real)

  /**
   * A saved trade as the position logic sees it. `kind` is `None` for trades
   * saved without a type (by the trades route, for instance).
   */
  datatype SavedTrade = SavedTrade(
    company: string, price: real, levels: Levels, createdAt: int,
    signal: string, kind: Option<Kind>, reason: Option<string>)

  /**
   * The buffer both routes compute from a bar: six basis points of the rounded
   * midpoint, rounded to cents, then to the nearest integer.
   */
  function BufferValue(high: real, low: real): (b: int)
    ensures high + low >= 0.0 ==> b >= 0
  {
    var bc := ToFixed((high + low) / 2.0, 2);
    var percentageValue := ToFixed(bc * 0.0006, 2);
    MathRound(percentageValue)
  }

  /** The buffer is within about half a point of 0.06% of the bar's midpoint. */
  lemma BufferNearSixBasisPoints(high: real, low: real)
    ensures -0.51 <= BufferValue(high, low) as real - 0.0006 * ((high + low) / 2.0) <= 0.51
  {
    var mid := (high + low) / 2.0;
    var bc := ToFixed(mid, 2);
    ToFixedTwoError(mid);
    ToFixedTwoError(bc * 0.0006);
  }

  /** The bar high 21801.45, low 16828.35 gives a buffer of 12. */
  lemma BufferOfReferenceBar()
    ensures BufferValue(21801.45, 16828.35) == 12
  {
    var bc := ToFixed((21801.45 + 16828.35) / 2.0, 2);
    assert HasDecimals(19314.9, 2) by {
      assert Scale(19314.9, 2) == 10.0 * Scale(19314.9, 1) == 10.0 * (10.0 * Scale(19314.9, 0)) == 1931490.0;
    }
    ToFixedExact(19314.9, 2);
    assert bc == 19314.9;
    ToFixedTwo(bc * 0.0006);
    assert (100.0 * (bc * 0.0006) + 0.5).Floor == 1159;
  }

  /** The type a Buy or Sell takes after `last`: the opposite of an Entry, otherwise Entry. */
  function NextKind(last: SavedTrade): (k: Kind)
    ensures last.kind.Some? ==> Some(k) != last.kind
    ensures last.kind.None? ==> k == EntryKind
  {
    if last.kind == Some(EntryKind) then ExitKind else EntryKind
  }

  /** The exit override: the exit check says Exit for a fresh Buy or Sell after a non-Exit trade. */
  predicate Overrides(signal: Signal, last: SavedTrade, exit: Verdict): (o: bool)
    ensures o ==> (signal == Buy || signal == Sell) && exit.signal == Exit
  {
    && signal != Exit
    && exit.signal == Exit
    && signal != NoAction
    && last.signal != "Exit"
    && last.signal != SignalText(signal)
  }

  datatype Decision = Skip | Save(signal: string, kind: Kind, reason: Option<string>)

  /**
   * What the handler does with one classified candle, given the last trade
   * (`exit` is only consulted when there is one).
   */
  function Decide(v: Verdict, last: Option<SavedTrade>, exit: Verdict): (d: Decision)
    // only Buy, Sell and Exit are ever saved, and never the last trade's signal again
    ensures d.Save? ==> d.signal in {"Buy", "Sell", "Exit"}
    ensures d.Save? && last.Some? ==> d.signal != last.value.signal
    // the override comes first: Exit, typed Exit, with the exit check's reason
    ensures last.Some? && Overrides(v.signal, last.value, exit) ==> d == Save("Exit", ExitKind, exit.reason)
    // with no last trade, Buy and Sell open a position and anything else is skipped
    ensures last.None? ==>
      d == (if v.signal == Buy || v.signal == Sell then Save(SignalText(v.signal), EntryKind, v.reason) else Skip)
    // an Exit is typed Exit; a Buy or Sell flips the type of the last trade
    ensures d.Save? && d.signal == "Exit" ==> d.kind == ExitKind && (v.signal == Exit || exit.signal == Exit)
    ensures d.Save? && d.signal != "Exit" && last.Some? ==> d.kind == NextKind(last.value)
    // a signal equal to the last trade's is skipped unless the override fires
    ensures last.Some? && last.value.signal == SignalText(v.signal) ==> d == Skip
    // without the override, a trade exists: a Buy, Sell or Exit that differs from it is saved, nothing else
    ensures last.Some? && !Overrides(v.signal, last.value, exit) ==>
      (d.Save? <==> v.signal != NoAction && SignalText(v.signal) != last.value.signal)
    // without the override, what is saved is the classified signal with its reason
    ensures d.Save? && !(last.Some? && Overrides(v.signal, last.value, exit)) ==>
      d.signal == SignalText(v.signal) && d.reason == v.reason
  {
    if last.Some? && Overrides(v.signal, last.value, exit) then
      Save("Exit", ExitKind, exit.reason)
    else if v.signal == Buy || v.signal == Sell || v.signal == Exit then
      if last.Some? then
        if last.value.signal != SignalText(v.signal) then
          Save(SignalText(v.signal), if v.signal == Exit then ExitKind else NextKind(last.value), v.reason)
        else Skip
      else if v.signal != Exit then Save(SignalText(v.signal), EntryKind, v.reason)
      else Skip
    else Skip
  }

  function LastOf(log: seq<SavedTrade>): Option<SavedTrade> {
    if |log| == 0 then None else Some(log[|log| - 1])
  }

  /** What one candle does to the saved trades. */
  function Apply(log: seq<SavedTrade>, rules: Rules, company: string, bar: Bar, buffer: int, c: Candle)
    : (r: seq<SavedTrade>)
    ensures r == log || (|r| == |log| + 1 && r[..|log|] == log)
  {
    var levels := CprLevels(bar.high, bar.low, bar.close, 2);
    var v := rules.classify(levels, c.close, buffer);
    var last := LastOf(log);
    var exit := if last.Some? then rules.exitCheck(levels, c.close, last.value.signal, buffer, c.open)
                else Verdict(NoAction, None);
    match Decide(v, last, exit)
    case Skip => log
    case Save(signal, kind, reason) =>
      log + [SavedTrade(company, c.close, levels, c.date, signal, Some(kind), reason)]
  }

  /** The saved trades after the candles, in order. Earlier trades are never touched. */
  function Replay(log: seq<SavedTrade>, rules: Rules, company: string, bar: Bar, buffer: int, cs: seq<Candle>)
    : (r: seq<SavedTrade>)
    ensures |log| <= |r| <= |log| + |cs| && r[..|log|] == log
  {
    if |cs| == 0 then log
    else Apply(Replay(log, rules, company, bar, buffer, cs[..|cs| - 1]), rules, company, bar, buffer, cs[|cs| - 1])
  }

  /** No saved trade from index `from` on repeats the signal of the trade before it. */
  predicate NoRepeatsFrom(log: seq<SavedTrade>, from: nat) {
    forall i :: from <= i < |log| && 0 < i ==> log[i].signal != log[i - 1].signal
  }

  /**
   * The type rule each trade from index `from` on obeys: its signal is Buy, Sell
   * or Exit; an Exit is typed Exit; a Buy or Sell is typed Entry when it is the
   * first trade and otherwise flips the type of the trade before it.
   */
  predicate TypedFrom(log: seq<SavedTrade>, from: nat) {
    forall i :: from <= i < |log| ==> TypedAt(log, i)
  }

  predicate TypedAt(log: seq<SavedTrade>, i: nat)
    requires i < |log|
  {
    && log[i].signal in {"Buy", "Sell", "Exit"}
    && log[i].kind == Some(
         if log[i].signal == "Exit" then ExitKind
         else if i == 0 then EntryKind
         else NextKind(log[i - 1]))
  }

  /** One candle keeps the rules: a trade it appends differs from its predecessor and follows the type rule. */
  lemma ApplyKeepsRules(prev: seq<SavedTrade>, from: nat, rules: Rules, company: string, bar: Bar,
                        buffer: int, c: Candle)
    requires from <= |prev| && NoRepeatsFrom(prev, from) && TypedFrom(prev, from)
    ensures var r := Apply(prev, rules, company, bar, buffer, c);
      NoRepeatsFrom(r, from) && TypedFrom(r, from)
  {
    var r := Apply(prev, rules, company, bar, buffer, c);
    if r != prev {
      var levels := CprLevels(bar.high, bar.low, bar.close, 2);
      var last := LastOf(prev);
      var exit := if last.Some? then rules.exitCheck(levels, c.close, last.value.signal, buffer, c.open)
                  else Verdict(NoAction, None);
      var d := Decide(rules.classify(levels, c.close, buffer), last, exit);
      assert d.Save?;
      assert r == prev + [SavedTrade(company, c.close, levels, c.date, d.signal, Some(d.kind), d.reason)];
      forall i | from <= i < |r| && 0 < i
        ensures r[i].signal != r[i - 1].signal
      {
        if i < |prev| {
          assert r[i] == prev[i] && r[i - 1] == prev[i - 1];
        }
      }
      forall i | from <= i < |r|
        ensures TypedAt(r, i)
      {
        if i < |prev| {
          assert TypedAt(prev, i);
          assert r[i] == prev[i];
          if i > 0 {
            assert r[i - 1] == prev[i - 1];
          }
        } else if i > 0 {
          assert r[i - 1] == prev[|prev| - 1] == last.value;
        }
      }
    }
  }

  /** Every trade the handler appends differs in signal from its predecessor and follows the type rule. */
  lemma {:induction false} ReplayKeepsRules(log: seq<SavedTrade>, rules: Rules, company: string, bar: Bar,
                                            buffer: int, cs: seq<Candle>)
    ensures var r := Replay(log, rules, company, bar, buffer, cs);
      NoRepeatsFrom(r, |log|) && TypedFrom(r, |log|)
  {
    if |cs| > 0 {
      var prev := Replay(log, rules, company, bar, buffer, cs[..|cs| - 1]);
      ReplayKeepsRules(log, rules, company, bar, buffer, cs[..|cs| - 1]);
      ApplyKeepsRules(prev, |log|, rules, company, bar, buffer, cs[|cs| - 1]);
    }
  }

  /** A log that obeys the type rule and holds no Exit alternates Entry, Exit, Entry, … */
  lemma {:induction false} AlternatesWithoutExits(log: seq<SavedTrade>)
    requires TypedFrom(log, 0)
    requires forall i :: 0 <= i < |log| ==> log[i].signal != "Exit"
    ensures forall i :: 0 <= i < |log| ==> log[i].kind == Some(if i % 2 == 0 then EntryKind else ExitKind)
  {
    if |log| > 0 {
      var init := log[..|log| - 1];
      assert TypedFrom(init, 0) by {
        forall i | 0 <= i < |init|
          ensures TypedAt(init, i)
        {
          assert TypedAt(log, i);
          assert init[i] == log[i];
          if i > 0 {
            assert init[i - 1] == log[i - 1];
          }
        }
      }
      AlternatesWithoutExits(init);
      forall i | 0 <= i < |log|
        ensures log[i].kind == Some(if i % 2 == 0 then EntryKind else ExitKind)
      {
        assert TypedAt(log, i);
        if i < |init| {
          assert log[i] == init[i];
        } else if i > 0 {
          assert log[i - 1] == init[i - 1];
          assert log[i - 1].kind == Some(if (i - 1) % 2 == 0 then EntryKind else ExitKind);
        }
      }
    }
  }

  /** No trade from index `from` on is an Exit. */
  predicate NoExitFrom(log: seq<SavedTrade>, from: nat) {
    forall i :: from <= i < |log| ==> log[i].signal != "Exit"
  }

  /** When neither rule ever says Exit, the handler never saves an Exit. */
  lemma {:induction false} ReplayWithoutExits(log: seq<SavedTrade>, rules: Rules, company: string, bar: Bar,
                                              buffer: int, cs: seq<Candle>)
    requires forall lv, p, b :: rules.classify(lv, p, b).signal != Exit
    requires forall lv, p, s, b, o :: rules.exitCheck(lv, p, s, b, o).signal != Exit
    ensures NoExitFrom(Replay(log, rules, company, bar, buffer, cs), |log|)
  {
    if |cs| > 0 {
      var prev := Replay(log, rules, company, bar, buffer, cs[..|cs| - 1]);
      ReplayWithoutExits(log, rules, company, bar, buffer, cs[..|cs| - 1]);
      var r := Apply(prev, rules, company, bar, buffer, cs[|cs| - 1]);
      var c := cs[|cs| - 1];
      var levels := CprLevels(bar.high, bar.low, bar.close, 2);
      var last := LastOf(prev);
      var exit := if last.Some? then rules.exitCheck(levels, c.close, last.value.signal, buffer, c.open)
                  else Verdict(NoAction, None);
      var v := rules.classify(levels, c.close, buffer);
      assert v.signal != Exit && exit.signal != Exit;
      forall i | |log| <= i < |r|
        ensures r[i].signal != "Exit"
      {
        if i < |prev| {
          assert r[i] == prev[i];
        } else {
          var d := Decide(v, last, exit);
          assert r != prev;
          assert d.Save?;
          assert r[i] == SavedTrade(company, c.close, levels, c.date, d.signal, Some(d.kind), d.reason);
          assert d.signal != "Exit";
        }
      }
    }
  }

  /**
   * Starting a day with no saved trades and rules that never say Exit, the
   * saved trades are Buys and Sells alternating Entry, Exit, Entry, …
   */
  lemma FreshDayAlternates(rules: Rules, company: string, bar: Bar, buffer: int, cs: seq<Candle>)
    requires forall lv, p, b :: rules.classify(lv, p, b).signal != Exit
    requires forall lv, p, s, b, o :: rules.exitCheck(lv, p, s, b, o).signal != Exit
    ensures var r := Replay([], rules, company, bar, buffer, cs);
      forall i :: 0 <= i < |r| ==>
        && r[i].signal in {"Buy", "Sell"}
        && r[i].kind == Some(if i % 2 == 0 then EntryKind else ExitKind)
  {
    var r := Replay([], rules, company, bar, buffer, cs);
    ReplayKeepsRules([], rules, company, bar, buffer, cs);
    ReplayWithoutExits([], rules, company, bar, buffer, cs);
    AlternatesWithoutExits(r);
    forall i | 0 <= i < |r|
      ensures r[i].signal in {"Buy", "Sell"}
    {
      assert TypedAt(r, i);
    }
  }

  /** A candle at the given close; the other fields play no part in the rules below. */
  function CandleAt(close: real): Candle {
    Candle(0, 0.0, 0.0, 0.0, close)
  }

  /** The example classifier: Buy below 3 and from 5 on, Sell in between; the exit check never fires. */
  function ExampleRules(): Rules {
    Rules((lv, p, b) => Verdict(if p < 3.0 || p >= 5.0 then Buy else Sell, None),
          (lv, p, s, b, o) => Verdict(NoAction, None))
  }

  function ExampleCandles(): seq<Candle> {
    [CandleAt(1.0), CandleAt(2.0), CandleAt(3.0), CandleAt(4.0), CandleAt(5.0)]
  }

  /** The first three candles of the example: Buy saved, Buy skipped, Sell saved. */
  lemma ExampleFirstThree(bar: Bar, buffer: int)
    ensures var r := Replay([], ExampleRules(), "ACME", bar, buffer, ExampleCandles()[..3]);
      |r| == 2 && r[0].signal == "Buy" && r[1].signal == "Sell"
  {
    var rules, cs := ExampleRules(), ExampleCandles();
    var r1 := Replay([], rules, "ACME", bar, buffer, cs[..1]);
    assert cs[..1][..0] == [];
    assert |r1| == 1 && r1[0].signal == "Buy";
    var r2 := Replay([], rules, "ACME", bar, buffer, cs[..2]);
    assert cs[..2][..1] == cs[..1];
    assert r2 == r1;
    assert cs[..3][..2] == cs[..2];
  }

  /**
   * Classified Buy, Buy, Sell, Sell, Buy with no exit check firing, a fresh day
   * saves Buy (Entry), Sell (Exit), Buy (Entry): the repeats are skipped.
   */
  lemma BuyBuySellSellBuy(bar: Bar, buffer: int)
    ensures var r := Replay([], ExampleRules(), "ACME", bar, buffer, ExampleCandles());
      && |r| == 3
      && r[0].signal == "Buy" && r[0].kind == Some(EntryKind)
      && r[1].signal == "Sell" && r[1].kind == Some(ExitKind)
      && r[2].signal == "Buy" && r[2].kind == Some(EntryKind)
  {
    var rules, cs := ExampleRules(), ExampleCandles();
    var r3 := Replay([], rules, "ACME", bar, buffer, cs[..3]);
    ExampleFirstThree(bar, buffer);
    var r4 := Replay([], rules, "ACME", bar, buffer, cs[..4]);
    assert cs[..4][..3] == cs[..3];
    assert r4 == r3;
    var r5 := Replay([], rules, "ACME", bar, buffer, cs);
    assert cs[..4] == cs[..|cs| - 1];
    assert |r5| == 3 && r5[..2] == r3 && r5[2].signal == "Buy";
    FreshDayAlternates(rules, "ACME", bar, buffer, cs);
  }

  /** The company's saved trades, oldest first. */
  class TradeStore {
    var saved: seq<SavedTrade>

    constructor (saved: seq<SavedTrade>)
      ensures this.saved == saved
    {
      this.saved := saved;
    }

    /** `Trade.findOne({ company }).sort({ createdAt: -1 })` */
    function LastTrade(): (last: Option<SavedTrade>)
      reads this
      ensures last.None? <==> saved == []
      ensures last.Some? ==> last.value == saved[|saved| - 1]
    {
      LastOf(saved)
    }

    /** `trade.save()` of a new trade. */
    method Save(t: SavedTrade)
      modifies this`saved
      ensures saved == old(saved) + [t]
    {
      saved := saved + [t];
    }
  }

  /** One iteration of the PATCH loop: build and classify the trade, then save it or skip it. */
  method ProcessCandle(store: TradeStore, rules: Rules, company: string, bar: Bar, bufferValue: int, candle: Candle)
    modifies store`saved
    ensures store.saved == Apply(old(store.saved), rules, company, bar, bufferValue, candle)
  {
    var trade := new Trade(bar.high, bar.low, bar.close, candle.close, company);
    var levels := trade.CalculateLevels();
    var verdict := rules.classify(levels, trade.price, bufferValue);
    var lastTrade := store.LastTrade();
    var exit := Verdict(NoAction, None);
    if lastTrade.Some? {
      exit := rules.exitCheck(levels, trade.price, lastTrade.value.signal, bufferValue, candle.open);
      if Overrides(verdict.signal, lastTrade.value, exit) {
        store.Save(SavedTrade(company, trade.price, levels, candle.date, "Exit", Some(ExitKind), exit.reason));
        return;
      }
    }
    assert Decide(verdict, lastTrade, exit) == Decide(verdict, LastOf(old(store.saved)), exit);
    if verdict.signal == Buy || verdict.signal == Sell || verdict.signal == Exit {
      var kind: Kind;
      if lastTrade.Some? {
        if lastTrade.value.signal != SignalText(verdict.signal) {
          kind := if verdict.signal == Exit then ExitKind else NextKind(lastTrade.value);
        } else {
          return;
        }
      } else {
        if verdict.signal != Exit {
          kind := EntryKind;
        } else {
          return;
        }
      }
      store.Save(SavedTrade(company, trade.price, levels, candle.date,
                            SignalText(verdict.signal), Some(kind), verdict.reason));
    }
  }

  /**
   * PATCH: 400 when there are no candles; 500 when there is no previous-day bar
   * (destructuring the missing first element throws); otherwise every candle
   * goes through the save rule in order, and the store ends as Replay says.
   */
  method Patch(store: TradeStore, rules: Rules, company: string, candles: seq<Candle>, dayBars: seq<Bar>)
    returns (status: int)
    modifies store`saved
    ensures candles == [] ==> status == 400 && store.saved == old(store.saved)
    ensures candles != [] && dayBars == [] ==> status == 500 && store.saved == old(store.saved)
    ensures candles != [] && dayBars != [] ==>
      && status == 200
      && store.saved == Replay(old(store.saved), rules, company, dayBars[0],
                               BufferValue(dayBars[0].high, dayBars[0].low), candles)
  {
    if |candles| == 0 {
      return 400;
    }
    if |dayBars| == 0 {
      return 500;
    }
    var bufferValue := BufferValue(dayBars[0].high, dayBars[0].low);
    for i := 0 to |candles|
      invariant store.saved == Replay(old(store.saved), rules, company, dayBars[0], bufferValue, candles[..i])
    {
      assert candles[..i + 1][..i] == candles[..i];
      ProcessCandle(store, rules, company, dayBars[0], bufferValue, candles[i]);
    }
    assert candles[..|candles|] == candles;
    status := 200;
  }
}
