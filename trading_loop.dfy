/**
 * The trading controller (backend/app/main.py): the bounded in-memory log, the broker
 * chosen at start-up, the position restored from the last stored trade, and one
 * iteration of the trading loop over a paper broker and the risk engine.
 *
 * Each iteration is a step over explicit state. The loop's own locals (the price window,
 * the time of the last trade, the error counter) are kept next to the shared state.
 * Clock readings, the shared market price and any exception raised in the iteration
 * are inputs of the step.
 */
module Controller {
  import opened Wrappers
  import opened Orders
  import opened Paper
  import opened Risk
  import opened RealArith

  // ---------------------------------------------------------------------------
  // Strategy parameters

  const Symbol: string := "btcbrl"
  /** `ma_short_period`: 30 ticks */
  const ShortPeriod: nat := 30
  /** `ma_long_period`: 120 ticks */
  const LongPeriod: nat := 120
  /** The window keeps five prices more than the long average needs. */
  const WindowCap: nat := LongPeriod + 5
  /** `signal_threshold`: the 0.3% buffer between the two averages */
  const SignalThreshold: real := 0.003
  /** `cooldown_seconds`: no new buy within 30 minutes of the last trade */
  const TradeCooldown: real := 1800.0
  /** A buy needs more than this balance ... */
  const MinBalance: real := 10.0
  /** ... and spends this share of it. */
  const BuyShare: real := 0.98
  /** Holdings at or below this are treated as no position. */
  const DustHoldings: real := 0.00001
  /** The protective sell needs the price this far above the long average. */
  const Overextension: real := 1.02
  /** The fixed take-profit target. */
  const TakeProfitPct: real := 0.04
  /** A price older than this many seconds is stale. */
  const StaleSeconds: real := 20.0
  /** The heartbeat line is logged at most once per 30 seconds. */
  const HeartbeatSeconds: real := 30.0
  /** The loop stops at the third error in a row. */
  const MaxErrors: nat := 3
  /** The in-memory log keeps the 50 newest lines. */
  const LogCap: nat := 50
  /** The paper broker's starting balance in both start-up paths. */
  const PaperStartBalance: real := 120.0

  // ---------------------------------------------------------------------------
  // The bounded log

  /** `f"[{timestamp}] [{level}] {message}"` */
  function LogLine(stamp: string, level: string, message: string): string {
    "[" + stamp + "] [" + level + "] " + message
  }

  /** `log`: insert at the front, then drop the last line when there are more than 50. */
  function PushLog(logs: seq<string>, line: string): seq<string> {
    var grown := [line] + logs;
    if |grown| > LogCap then grown[..|grown| - 1] else grown
  }

  /** The log after appending `lines` one by one, oldest first. */
  function PushAll(logs: seq<string>, lines: seq<string>): seq<string>
    decreases |lines|
  {
    if lines == [] then logs else PushLog(PushAll(logs, lines[..|lines| - 1]), lines[|lines| - 1])
  }

  function Reverse(s: seq<string>): seq<string>
    decreases |s|
  {
    if s == [] then [] else [s[|s| - 1]] + Reverse(s[..|s| - 1])
  }

  /** The first `n` elements of `s`, or all of it when it is shorter. */
  function Newest(s: seq<string>, n: nat): seq<string> {
    if |s| <= n then s else s[..n]
  }

  /**
   * One line: it becomes the first line, the others follow in their old order, and only
   * the oldest line can drop out, only when the log was full.
   */
  lemma PushLogBounded(logs: seq<string>, line: string)
    requires |logs| <= LogCap
    ensures var r := PushLog(logs, line);
      |r| == (if |logs| < LogCap then |logs| + 1 else LogCap)
      && r[0] == line && r[1..] == logs[..|r| - 1]
  {
  }

  /** After any number of lines the log holds the 50 newest, newest first. */
  lemma {:induction false} PushAllKeepsNewest(logs: seq<string>, lines: seq<string>)
    requires |logs| <= LogCap
    ensures PushAll(logs, lines) == Newest(Reverse(lines) + logs, LogCap)
    decreases |lines|
  {
    if lines != [] {
      var n := |lines| - 1;
      PushAllKeepsNewest(logs, lines[..n]);
      var before := Reverse(lines[..n]) + logs;
      assert Reverse(lines) + logs == [lines[n]] + before;
      var grown := [lines[n]] + Newest(before, LogCap);
      if |before| > LogCap {
        assert grown[..|grown| - 1] == ([lines[n]] + before)[..LogCap];
      }
    }
  }

  // ---------------------------------------------------------------------------
  // Broker selection at start-up

  datatype BrokerMode = PaperMode | LiveMode

  /** What `GlobalSystemState.__init__` ends with. */
  datatype Selection = Selection(mode: BrokerMode, fatalError: Option<string>, paperBalance: real)

  function UpperChar(c: char): char {
    if 'a' <= c <= 'z' then (c as int - 'a' as int + 'A' as int) as char else c
  }

  /** `str.upper` on ASCII letters. */
  function Upper(s: string): (r: string)
    ensures |r| == |s|
    decreases |s|
  {
    if s == [] then [] else [UpperChar(s[0])] + Upper(s[1..])
  }

  /**
   * The mode comes from `TRADING_MODE` (absent: `PAPER`), compared case-insensitively
   * with `LIVE`. `liveInitError` is the exception the live broker's constructor raised,
   * if any; then the paper broker with 120 is used instead and the error is kept.
   */
  function SelectBroker(env: Option<string>, liveInitError: Option<string>): Selection {
    var mode := Upper(env.GetOr("PAPER"));
    if mode == "LIVE" then
      match liveInitError
      case None => Selection(LiveMode, None, 0.0)
      case Some(e) => Selection(PaperMode, Some(e), PaperStartBalance)
    else Selection(PaperMode, None, PaperStartBalance)
  }

  lemma UpperOfLive(s: string)
    requires |s| == 4
    requires s[0] in {'l', 'L'} && s[1] in {'i', 'I'} && s[2] in {'v', 'V'} && s[3] in {'e', 'E'}
    ensures Upper(s) == "LIVE"
  {
    assert Upper(s) == [UpperChar(s[0])] + Upper(s[1..]);
    assert Upper(s[1..]) == [UpperChar(s[1])] + Upper(s[2..]);
    assert Upper(s[2..]) == [UpperChar(s[2])] + Upper(s[3..]);
    assert Upper(s[3..]) == [UpperChar(s[3])] + Upper(s[4..]);
  }

  /**
   * Live trading is chosen only when the variable spells LIVE in any letter case and the
   * live broker started; every other outcome is a paper broker with 120, carrying the
   * start-up error when the live broker failed.
   */
  lemma SelectionOutcome(env: Option<string>, liveInitError: Option<string>)
    ensures var r := SelectBroker(env, liveInitError);
      (r.mode == LiveMode <==> env.Some? && Upper(env.value) == "LIVE" && liveInitError.None?)
      && (r.mode == PaperMode ==> r.paperBalance == PaperStartBalance)
      && (r.fatalError.Some? <==> env.Some? && Upper(env.value) == "LIVE" && liveInitError.Some?)
  {
    if env.None? {
      assert Upper("PAPER") == "PAPER" by {
        assert Upper("PAPER") == [UpperChar('P')] + Upper("APER");
        assert Upper("APER") == [UpperChar('A')] + Upper("PER");
        assert Upper("PER") == [UpperChar('P')] + Upper("ER");
        assert Upper("ER") == [UpperChar('E')] + Upper("R");
        assert Upper("R") == [UpperChar('R')] + Upper("");
      }
    }
  }

  /** Any letter case of "live" selects the live broker when it starts. */
  lemma LiveInAnyCase(s: string)
    requires |s| == 4
    requires s[0] in {'l', 'L'} && s[1] in {'i', 'I'} && s[2] in {'v', 'V'} && s[3] in {'e', 'E'}
    ensures SelectBroker(Some(s), None).mode == LiveMode
  {
    UpperOfLive(s);
  }

  // ---------------------------------------------------------------------------
  // Restoring the position at start-up

  /** The newest stored trade, as `startup_event` reads it. */
  datatype TradeRow = TradeRow(side: string, status: string, quantity: real, entryPrice: real)

  /** What the restore leaves: the entry price and the broker's balance and holdings. */
  datatype Restored = Restored(entryPrice: real, balance: real, holdings: real)

  predicate ReopensPosition(last: Option<TradeRow>) {
    last.Some? && last.value.side == "buy" && last.value.status == "filled"
  }

  /**
   * The restore rule. Only a filled buy as the newest trade restores anything. A live
   * broker keeps its own balance and holdings and the entry is kept only while it holds
   * coins; a paper broker gets the trade's quantity as holdings and pays its cost, but
   * only when the balance is above half that cost.
   */
  function Restore(mode: BrokerMode, r: Restored, last: Option<TradeRow>): Restored {
    if !ReopensPosition(last) then r
    else
      var row := last.value;
      var cost := row.quantity * row.entryPrice;
      match mode
      case LiveMode => r.(entryPrice := if r.holdings > 0.0 then row.entryPrice else 0.0)
      case PaperMode =>
        Restored(row.entryPrice, if r.balance > cost * 0.5 then r.balance - cost else r.balance, row.quantity)
  }

  /** A paper restore either pays the full cost or nothing, and sets holdings to the trade's quantity. */
  lemma PaperRestore(r: Restored, last: Option<TradeRow>)
    requires ReopensPosition(last)
    ensures var row := last.value;
      var cost := row.quantity * row.entryPrice;
      var after := Restore(PaperMode, r, last);
      after.entryPrice == row.entryPrice && after.holdings == row.quantity
      && (r.balance > cost * 0.5 ==> after.balance == r.balance - cost)
      && (r.balance <= cost * 0.5 ==> after.balance == r.balance)
  {
  }

  /** Without a filled buy as the newest trade nothing is restored, in either mode. */
  lemma RestoreNeedsFilledBuy(mode: BrokerMode, r: Restored, last: Option<TradeRow>)
    requires !ReopensPosition(last)
    ensures Restore(mode, r, last) == r
  {
  }

  /** A live restore never touches the funds, and keeps the entry price exactly when coins are held. */
  lemma LiveRestore(r: Restored, last: Option<TradeRow>)
    requires ReopensPosition(last)
    ensures var after := Restore(LiveMode, r, last);
      after.balance == r.balance && after.holdings == r.holdings
      && (after.entryPrice == last.value.entryPrice <==> r.holdings > 0.0 || last.value.entryPrice == 0.0)
  {
  }

  /**
   * The paper restore can overdraw: with a balance between half the cost and the full
   * cost it still pays the full cost. 80 against a cost of 100 leaves -20.
   */
  lemma RestoreMayOverdraw()
    ensures var last := Some(TradeRow("buy", "filled", 0.001, 100000.0));
      Restore(PaperMode, Restored(0.0, 80.0, 0.0), last) == Restored(100000.0, -20.0, 0.001)
  {
    assert 0.001 * 100000.0 == 100.0;
  }

  /** With a balance that covers the cost, the paper restore keeps the balance non-negative. */
  lemma RestoreCoveredKeepsBalance(r: Restored, last: Option<TradeRow>)
    requires ReopensPosition(last)
    requires last.value.quantity >= 0.0 && last.value.entryPrice >= 0.0
    requires r.balance >= last.value.quantity * last.value.entryPrice
    ensures Restore(PaperMode, r, last).balance >= 0.0
  {
  }

  // ---------------------------------------------------------------------------
  // The price window and the moving averages

  /** Append the tick's price, then drop the oldest price when there are more than 125. */
  function Window(history: seq<real>, price: real): seq<real> {
    var grown := history + [price];
    if |grown| > WindowCap then grown[1..] else grown
  }

  /** The window after a run of prices, oldest first. */
  function Slide(history: seq<real>, prices: seq<real>): seq<real>
    decreases |prices|
  {
    if prices == [] then history else Window(Slide(history, prices[..|prices| - 1]), prices[|prices| - 1])
  }

  /** The last `n` elements of `s`, or all of it when it is shorter. */
  function Latest(s: seq<real>, n: nat): seq<real> {
    if |s| <= n then s else s[|s| - n..]
  }

  /** One price: it lands at the end, and only the oldest price can drop out. */
  lemma WindowKeepsLatest(history: seq<real>, price: real)
    requires |history| <= WindowCap
    ensures Window(history, price) == Latest(history + [price], WindowCap)
    ensures |Window(history, price)| <= WindowCap
  {
  }

  /** After any run of prices the window holds the newest 125 prices seen, in order. */
  lemma {:induction false} SlideKeepsLatest(history: seq<real>, prices: seq<real>)
    requires |history| <= WindowCap
    ensures Slide(history, prices) == Latest(history + prices, WindowCap)
    decreases |prices|
  {
    if prices == [] {
      assert history + prices == history;
    } else {
      SlideKeepsLatest(history, prices[..|prices| - 1]);
      SlideOneMore(history, prices);
    }
  }

  /** The inductive step of `SlideKeepsLatest`: one more price after a window that holds the newest prices. */
  lemma SlideOneMore(history: seq<real>, prices: seq<real>)
    requires prices != []
    requires Slide(history, prices[..|prices| - 1]) == Latest(history + prices[..|prices| - 1], WindowCap)
    ensures Slide(history, prices) == Latest(history + prices, WindowCap)
  {
    var init, x := prices[..|prices| - 1], prices[|prices| - 1];
    WindowOfLatest(history + init, x, Slide(history, init));
    AppendLast(history, prices);
  }

  /** A window holding the newest prices of `s`, given one more price, holds the newest of `s + [x]`. */
  lemma WindowOfLatest(s: seq<real>, x: real, slid: seq<real>)
    requires slid == Latest(s, WindowCap)
    ensures Window(slid, x) == Latest(s + [x], WindowCap)
  {
    WindowKeepsLatest(slid, x);
    LatestAppend(s, x, WindowCap);
  }

  lemma AppendLast(history: seq<real>, prices: seq<real>)
    requires prices != []
    ensures (history + prices[..|prices| - 1]) + [prices[|prices| - 1]] == history + prices
  {
    assert prices == prices[..|prices| - 1] + [prices[|prices| - 1]];
  }

  /** Keeping the newest `n` before appending one more keeps the same newest `n` after it. */
  lemma LatestAppend(s: seq<real>, x: real, n: nat)
    requires n > 0
    ensures Latest(Latest(s, n) + [x], n) == Latest(s + [x], n)
  {
    if |s| > n {
      var tail := s[|s| - n..];
      assert (tail + [x])[1..] == s[|s| - n + 1..] + [x];
      assert (s + [x])[|s| + 1 - n..] == s[|s| - n + 1..] + [x];
    }
  }

  function Sum(s: seq<real>): real
    decreases |s|
  {
    if s == [] then 0.0 else Sum(s[..|s| - 1]) + s[|s| - 1]
  }

  /** `sum(price_history[-n:]) / n` */
  function Sma(window: seq<real>, n: nat): real
    requires 0 < n <= |window|
  {
    Sum(window[|window| - n..]) / (n as real)
  }

  predicate AllBetween(s: seq<real>, lo: real, hi: real) {
    forall i :: 0 <= i < |s| ==> lo <= s[i] <= hi
  }

  lemma {:induction false} SumWithinTimes(s: seq<real>, lo: real, hi: real)
    requires AllBetween(s, lo, hi)
    ensures Times(lo, |s|) <= Sum(s) <= Times(hi, |s|)
    decreases |s|
  {
    if s != [] {
      assert AllBetween(s[..|s| - 1], lo, hi);
      SumWithinTimes(s[..|s| - 1], lo, hi);
    }
  }

  /** A sum of `n` prices within `[lo, hi]` lies between `n * lo` and `n * hi`. */
  lemma SumBetween(s: seq<real>, lo: real, hi: real)
    requires AllBetween(s, lo, hi)
    ensures lo * (|s| as real) <= Sum(s) <= hi * (|s| as real)
  {
    SumWithinTimes(s, lo, hi);
    TimesIsProduct(lo, |s|);
    TimesIsProduct(hi, |s|);
  }

  /** A moving average lies between the lowest and the highest price it averages. */
  lemma SmaBetween(window: seq<real>, n: nat, lo: real, hi: real)
    requires 0 < n <= |window| && AllBetween(window, lo, hi)
    ensures lo <= Sma(window, n) <= hi
  {
    var tail := window[|window| - n..];
    assert AllBetween(tail, lo, hi);
    SumBetween(tail, lo, hi);
    QuotientBetween(Sum(tail), n as real, lo, hi);
  }

  // ---------------------------------------------------------------------------
  // The signal rules

  /** The orders placed in one iteration and the entry price and trade time they leave. */
  datatype Decision = Decision(placed: seq<Order>, entryPrice: real, lastTradeTime: real)

  /** Every order the loop places: a market order for the symbol at the tick price. */
  function MarketOrder(id: string, side: Side, quantity: real, price: real): Order {
    NewOrder(id, Symbol, side, Market, quantity, price)
  }

  function BuyQuantity(balance: real, price: real): real
    requires price != 0.0
  {
    balance * BuyShare / price
  }

  /** `(current_price - entry_price) / entry_price` */
  function ProfitPct(price: real, entryPrice: real): real
    requires entryPrice != 0.0
  {
    (price - entryPrice) / entryPrice
  }

  /** Short average above the long one by the buffer, out of the cooldown, balance above 10. */
  predicate BuySignal(shortMa: real, longMa: real, now: real, lastTradeTime: real, balance: real) {
    shortMa > longMa * (1.0 + SignalThreshold) && !(now - lastTradeTime < TradeCooldown) && balance > MinBalance
  }

  /** Price overextended above the long average and back under the short one, with a position. */
  predicate ProtectiveSignal(price: real, shortMa: real, longMa: real, holdings: real) {
    price > longMa * Overextension && price < shortMa && holdings > DustHoldings
  }

  /** The guard of the take-profit block, whose `elif` is the crossover sell. */
  predicate TakeProfitGuard(holdings: real, entryPrice: real) {
    holdings > DustHoldings && entryPrice > 0.0
  }

  predicate CrossoverSignal(shortMa: real, longMa: real, holdings: real) {
    shortMa < longMa * (1.0 - SignalThreshold) && holdings > DustHoldings
  }

  /** The buy block; the risk engine is asked only once the other conditions hold. */
  function BuyStage(shortMa: real, longMa: real, price: real, now: real, id: string,
                    d: Decision, balance: real, risk: RiskState, equity: real): Decision
    requires price != 0.0
  {
    if BuySignal(shortMa, longMa, now, d.lastTradeTime, balance)
       && Validate(risk, BuyQuantity(balance, price), price, equity, now).allowed
    then Decision(d.placed + [MarketOrder(id, Buy, BuyQuantity(balance, price), price)], price, now)
    else d
  }

  /** The protective sell of the whole position. */
  function ProtectStage(shortMa: real, longMa: real, price: real, now: real, id: string,
                        d: Decision, holdings: real): Decision
  {
    if ProtectiveSignal(price, shortMa, longMa, holdings)
    then Decision(d.placed + [MarketOrder(id, Sell, holdings, price)], 0.0, now)
    else d
  }

  /** The take-profit block and, as its `elif`, the crossover sell. */
  function ExitStage(shortMa: real, longMa: real, price: real, now: real, id: string,
                     d: Decision, holdings: real): Decision
  {
    if TakeProfitGuard(holdings, d.entryPrice) then
      if ProfitPct(price, d.entryPrice) >= TakeProfitPct
      then Decision(d.placed + [MarketOrder(id, Sell, holdings, price)], 0.0, now)
      else d
    else if CrossoverSignal(shortMa, longMa, holdings)
    then Decision(d.placed + [MarketOrder(id, Sell, holdings, price)], d.entryPrice, now)
    else d
  }

  /**
   * The strategy block of one iteration over a full window, in the source's
   * `if` / `if` / `if … elif` order. `balance` and `holdings` are the broker's after the
   * matching pass; placing an order on the paper broker does not change them.
   */
  function Signals(window: seq<real>, price: real, now: real, id: string, entryPrice: real,
                   lastTradeTime: real, balance: real, holdings: real, risk: RiskState, equity: real): Decision
    requires |window| >= LongPeriod && price != 0.0
  {
    var shortMa := Sma(window, ShortPeriod);
    var longMa := Sma(window, LongPeriod);
    var bought := BuyStage(shortMa, longMa, price, now, id, Decision([], entryPrice, lastTradeTime), balance, risk, equity);
    var protectedD := ProtectStage(shortMa, longMa, price, now, id, bought, holdings);
    ExitStage(shortMa, longMa, price, now, id, protectedD, holdings)
  }

  /**
   * The buy is placed exactly when its rule and the risk engine allow it, for 98% of the
   * balance, and records the tick price as the entry unless the protective sell resets it.
   */
  lemma BuyRule(window: seq<real>, price: real, now: real, id: string, entryPrice: real,
                lastTradeTime: real, balance: real, holdings: real, risk: RiskState, equity: real)
    requires |window| >= LongPeriod && price != 0.0
    ensures var d := Signals(window, price, now, id, entryPrice, lastTradeTime, balance, holdings, risk, equity);
      var fires := BuySignal(Sma(window, ShortPeriod), Sma(window, LongPeriod), now, lastTradeTime, balance)
        && Validate(risk, BuyQuantity(balance, price), price, equity, now).allowed;
      (fires <==> |d.placed| > 0 && d.placed[0].side == Buy)
      && (fires ==> d.placed[0] == MarketOrder(id, Buy, balance * 0.98 / price, price) && d.lastTradeTime == now)
      && (fires && !ProtectiveSignal(price, Sma(window, ShortPeriod), Sma(window, LongPeriod), holdings)
          ==> d.entryPrice == price)
  {
  }

  /** The protective sell fires on its rule alone, sells the whole position and forgets the entry price. */
  lemma ProtectiveRule(window: seq<real>, price: real, now: real, id: string, entryPrice: real,
                       lastTradeTime: real, balance: real, holdings: real, risk: RiskState, equity: real)
    requires |window| >= LongPeriod && price != 0.0
    requires ProtectiveSignal(price, Sma(window, ShortPeriod), Sma(window, LongPeriod), holdings)
    ensures var d := Signals(window, price, now, id, entryPrice, lastTradeTime, balance, holdings, risk, equity);
      MarketOrder(id, Sell, holdings, price) in d.placed && d.entryPrice == 0.0 && d.lastTradeTime == now
  {
  }

  /**
   * The take-profit sell fires exactly when a position is held, an entry price is
   * recorded after the earlier blocks, and the price has risen 4% above it.
   */
  lemma TakeProfitRule(shortMa: real, longMa: real, price: real, now: real, id: string, d: Decision, holdings: real)
    ensures var r := ExitStage(shortMa, longMa, price, now, id, d, holdings);
      var hit := TakeProfitGuard(holdings, d.entryPrice) && (price - d.entryPrice) / d.entryPrice >= 0.04;
      (hit ==> r == Decision(d.placed + [MarketOrder(id, Sell, holdings, price)], 0.0, now))
      && (TakeProfitGuard(holdings, d.entryPrice) && !hit ==> r == d)
  {
  }

  /**
   * The crossover sell is the `elif` of the take-profit guard: with a position and a
   * recorded entry price it never fires, however far the short average has fallen.
   */
  lemma CrossoverNeedsNoEntry(shortMa: real, longMa: real, price: real, now: real, id: string, d: Decision, holdings: real)
    ensures var r := ExitStage(shortMa, longMa, price, now, id, d, holdings);
      var crossed := |r.placed| > |d.placed| && r.entryPrice == d.entryPrice && d.entryPrice > 0.0;
      !crossed
      && (d.entryPrice <= 0.0 && CrossoverSignal(shortMa, longMa, holdings) ==>
            r == Decision(d.placed + [MarketOrder(id, Sell, holdings, price)], d.entryPrice, now))
  {
  }

  /** Sells never ask the risk engine: two risk states that both refuse the buy give the same decision. */
  lemma SellsIgnoreRisk(window: seq<real>, price: real, now: real, id: string, entryPrice: real,
                        lastTradeTime: real, balance: real, holdings: real, risk1: RiskState, risk2: RiskState, equity: real)
    requires |window| >= LongPeriod && price != 0.0
    requires !Validate(risk1, BuyQuantity(balance, price), price, equity, now).allowed
    requires !Validate(risk2, BuyQuantity(balance, price), price, equity, now).allowed
    ensures Signals(window, price, now, id, entryPrice, lastTradeTime, balance, holdings, risk1, equity)
         == Signals(window, price, now, id, entryPrice, lastTradeTime, balance, holdings, risk2, equity)
  {
  }

  /**
   * A buy and a protective sell can fire in the same iteration; the buy's entry price is
   * then overwritten by the sell's reset, and the take-profit check sees no entry.
   */
  lemma BuyThenProtectiveForgetsEntry(window: seq<real>, price: real, now: real, id: string, entryPrice: real,
                                      lastTradeTime: real, balance: real, holdings: real, risk: RiskState, equity: real)
    requires |window| >= LongPeriod && price != 0.0
    requires var shortMa := Sma(window, ShortPeriod); var longMa := Sma(window, LongPeriod);
      BuySignal(shortMa, longMa, now, lastTradeTime, balance)
      && Validate(risk, BuyQuantity(balance, price), price, equity, now).allowed
      && ProtectiveSignal(price, shortMa, longMa, holdings) && longMa >= 0.0
    ensures var d := Signals(window, price, now, id, entryPrice, lastTradeTime, balance, holdings, risk, equity);
      d.placed == [MarketOrder(id, Buy, BuyQuantity(balance, price), price), MarketOrder(id, Sell, holdings, price)]
      && d.entryPrice == 0.0
  {
    var shortMa := Sma(window, ShortPeriod);
    var longMa := Sma(window, LongPeriod);
    assert shortMa > longMa * 1.02;
  }

  /** With positive prices one iteration places at most two orders. */
  lemma AtMostTwoOrders(window: seq<real>, price: real, now: real, id: string, entryPrice: real,
                        lastTradeTime: real, balance: real, holdings: real, risk: RiskState, equity: real, hi: real)
    requires |window| >= LongPeriod && price > 0.0 && AllBetween(window, 0.0, hi)
    ensures |Signals(window, price, now, id, entryPrice, lastTradeTime, balance, holdings, risk, equity).placed| <= 2
  {
    var shortMa := Sma(window, ShortPeriod);
    var longMa := Sma(window, LongPeriod);
    SmaBetween(window, LongPeriod, 0.0, hi);
    var d0 := Decision([], entryPrice, lastTradeTime);
    var d1 := BuyStage(shortMa, longMa, price, now, id, d0, balance, risk, equity);
    var d2 := ProtectStage(shortMa, longMa, price, now, id, d1, holdings);
    if |d1.placed| == 1 && |d2.placed| == 2 {
      assert d2.entryPrice == 0.0;
      assert shortMa > longMa * 1.02;
    } else if |d1.placed| == 1 {
      assert d2.entryPrice == price;
    }
  }

  // ---------------------------------------------------------------------------
  // One iteration of the loop

  /**
   * The controller's state: the shared state's fields, the loop's locals, and the
   * `trading_engine` heartbeat (None: never written).
   */
  datatype Session = Session(
    isRunning: bool,
    logs: seq<string>,
    fatalError: Option<string>,
    entryPrice: real,
    lastHeartbeat: real,
    engineBeat: Option<real>,
    priceHistory: seq<real>,
    lastTradeTime: real,
    errorCounter: nat)

  /** The session with the paper broker's account and orders and the risk engine's state. */
  datatype World = World(session: Session, account: Account, orders: seq<Order>, risk: RiskState)

  /**
   * What one iteration reads from outside: the clock, the shared price and its time,
   * the log timestamp, the order id, the heartbeat line's text, and the exception the
   * iteration raises, if any (raised before the iteration changes anything).
   */
  datatype TickInput = TickInput(
    now: real,
    lastPrice: real,
    lastUpdate: real,
    stamp: string,
    orderId: string,
    heartbeatText: string,
    fault: Option<string>)

  predicate Stale(t: TickInput) {
    t.lastPrice == 0.0 || t.now - t.lastUpdate > StaleSeconds
  }

  function DigitChar(d: nat): char
    requires d < 10
  {
    ('0' as int + d) as char
  }

  /** The decimal digits of `n`. */
  function Decimal(n: nat): string
    decreases n
  {
    if n < 10 then [DigitChar(n)] else Decimal(n / 10) + [DigitChar(n % 10)]
  }

  /** `f"Trading Loop Error ({error_counter}/3): {e}"` */
  function ErrorText(count: nat, e: string): string {
    "Trading Loop Error (" + Decimal(count) + "/3): " + e
  }

  /** The line `trading_loop` logs once it has left the loop. */
  function StoppedLine(stamp: string): string {
    LogLine(stamp, "INFO", "Trading loop stopped.")
  }

  /**
   * The `except` branch: count the error and log it; at the third, stop the loop,
   * record the AUTO-STOP error, and log the line that follows the loop.
   */
  function Failed(s: Session, stamp: string, e: string): Session {
    var count := s.errorCounter + 1;
    var logged := s.(errorCounter := count, logs := PushLog(s.logs, LogLine(stamp, "ERROR", ErrorText(count, e))));
    if count >= MaxErrors
    then logged.(isRunning := false, fatalError := Some("AUTO-STOP: " + e), logs := PushLog(logged.logs, StoppedLine(stamp)))
    else logged
  }

  /** `balance + holdings * current_price`, the equity the risk engine is given. */
  function Equity(a: Account, price: real): real {
    a.balance + a.holdings * price
  }

  /** The first half of an iteration on a fresh price: the window, the heartbeat, the broker's pass and the equity. */
  function Observed(w: World, fees: Fees, t: TickInput): World {
    var s := w.session;
    var price := t.lastPrice;
    var beat := t.now - s.lastHeartbeat > HeartbeatSeconds;
    var logs := if beat then PushLog(s.logs, LogLine(t.stamp, "DEBUG", t.heartbeatText)) else s.logs;
    var pass := Settle(w.account, w.orders, price, fees, t.now);
    var s' := s.(priceHistory := Window(s.priceHistory, price),
                 lastHeartbeat := if beat then t.now else s.lastHeartbeat, logs := logs);
    World(s', pass.account, pass.orders, AfterEquity(w.risk, Equity(pass.account, price)))
  }

  /** The second half: the strategy once the window holds 120 prices, then the error-counter reset. */
  function Decided(w: World, t: TickInput): World
    requires t.lastPrice != 0.0
  {
    var s := w.session;
    var price := t.lastPrice;
    var d := if |s.priceHistory| >= LongPeriod
      then Signals(s.priceHistory, price, t.now, t.orderId, s.entryPrice, s.lastTradeTime,
                   w.account.balance, w.account.holdings, w.risk, Equity(w.account, price))
      else Decision([], s.entryPrice, s.lastTradeTime);
    var s' := s.(entryPrice := d.entryPrice, lastTradeTime := d.lastTradeTime, errorCounter := 0);
    World(s', w.account, w.orders + d.placed, w.risk)
  }

  /** The body of an iteration on a fresh price, from the window update to the error-counter reset. */
  function Trade(w: World, fees: Fees, t: TickInput): World
    requires t.lastPrice != 0.0
  {
    Decided(Observed(w, fees, t), t)
  }

  /** One pass of `while state.is_running`; once stopped, nothing changes. */
  function Step(w: World, fees: Fees, t: TickInput): World {
    if !w.session.isRunning then w
    else match t.fault
      case Some(e) => w.(session := Failed(w.session, t.stamp, e))
      case None =>
        var s := w.session.(engineBeat := Some(t.now));
        if Stale(t) then w.(session := s) else Trade(w.(session := s), fees, t)
  }

  /** The loop over a run of iterations, oldest first. */
  function Run(w: World, fees: Fees, ts: seq<TickInput>): World
    decreases |ts|
  {
    if ts == [] then w else Step(Run(w, fees, ts[..|ts| - 1]), fees, ts[|ts| - 1])
  }

  /**
   * `POST /api/start`: refused while the kill switch is on; otherwise a stopped loop is
   * marked running with its error cleared and `trading_loop` begins with fresh locals.
   * A loop that already runs is left alone.
   */
  function Started(s: Session, killSwitch: bool): Session {
    if killSwitch || s.isRunning then s
    else s.(isRunning := true, fatalError := None, priceHistory := [], lastTradeTime := 0.0, errorCounter := 0)
  }

  /** A start runs the loop exactly when the kill switch is off or it already ran; a fresh start is within bounds. */
  lemma StartOutcome(s: Session, killSwitch: bool)
    ensures Started(s, killSwitch).isRunning <==> s.isRunning || !killSwitch
    ensures killSwitch ==> Started(s, killSwitch) == s
    ensures !killSwitch && !s.isRunning && |s.logs| <= LogCap ==>
      Bounded(Started(s, killSwitch)) && Started(s, killSwitch).fatalError == None
      && Started(s, killSwitch).logs == s.logs && Started(s, killSwitch).entryPrice == s.entryPrice
  {
  }

  /** The bounds the loop keeps: the window, the log, and fewer than three errors while running. */
  predicate Bounded(s: Session) {
    |s.priceHistory| <= WindowCap && |s.logs| <= LogCap && s.errorCounter <= MaxErrors
    && (s.isRunning ==> s.errorCounter < MaxErrors)
  }

  /** A stale price skips the window, the broker and the strategy; only the engine heartbeat moves. */
  lemma StaleTickSkips(w: World, fees: Fees, t: TickInput)
    requires w.session.isRunning && t.fault.None? && Stale(t)
    ensures Step(w, fees, t) == w.(session := w.session.(engineBeat := Some(t.now)))
  {
  }

  /**
   * A fresh price enters the window, the broker runs its matching pass, the risk engine
   * sees the equity at that price, and the error counter is reset.
   */
  lemma FreshTickTrades(w: World, fees: Fees, t: TickInput)
    requires w.session.isRunning && t.fault.None? && !Stale(t)
    ensures var r := Step(w, fees, t);
      var pass := Settle(w.account, w.orders, t.lastPrice, fees, t.now);
      r.session.priceHistory == Window(w.session.priceHistory, t.lastPrice)
      && r.account == pass.account && r.orders[..|pass.orders|] == pass.orders
      && r.risk == AfterEquity(w.risk, Equity(pass.account, t.lastPrice))
      && r.session.errorCounter == 0 && r.session.isRunning
  {
    var w' := w.(session := w.session.(engineBeat := Some(t.now)));
    assert Step(w, fees, t) == Trade(w', fees, t);
    assert w'.account == w.account && w'.orders == w.orders && w'.risk == w.risk;
  }

  /** Before the window holds 120 prices no order is placed and the strategy's state is untouched. */
  lemma NoSignalsBeforeFullWindow(w: World, fees: Fees, t: TickInput)
    requires w.session.isRunning && t.fault.None? && !Stale(t)
    requires |Window(w.session.priceHistory, t.lastPrice)| < LongPeriod
    ensures var r := Step(w, fees, t);
      r.orders == Settle(w.account, w.orders, t.lastPrice, fees, t.now).orders
      && r.session.entryPrice == w.session.entryPrice && r.session.lastTradeTime == w.session.lastTradeTime
  {
  }

  /** An exception counts one more error; the loop stops with an AUTO-STOP error exactly at the third. */
  lemma FaultCounts(w: World, fees: Fees, t: TickInput)
    requires w.session.isRunning && t.fault.Some?
    ensures var r := Step(w, fees, t);
      r.session.errorCounter == w.session.errorCounter + 1
      && (r.session.isRunning <==> w.session.errorCounter + 1 < MaxErrors)
      && (!r.session.isRunning ==> r.session.fatalError == Some("AUTO-STOP: " + t.fault.value))
      && |r.session.logs| > 0
      && r.session.logs[0] == (if r.session.isRunning
                               then LogLine(t.stamp, "ERROR", ErrorText(w.session.errorCounter + 1, t.fault.value))
                               else StoppedLine(t.stamp))
      && r.account == w.account && r.orders == w.orders && r.risk == w.risk
  {
  }

  /** Every iteration keeps the window, the log and the error counter within their bounds. */
  lemma StepKeepsBounded(w: World, fees: Fees, t: TickInput)
    requires Bounded(w.session)
    ensures Bounded(Step(w, fees, t).session)
  {
    if w.session.isRunning {
      if t.fault.Some? {
        var logs := PushLog(w.session.logs, LogLine(t.stamp, "ERROR", ErrorText(w.session.errorCounter + 1, t.fault.value)));
        PushLogBounded(w.session.logs, LogLine(t.stamp, "ERROR", ErrorText(w.session.errorCounter + 1, t.fault.value)));
        PushLogBounded(logs, StoppedLine(t.stamp));
      } else if !Stale(t) {
        WindowKeepsLatest(w.session.priceHistory, t.lastPrice);
        PushLogBounded(w.session.logs, LogLine(t.stamp, "DEBUG", t.heartbeatText));
      }
    }
  }

  lemma {:induction false} RunKeepsBounded(w: World, fees: Fees, ts: seq<TickInput>)
    requires Bounded(w.session)
    ensures Bounded(Run(w, fees, ts).session)
    decreases |ts|
  {
    if ts != [] {
      RunKeepsBounded(w, fees, ts[..|ts| - 1]);
      StepKeepsBounded(Run(w, fees, ts[..|ts| - 1]), fees, ts[|ts| - 1]);
    }
  }

  /** Three exceptions in a row from a clean start stop the loop with the last one's message. */
  lemma ThreeFaultsStop(w: World, fees: Fees, ts: seq<TickInput>)
    requires w.session.isRunning && w.session.errorCounter == 0
    requires |ts| == 3 && ts[0].fault.Some? && ts[1].fault.Some? && ts[2].fault.Some?
    ensures var r := Run(w, fees, ts);
      !r.session.isRunning && r.session.fatalError == Some("AUTO-STOP: " + ts[2].fault.value)
      && r.account == w.account && r.orders == w.orders
  {
    assert ts[..1][..0] == [] && ts[..2][..1] == ts[..1] && ts[..3] == ts;
    assert Run(w, fees, ts[..1][..0]) == w;
    var w1 := Run(w, fees, ts[..1]);
    assert w1 == Step(w, fees, ts[0]);
    assert w1.session.isRunning && w1.session.errorCounter == 1;
    var w2 := Run(w, fees, ts[..2]);
    assert w2 == Step(w1, fees, ts[1]);
    assert w2.session.isRunning && w2.session.errorCounter == 2;
  }

  /** Once the loop has stopped, later iterations change nothing. */
  lemma {:induction false} StoppedStaysStopped(w: World, fees: Fees, ts: seq<TickInput>)
    requires !w.session.isRunning
    ensures Run(w, fees, ts) == w
    decreases |ts|
  {
    if ts != [] {
      StoppedStaysStopped(w, fees, ts[..|ts| - 1]);
    }
  }

  /** What the paper broker needs to keep its funds non-negative: a valid account and well-formed orders. */
  predicate Sane(w: World) {
    AccountValid(w.account) && AllWellFormed(w.orders)
  }

  /** The strategy's orders, at a positive price over a non-negative account, are well formed. */
  lemma SignalsWellFormed(window: seq<real>, price: real, now: real, id: string, entryPrice: real,
                          lastTradeTime: real, balance: real, holdings: real, risk: RiskState, equity: real)
    requires |window| >= LongPeriod && price > 0.0 && balance >= 0.0 && holdings >= 0.0
    ensures AllWellFormed(Signals(window, price, now, id, entryPrice, lastTradeTime, balance, holdings, risk, equity).placed)
  {
    QuotientBetween(balance * BuyShare, price, 0.0, balance * BuyShare / price);
  }

  /**
   * Every iteration at a non-negative price keeps the broker's account non-negative and its
   * orders well formed: the controller never hands the broker an order it cannot settle safely.
   */
  lemma StepKeepsSane(w: World, fees: Fees, t: TickInput)
    requires Sane(w) && FeesValid(fees) && t.lastPrice >= 0.0
    ensures Sane(Step(w, fees, t))
  {
    if w.session.isRunning && t.fault.None? && !Stale(t) {
      var price := t.lastPrice;
      var pass := Settle(w.account, w.orders, price, fees, t.now);
      SettleKeepsAccountValid(w.account, w.orders, price, fees, t.now);
      SettleMovesForward(w.account, w.orders, price, fees, t.now);
      assert forall i :: 0 <= i < |pass.orders| ==> SameIdentity(w.orders[i], pass.orders[i]);
      var o := Observed(w.(session := w.session.(engineBeat := Some(t.now))), fees, t);
      assert o.account == pass.account && o.orders == pass.orders;
      var r := Decided(o, t);
      var placed := r.orders[|o.orders|..];
      assert r.orders == o.orders + placed;
      if |o.session.priceHistory| >= LongPeriod {
        SignalsWellFormed(o.session.priceHistory, price, t.now, t.orderId, o.session.entryPrice, o.session.lastTradeTime,
                          o.account.balance, o.account.holdings, o.risk, Equity(o.account, price));
      }
      assert AllWellFormed(placed);
      assert Step(w, fees, t) == r;
    }
  }

  /** Any run of iterations at non-negative prices keeps the broker's account and orders sane. */
  lemma {:induction false} RunKeepsSane(w: World, fees: Fees, ts: seq<TickInput>)
    requires Sane(w) && FeesValid(fees)
    requires forall i :: 0 <= i < |ts| ==> ts[i].lastPrice >= 0.0
    ensures Sane(Run(w, fees, ts))
    decreases |ts|
  {
    if ts != [] {
      var n := |ts| - 1;
      assert forall i :: 0 <= i < n ==> ts[..n][i] == ts[i];
      RunKeepsSane(w, fees, ts[..n]);
      StepKeepsSane(Run(w, fees, ts[..n]), fees, ts[n]);
    }
  }

  // ---------------------------------------------------------------------------
  // The controller object

  /** The shared state of a paper-trading system with the trading loop's locals. */
  class TradingSession {
    var isRunning: bool
    var logs: seq<string>
    var fatalError: Option<string>
    var entryPrice: real
    var lastHeartbeat: real
    /** `health_metrics["trading_engine"]`; None while the key is absent. */
    var engineBeat: Option<real>
    var priceHistory: seq<real>
    var lastTradeTime: real
    var errorCounter: nat
    const broker: PaperBroker
    const risk: RiskEngine

    function State(): Session
      reads this
    {
      Session(isRunning, logs, fatalError, entryPrice, lastHeartbeat, engineBeat, priceHistory, lastTradeTime, errorCounter)
    }

    function Snapshot(): World
      reads this, broker, risk
    {
      World(State(), broker.Funds(), broker.orders, risk.State())
    }

    /** `GlobalSystemState()` in paper mode: a paper broker with 120 (the live-failure fallback is `SelectBroker`). */
    constructor ()
      ensures State() == Session(false, [], None, 0.0, 0.0, None, [], 0.0, 0)
      ensures broker.Funds() == Account(PaperStartBalance, 0.0, []) && broker.orders == []
      ensures broker.fees == Fees(0.005, 0.001) && broker.Valid()
      ensures risk.State() == Fresh(TradeRisk())
      ensures fresh(broker) && fresh(risk)
    {
      isRunning := false;
      logs := [];
      fatalError := None;
      entryPrice := 0.0;
      lastHeartbeat := 0.0;
      engineBeat := None;
      priceHistory := [];
      lastTradeTime := 0.0;
      errorCounter := 0;
      risk := new RiskEngine(TradeRisk());
      broker := new PaperBroker(PaperStartBalance);
    }

    /** `log`: prepend the formatted line, keeping at most 50. */
    method Log(stamp: string, level: string, message: string)
      modifies this`logs
      ensures logs == PushLog(old(logs), LogLine(stamp, level, message))
    {
      logs := [LogLine(stamp, level, message)] + logs;
      if |logs| > LogCap {
        logs := logs[..|logs| - 1];
      }
    }

    /** The locals `trading_loop` starts with: an empty window, no last trade, no errors. */
    method BeginLoop()
      modifies this`priceHistory, this`lastTradeTime, this`errorCounter
      ensures priceHistory == [] && lastTradeTime == 0.0 && errorCounter == 0
    {
      priceHistory := [];
      lastTradeTime := 0.0;
      errorCounter := 0;
    }

    /** The paper-mode restore from the newest stored trade. */
    method RestorePosition(last: Option<TradeRow>)
      modifies this`entryPrice, broker`balance, broker`holdings
      ensures Restored(entryPrice, broker.balance, broker.holdings)
        == Restore(PaperMode, Restored(old(entryPrice), old(broker.balance), old(broker.holdings)), last)
    {
      if last.Some? && last.value.side == "buy" && last.value.status == "filled" {
        var qty := last.value.quantity;
        var entry := last.value.entryPrice;
        var cost := qty * entry;
        entryPrice := entry;
        broker.holdings := qty;
        if broker.balance > cost * 0.5 {
          broker.balance := broker.balance - cost;
        }
      }
    }

    /** The `except` branch of one iteration. */
    method Fail(stamp: string, e: string)
      modifies this`errorCounter, this`logs, this`isRunning, this`fatalError
      ensures State() == Failed(old(State()), stamp, e)
    {
      errorCounter := errorCounter + 1;
      Log(stamp, "ERROR", ErrorText(errorCounter, e));
      if errorCounter >= MaxErrors {
        isRunning := false;
        fatalError := Some("AUTO-STOP: " + e);
        Log(stamp, "INFO", "Trading loop stopped.");
      }
    }

    /** The buy block. */
    method BuyBlock(shortMa: real, longMa: real, currentPrice: real, now: real, id: string, totalEquity: real,
                    ghost base: seq<Order>)
      requires currentPrice != 0.0 && broker.orders == base
      modifies this`entryPrice, this`lastTradeTime, broker`orders
      ensures var d := BuyStage(shortMa, longMa, currentPrice, now, id,
                                Decision([], old(entryPrice), old(lastTradeTime)), broker.balance, risk.State(), totalEquity);
        broker.orders == base + d.placed && entryPrice == d.entryPrice && lastTradeTime == d.lastTradeTime
    {
      var inCooldown := now - lastTradeTime < TradeCooldown;
      if shortMa > longMa * (1.0 + SignalThreshold) && !inCooldown {
        var balance := broker.balance;
        if balance > MinBalance {
          var quantityToBuy := BuyQuantity(balance, currentPrice);
          var riskCheck := risk.ValidateTrade(quantityToBuy, currentPrice, totalEquity, now);
          if riskCheck.allowed {
            var placed := broker.PlaceOrder(MarketOrder(id, Buy, quantityToBuy, currentPrice));
            lastTradeTime := now;
            entryPrice := currentPrice;
          }
        }
      }
    }

    /** The protective sell block. */
    method ProtectBlock(shortMa: real, longMa: real, currentPrice: real, now: real, id: string,
                        ghost base: seq<Order>, ghost d: Decision)
      requires broker.orders == base + d.placed && entryPrice == d.entryPrice && lastTradeTime == d.lastTradeTime
      modifies this`entryPrice, this`lastTradeTime, broker`orders
      ensures var r := ProtectStage(shortMa, longMa, currentPrice, now, id, d, broker.holdings);
        broker.orders == base + r.placed && entryPrice == r.entryPrice && lastTradeTime == r.lastTradeTime
    {
      if currentPrice > longMa * Overextension {
        if currentPrice < shortMa {
          var holdings := broker.holdings;
          if holdings > DustHoldings {
            var placed := broker.PlaceOrder(MarketOrder(id, Sell, holdings, currentPrice));
            lastTradeTime := now;
            entryPrice := 0.0;
          }
        }
      }
    }

    /** The take-profit block with the crossover sell as its `elif`. */
    method ExitBlock(shortMa: real, longMa: real, currentPrice: real, now: real, id: string,
                     ghost base: seq<Order>, ghost d: Decision)
      requires broker.orders == base + d.placed && entryPrice == d.entryPrice && lastTradeTime == d.lastTradeTime
      modifies this`entryPrice, this`lastTradeTime, broker`orders
      ensures var r := ExitStage(shortMa, longMa, currentPrice, now, id, d, broker.holdings);
        broker.orders == base + r.placed && entryPrice == r.entryPrice && lastTradeTime == r.lastTradeTime
    {
      if broker.holdings > DustHoldings && entryPrice > 0.0 {
        var profitPct := ProfitPct(currentPrice, entryPrice);
        if profitPct >= TakeProfitPct {
          var placed := broker.PlaceOrder(MarketOrder(id, Sell, broker.holdings, currentPrice));
          entryPrice := 0.0;
          lastTradeTime := now;
        }
      } else if shortMa < longMa * (1.0 - SignalThreshold) {
        var holdings := broker.holdings;
        if holdings > DustHoldings {
          var placed := broker.PlaceOrder(MarketOrder(id, Sell, holdings, currentPrice));
          lastTradeTime := now;
        }
      }
    }

    /** The strategy block: buy, protective sell, then take-profit or crossover sell. */
    method Strategy(currentPrice: real, now: real, id: string, totalEquity: real)
      requires |priceHistory| >= LongPeriod && currentPrice != 0.0
      modifies this`entryPrice, this`lastTradeTime, broker`orders
      ensures var d := Signals(priceHistory, currentPrice, now, id, old(entryPrice), old(lastTradeTime),
                               broker.balance, broker.holdings, risk.State(), totalEquity);
        broker.orders == old(broker.orders) + d.placed
        && entryPrice == d.entryPrice && lastTradeTime == d.lastTradeTime
    {
      ghost var base := broker.orders;
      var shortMa := Sma(priceHistory, ShortPeriod);
      var longMa := Sma(priceHistory, LongPeriod);
      ghost var d0 := Decision([], entryPrice, lastTradeTime);
      BuyBlock(shortMa, longMa, currentPrice, now, id, totalEquity, base);
      ghost var d1 := BuyStage(shortMa, longMa, currentPrice, now, id, d0, broker.balance, risk.State(), totalEquity);
      ProtectBlock(shortMa, longMa, currentPrice, now, id, base, d1);
      ghost var d2 := ProtectStage(shortMa, longMa, currentPrice, now, id, d1, broker.holdings);
      ExitBlock(shortMa, longMa, currentPrice, now, id, base, d2);
    }

    /** The price enters the window; the heartbeat line is logged when 30 seconds have passed. */
    method Observe(t: TickInput)
      modifies this`priceHistory, this`lastHeartbeat, this`logs
      ensures priceHistory == Window(old(priceHistory), t.lastPrice)
      ensures var beat := t.now - old(lastHeartbeat) > HeartbeatSeconds;
        lastHeartbeat == (if beat then t.now else old(lastHeartbeat))
        && logs == (if beat then PushLog(old(logs), LogLine(t.stamp, "DEBUG", t.heartbeatText)) else old(logs))
    {
      var currentPrice := t.lastPrice;
      priceHistory := priceHistory + [currentPrice];
      if |priceHistory| > WindowCap {
        priceHistory := priceHistory[1..];
      }
      if t.now - lastHeartbeat > HeartbeatSeconds {
        lastHeartbeat := t.now;
        Log(t.stamp, "DEBUG", t.heartbeatText);
      }
    }

    /** The first half of an iteration on a fresh price; returns the equity it hands to the risk engine. */
    method ObserveTick(t: TickInput) returns (totalEquity: real)
      modifies this`priceHistory, this`lastHeartbeat, this`logs, broker, risk
      ensures Snapshot() == Observed(old(Snapshot()), broker.fees, t)
      ensures totalEquity == Equity(broker.Funds(), t.lastPrice)
    {
      ghost var w := Snapshot();
      var currentPrice := t.lastPrice;
      Observe(t);
      broker.ProcessDataTick(currentPrice, t.now);
      ghost var pass := Settle(w.account, w.orders, currentPrice, broker.fees, t.now);
      assert broker.Funds() == pass.account && broker.orders == pass.orders;
      totalEquity := broker.balance + broker.holdings * currentPrice;
      assert totalEquity == Equity(pass.account, currentPrice);
      risk.UpdateEquity(totalEquity);
    }

    /** One iteration on a fresh price, from the window update to the error-counter reset. */
    method TradeTick(t: TickInput)
      requires t.lastPrice != 0.0
      modifies this, broker, risk
      ensures Snapshot() == Trade(old(Snapshot()), broker.fees, t)
    {
      var totalEquity := ObserveTick(t);
      ghost var w := Snapshot();
      if |priceHistory| >= LongPeriod {
        Strategy(t.lastPrice, t.now, t.orderId, totalEquity);
      }
      errorCounter := 0;
      ghost var r := Decided(w, t);
      assert r.account == broker.Funds() && r.orders == broker.orders && r.risk == risk.State();
      assert r.session == State();
    }

    /** One pass of `while state.is_running` over the paper broker and the risk engine. */
    method Tick(t: TickInput)
      modifies this, broker, risk
      ensures Snapshot() == Step(old(Snapshot()), broker.fees, t)
      ensures old(broker.Valid()) && t.lastPrice >= 0.0 ==> broker.Valid()
    {
      ghost var before := Snapshot();
      if isRunning {
        if t.fault.Some? {
          Fail(t.stamp, t.fault.value);
        } else {
          engineBeat := Some(t.now);
          if !(t.lastPrice == 0.0 || t.now - t.lastUpdate > StaleSeconds) {
            TradeTick(t);
          }
        }
      }
      if old(broker.Valid()) && t.lastPrice >= 0.0 {
        StepKeepsSane(before, broker.fees, t);
      }
    }

    /** `POST /api/start`: `accepted` is false when the kill switch refuses the start. */
    method Start() returns (accepted: bool)
      modifies this`isRunning, this`fatalError, this`priceHistory, this`lastTradeTime, this`errorCounter
      ensures accepted == !risk.killSwitchActive
      ensures State() == Started(old(State()), risk.killSwitchActive)
    {
      if risk.killSwitchActive {
        return false;
      }
      if !isRunning {
        isRunning := true;
        fatalError := None;
        BeginLoop();
      }
      return true;
    }

    /** `POST /api/stop`: the loop leaves at its next check; by `StoppedStaysStopped` no later iteration changes anything. */
    method Stop()
      modifies this`isRunning
      ensures !isRunning
    {
      isRunning := false;
    }
  }
}
