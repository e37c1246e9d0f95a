/**
 * The risk engine (backend/app/risk_engine/engine.py): a baseline equity fixed at the
 * first non-zero observation, a drawdown kill switch that is only ever switched on,
 * a loss-streak cooldown and a cap on the number of trades, plus a read-only gate on
 * the size of a proposed trade. Time is an explicit `now` in seconds.
 */
module Risk {
  import opened Wrappers

  /** `max_daily_trades` */
  const MaxDailyTrades: nat := 10
  /** Three losses in a row start a cooldown ... */
  const LossStreakLimit: nat := 3
  /** ... of one hour. */
  const CooldownSeconds: real := 3600.0

  /** The tunable limits, with the source's defaults. */
  datatype TradeRisk = TradeRisk(
    maxPositionSizePct: real := 0.80,
    stopLossPct: real := 0.05,
    maxDrawdownLimit: real := 0.30)

  /**
   * The engine's fields. `cooldownUntil == None` stands for `datetime.min`, a moment
   * before every `now`.
   */
  datatype RiskState = RiskState(
    config: TradeRisk,
    dailyTrades: nat,
    consecutiveLosses: nat,
    cooldownUntil: Option<real>,
    killSwitchActive: bool,
    initialBalance: real,
    currentBalance: real)

  /** Why `validate_trade` answered as it did. */
  datatype Reason = Ok | EngineBlocked | PositionTooLarge(tradeValue: real, cap: real)

  /** The dictionary `{"allowed": ..., "reason": ...}`. */
  datatype Verdict = Verdict(allowed: bool, reason: Reason)

  /** The events that change the engine's state. */
  datatype RiskEvent = EquityUpdate(totalEquity: real) | TradeResult(pnl: real, at: real)

  function Fresh(config: TradeRisk): RiskState {
    RiskState(config, 0, 0, None, false, 0.0, 0.0)
  }

  /** `_check_global_drawdown`: trip the kill switch when the loss from the baseline reaches the limit. */
  function AfterDrawdownCheck(s: RiskState): RiskState {
    if s.initialBalance <= 0.0 then s
    else
      var drawdown := (s.initialBalance - s.currentBalance) / s.initialBalance;
      if drawdown >= s.config.maxDrawdownLimit then s.(killSwitchActive := true) else s
  }

  /** `update_equity`: fix the baseline while it is still 0, record the equity, check the drawdown. */
  function AfterEquity(s: RiskState, totalEquity: real): RiskState {
    var baseline := if s.initialBalance == 0.0 then totalEquity else s.initialBalance;
    AfterDrawdownCheck(s.(initialBalance := baseline, currentBalance := totalEquity))
  }

  predicate InCooldown(s: RiskState, now: real) {
    s.cooldownUntil.Some? && now < s.cooldownUntil.value
  }

  /** `can_trade` */
  predicate TradeAllowed(s: RiskState, now: real) {
    if s.killSwitchActive then false
    else if InCooldown(s, now) then false
    else if s.dailyTrades >= MaxDailyTrades then false
    else true
  }

  /** `register_trade_result` */
  function AfterTradeResult(s: RiskState, pnl: real, now: real): RiskState {
    var losses := if pnl < 0.0 then s.consecutiveLosses + 1 else 0;
    var counted := s.(dailyTrades := s.dailyTrades + 1, consecutiveLosses := losses);
    if losses >= LossStreakLimit then counted.(cooldownUntil := Some(now + CooldownSeconds), consecutiveLosses := 0)
    else counted
  }

  /** The largest trade value the equity allows. */
  function PositionCap(config: TradeRisk, equity: real): real {
    equity * config.maxPositionSizePct
  }

  /** `validate_trade`: the engine's own gate, then the position-size cap (strictly above is refused). */
  function Validate(s: RiskState, quantity: real, price: real, equity: real, now: real): Verdict {
    if !TradeAllowed(s, now) then Verdict(false, EngineBlocked)
    else
      var tradeValue := price * quantity;
      var cap := PositionCap(s.config, equity);
      if tradeValue > cap then Verdict(false, PositionTooLarge(tradeValue, cap))
      else Verdict(true, Ok)
  }

  /** The engine's state after a sequence of events, oldest first. */
  function Replay(s: RiskState, events: seq<RiskEvent>): RiskState
    decreases |events|
  {
    if events == [] then s
    else
      var last := events[|events| - 1];
      var before := Replay(s, events[..|events| - 1]);
      match last
      case EquityUpdate(e) => AfterEquity(before, e)
      case TradeResult(pnl, at) => AfterTradeResult(before, pnl, at)
  }

  function CountTradeResults(events: seq<RiskEvent>): nat
    decreases |events|
  {
    if events == [] then 0
    else CountTradeResults(events[..|events| - 1]) + (if events[|events| - 1].TradeResult? then 1 else 0)
  }

  // ---------------------------------------------------------------------------
  // Single-step properties

  /**
   * The baseline is set by the first observation while it is 0 and never otherwise;
   * the current equity always becomes the observed one.
   */
  lemma EquityBaseline(s: RiskState, e: real)
    ensures var r := AfterEquity(s, e);
      r.currentBalance == e
      && r.initialBalance == (if s.initialBalance == 0.0 then e else s.initialBalance)
      && r.dailyTrades == s.dailyTrades && r.consecutiveLosses == s.consecutiveLosses
      && r.cooldownUntil == s.cooldownUntil
  {
  }

  /**
   * With a positive baseline the kill switch trips exactly when the drawdown reaches the
   * limit (boundary included), that is when the equity is at most `baseline * (1 - limit)`;
   * without a positive baseline nothing is checked.
   */
  lemma {:induction false} DrawdownTrips(s: RiskState)
    ensures var r := AfterDrawdownCheck(s);
      r == s.(killSwitchActive := r.killSwitchActive)
      && (s.initialBalance <= 0.0 ==> r == s)
      && (s.initialBalance > 0.0 ==>
            (r.killSwitchActive <==>
               s.killSwitchActive || s.currentBalance <= s.initialBalance * (1.0 - s.config.maxDrawdownLimit)))
  {
    if s.initialBalance > 0.0 {
      var b := s.initialBalance;
      var c := s.currentBalance;
      var l := s.config.maxDrawdownLimit;
      calc <==> {
        (b - c) / b >= l;
        { DivideByPositive(b - c, b, l); }
        b - c >= l * b;
        c <= b * (1.0 - l);
      }
    }
  }

  /** For `b > 0`: `x / b >= l` exactly when `x >= l * b`. */
  lemma DivideByPositive(x: real, b: real, l: real)
    requires b > 0.0
    ensures x / b >= l <==> x >= l * b
  {
    assert x == (x / b) * b;
    if x / b >= l {
      assert (x / b) * b >= l * b;
    } else {
      assert (x / b) * b < l * b;
    }
  }

  /** An equity update never switches the kill switch off. */
  lemma EquityKeepsKillSwitch(s: RiskState, e: real)
    requires s.killSwitchActive
    ensures AfterEquity(s, e).killSwitchActive
  {
  }

  /** Feeding the same equity twice in a row changes nothing the second time. */
  lemma EquityIdempotent(s: RiskState, e: real)
    ensures AfterEquity(AfterEquity(s, e), e) == AfterEquity(s, e)
  {
  }

  /** `can_trade` is false exactly when the kill switch is on, a cooldown runs, or the trade cap is reached. */
  lemma TradeAllowedIff(s: RiskState, now: real)
    ensures !TradeAllowed(s, now) <==>
      s.killSwitchActive
      || (s.cooldownUntil.Some? && now < s.cooldownUntil.value)
      || s.dailyTrades >= MaxDailyTrades
  {
  }

  /**
   * Every result counts as a trade; a loss extends the streak and anything else resets it;
   * the third loss in a row starts a one-hour cooldown and resets the streak.
   */
  lemma TradeResultEffect(s: RiskState, pnl: real, now: real)
    requires s.consecutiveLosses < LossStreakLimit
    ensures var r := AfterTradeResult(s, pnl, now);
      r.dailyTrades == s.dailyTrades + 1
      && r.killSwitchActive == s.killSwitchActive
      && r.initialBalance == s.initialBalance && r.currentBalance == s.currentBalance
      && (pnl >= 0.0 ==> r.consecutiveLosses == 0 && r.cooldownUntil == s.cooldownUntil)
      && (pnl < 0.0 && s.consecutiveLosses + 1 < LossStreakLimit ==>
            r.consecutiveLosses == s.consecutiveLosses + 1 && r.cooldownUntil == s.cooldownUntil)
      && (pnl < 0.0 && s.consecutiveLosses + 1 == LossStreakLimit ==>
            r.consecutiveLosses == 0 && r.cooldownUntil == Some(now + CooldownSeconds))
      && r.consecutiveLosses < LossStreakLimit
  {
  }

  /**
   * `validate_trade` allows a trade exactly when `can_trade` holds and the trade's value
   * does not exceed the equity's allowed share.
   */
  lemma ValidateIff(s: RiskState, quantity: real, price: real, equity: real, now: real)
    ensures Validate(s, quantity, price, equity, now).allowed <==>
      TradeAllowed(s, now) && price * quantity <= equity * s.config.maxPositionSizePct
  {
  }

  // ---------------------------------------------------------------------------
  // Properties of every run

  /** Once tripped, the kill switch stays on whatever happens next, and every trade is refused. */
  lemma {:induction false} KillSwitchIsFinal(s: RiskState, events: seq<RiskEvent>, quantity: real, price: real, equity: real, now: real)
    requires s.killSwitchActive
    ensures Replay(s, events).killSwitchActive
    ensures !Validate(Replay(s, events), quantity, price, equity, now).allowed
    decreases |events|
  {
    if events != [] {
      KillSwitchIsFinal(s, events[..|events| - 1], quantity, price, equity, now);
    }
  }

  /** After the first non-zero baseline, no later event moves it. */
  lemma {:induction false} BaselineIsFixed(s: RiskState, events: seq<RiskEvent>)
    requires s.initialBalance != 0.0
    ensures Replay(s, events).initialBalance == s.initialBalance
    decreases |events|
  {
    if events != [] {
      BaselineIsFixed(s, events[..|events| - 1]);
    }
  }

  /** The trade counter counts exactly the registered results, and the loss streak stays below 3. */
  lemma {:induction false} ReplayCounters(s: RiskState, events: seq<RiskEvent>)
    requires s.consecutiveLosses < LossStreakLimit
    ensures Replay(s, events).dailyTrades == s.dailyTrades + CountTradeResults(events)
    ensures Replay(s, events).consecutiveLosses < LossStreakLimit
    decreases |events|
  {
    if events != [] {
      ReplayCounters(s, events[..|events| - 1]);
    }
  }

  // ---------------------------------------------------------------------------
  // The scenarios of backend/tests/test_risk_engine.py

  /** Limit 0.10, equity 10000 then 8900: the switch trips and trading stops. */
  lemma DrawdownScenario(now: real)
    ensures var s := Replay(Fresh(TradeRisk(maxDrawdownLimit := 0.10)), [EquityUpdate(10000.0), EquityUpdate(8900.0)]);
      s.currentBalance == 8900.0 && s.killSwitchActive && !TradeAllowed(s, now)
  {
    var events := [EquityUpdate(10000.0), EquityUpdate(8900.0)];
    assert events[..1] == [EquityUpdate(10000.0)] && events[..1][..0] == [];
  }

  /** Three losses in a row: the streak is back to 0 and trading waits for the cooldown. */
  lemma LossStreakScenario(t1: real, t2: real, t3: real)
    ensures var s0 := Fresh(TradeRisk());
      var s2 := Replay(s0, [TradeResult(-100.0, t1), TradeResult(-100.0, t2)]);
      var s3 := AfterTradeResult(s2, -100.0, t3);
      s2.consecutiveLosses == 2 && s3.consecutiveLosses == 0
      && !TradeAllowed(s3, t3) && TradeAllowed(s3, t3 + CooldownSeconds)
  {
    var events := [TradeResult(-100.0, t1), TradeResult(-100.0, t2)];
    assert events[..1] == [TradeResult(-100.0, t1)] && events[..1][..0] == [];
    var s0 := Fresh(TradeRisk());
    var s1 := AfterTradeResult(s0, -100.0, t1);
    assert Replay(s0, events[..1]) == s1;
    var s2 := AfterTradeResult(s1, -100.0, t2);
    assert s2.consecutiveLosses == 2 && s2.dailyTrades == 2 && !s2.killSwitchActive;
    var s3 := AfterTradeResult(s2, -100.0, t3);
    assert s3.dailyTrades == 3 && s3.cooldownUntil == Some(t3 + CooldownSeconds);
  }

  // ---------------------------------------------------------------------------
  // The engine object

  class RiskEngine {
    var config: TradeRisk
    var dailyTrades: nat
    var consecutiveLosses: nat
    var cooldownUntil: Option<real>
    var killSwitchActive: bool
    var initialBalance: real
    var currentBalance: real

    function State(): RiskState
      reads this
    {
      RiskState(config, dailyTrades, consecutiveLosses, cooldownUntil, killSwitchActive, initialBalance, currentBalance)
    }

    constructor (config: TradeRisk)
      ensures State() == Fresh(config)
    {
      this.config := config;
      dailyTrades := 0;
      consecutiveLosses := 0;
      cooldownUntil := None;
      killSwitchActive := false;
      initialBalance := 0.0;
      currentBalance := 0.0;
    }

    method UpdateEquity(totalEquity: real)
      modifies this
      ensures State() == AfterEquity(old(State()), totalEquity)
      ensures old(killSwitchActive) ==> killSwitchActive
    {
      if initialBalance == 0.0 {
        initialBalance := totalEquity;
      }
      currentBalance := totalEquity;
      CheckGlobalDrawdown();
    }

    method CheckGlobalDrawdown()
      modifies this
      ensures State() == AfterDrawdownCheck(old(State()))
    {
      if initialBalance <= 0.0 {
        return;
      }
      var drawdown := (initialBalance - currentBalance) / initialBalance;
      if drawdown >= config.maxDrawdownLimit {
        killSwitchActive := true;
      }
    }

    method CanTrade(now: real) returns (ok: bool)
      ensures ok == TradeAllowed(State(), now)
    {
      if killSwitchActive {
        return false;
      }
      if cooldownUntil.Some? && now < cooldownUntil.value {
        return false;
      }
      if dailyTrades >= MaxDailyTrades {
        return false;
      }
      return true;
    }

    method RegisterTradeResult(pnl: real, now: real)
      modifies this
      ensures State() == AfterTradeResult(old(State()), pnl, now)
    {
      dailyTrades := dailyTrades + 1;
      if pnl < 0.0 {
        consecutiveLosses := consecutiveLosses + 1;
      } else {
        consecutiveLosses := 0;
      }
      if consecutiveLosses >= LossStreakLimit {
        cooldownUntil := Some(now + CooldownSeconds);
        consecutiveLosses := 0;
      }
    }

    /** Read-only: the verdict depends on the state, and the state is left as it was. */
    method ValidateTrade(quantity: real, price: real, equity: real, now: real) returns (v: Verdict)
      ensures v == Validate(State(), quantity, price, equity, now)
    {
      var ok := CanTrade(now);
      if !ok {
        return Verdict(false, EngineBlocked);
      }
      var tradeValue := price * quantity;
      var cap := PositionCap(config, equity);
      if tradeValue > cap {
        return Verdict(false, PositionTooLarge(tradeValue, cap));
      }
      return Verdict(true, Ok);
    }
  }
}
