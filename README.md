# Trading bot core, modelled in Dafny

This project models the money-handling core of a Bitcoin/BRL trading bot. It has four pieces:

- **The simulated exchange.** `PaperBroker` keeps a list of orders, a BRL balance, BTC holdings and a trade history. Each price tick runs one matching pass over the open orders. Market orders fill with slippage. Limit orders fill at their limit price once the price crosses it. Every fill first checks funds or holdings, then debits and credits the account, or rejects the order.
- **The risk engine.** It takes the first non-zero equity it is given as the baseline and keeps a drawdown kill switch that is only ever switched on. A run of three losses starts a one-hour cooldown, and there is a cap of ten trades. `validate_trade` is a read-only gate on position size.
- **The live-exchange adapter's order shaping.** `RealBroker.place_order` picks the lot step, turns a sell of at least 99% of the holdings into a sell of all of them, floors the quantity to whole steps, and skips dust. It then records the weighted average fill price, or a fallback price when the reply has no fills. Any failure in its outer block ends in `rejected`. The exchange is an oracle: every reply, or its failure, is an input.
- **The trading controller.** This covers one iteration of `trading_loop`: the stale-price skip, the 125-price window, the broker's matching pass, the equity update, and the SMA(30)/SMA(120) rules. The rules keep the source's exact `if` / `if` / `if … elif` shape. The controller also covers the three-strikes stop, the 50-line log, the broker chosen at start-up and the position restored from the last stored trade.

Prices and quantities are Dafny `real`s: exact rationals, not IEEE floats. Python's `int()` on a float is `Live.Trunc`, which truncates toward zero. Clock readings are parameters (`now`). `datetime.min` is `None`.

Modules:

- `Wrappers`: `Option`.
- `Orders`: the order record.
- `Paper`: the paper broker.
- `Risk`: the risk engine.
- `Live`: the live adapter.
- `Controller`: the controller.
- `RealArith`: small facts about real products and quotients.

Each stateful class (`PaperBroker`, `RiskEngine`, `RealBroker`, `TradingSession`) has two things:

- A pure state datatype with transition functions. The lemmas are about these.
- Methods whose `ensures` tie the new state to a transition function applied to the old state.

## Model

| member | source | states |
|---|---|---|
| Paper.MarketFillsAtSlippedPrice | backend/app/paper_broker/broker.py:149-155 | A market order always fills on its tick: a buy at `p*(1+slippage)`, a sell at `p*(1-slippage)`. |
| Paper.LimitBuyFillsAtLimit | backend/app/paper_broker/broker.py:157-160 | A limit buy fills exactly when the tick is at or below the limit, and then at the limit price. |
| Paper.LimitSellFillsAtLimit | backend/app/paper_broker/broker.py:161-163 | A limit sell fills exactly when the tick is at or above the limit, and then at the limit price. |
| Paper.BuyFillAccounting | backend/app/paper_broker/broker.py:168-187 | If the balance covers cost + fee, it drops by exactly that, holdings rise by the quantity, and the filled order (at the fill price) is appended to the history. Otherwise the order is rejected and the account is unchanged. |
| Paper.SellFillAccounting | backend/app/paper_broker/broker.py:189-204 | If the holdings cover the quantity, they drop by it, the balance rises by cost − fee, and the filled order is appended to the history. Otherwise the order is rejected and the account is unchanged. |
| Paper.FillKeepsAccountValid | backend/app/paper_broker/broker.py:168-204 | A fill at a non-negative price keeps balance ≥ 0 and holdings ≥ 0, whether it succeeds or is rejected. |
| Paper.SettleOrderKeepsAccountValid | backend/app/paper_broker/broker.py:142-166 | Matching one order at a non-negative tick keeps balance ≥ 0 and holdings ≥ 0. |
| Paper.SettleOrderMovesForward | backend/app/paper_broker/broker.py:142-166 | Matching one order keeps its identity and moves its status only out of `open`. An order that is not open is left exactly as it was, and so is the account. |
| Paper.SettleOrderHistory | backend/app/paper_broker/broker.py:176-179 | The history grows by the order exactly when matching moved it from open to filled. |
| Paper.Settle | backend/app/paper_broker/broker.py:142-166 | A matching pass yields one resulting order per input order. |
| Paper.SettleKeepsAccountValid | backend/app/paper_broker/broker.py:142-204 | A whole matching pass keeps balance ≥ 0 and holdings ≥ 0. |
| Paper.SettleMovesForward | backend/app/paper_broker/broker.py:142-144 | Over a whole pass, filled, canceled and rejected orders are never touched, and the others only move forward with their identity kept. |
| Paper.SettleHistory | backend/app/paper_broker/broker.py:176-179 | The trade history grows by exactly the orders the pass filled, in list order, and each has status filled. |
| Paper.SettleWithoutFillsKeepsFunds | backend/app/paper_broker/broker.py:172-204 | Balance and holdings move only through fills: a pass that fills nothing leaves the account as it was. |
| Paper.MarketBuyScenario | backend/tests/test_paper_broker.py:11-21 | 10000 in the account and a market buy of 0.1 at tick 50000 fills at 50050, leaving balance 4969.975 and holdings 0.1. |
| Paper.LimitBuyScenario | backend/tests/test_paper_broker.py:23-36 | A limit buy at 40000 stays open at tick 41000 and fills at exactly 40000 at tick 39000. |
| Paper.PaperBroker.constructor | backend/app/paper_broker/broker.py:25-31 | A fresh broker has the given balance, no holdings, orders or history, and fee 0.005 and slippage 0.001 by default. It is valid when the balance is non-negative. |
| Paper.PaperBroker.PlaceOrder | backend/app/paper_broker/broker.py:124-127 | Appends exactly the given order and returns it. Only `orders` changes, so funds do not move. The invariant is kept. |
| Paper.PaperBroker.CancelOrder | backend/app/paper_broker/broker.py:129-133 | Every open order with the id becomes canceled. Every other order is left as it was. The invariant is kept. |
| Paper.PaperBroker.ExecuteFill | backend/app/paper_broker/broker.py:168-204 | The account and the order at that position become what `Fill` gives. No other order changes. |
| Paper.PaperBroker.TickOrder | backend/app/paper_broker/broker.py:143-166 | One loop iteration: the account and that order become what matching that order gives. |
| Paper.PaperBroker.ProcessDataTick | backend/app/paper_broker/broker.py:135-166 | The loop leaves the funds and orders `Settle` gives, so the pass properties above apply to it. It keeps the invariant at a non-negative price. |
| Risk.EquityBaseline | backend/app/risk_engine/engine.py:26-31 | The baseline is set to the observed equity only while it is 0. The current equity always becomes the observed one. Counters and cooldown are untouched. |
| Risk.DrawdownTrips | backend/app/risk_engine/engine.py:35-43 | With a positive baseline, the switch is on afterwards exactly when it was already on or the drawdown reached the limit, boundary included. Without a positive baseline nothing changes. Only the switch can change. |
| Risk.EquityKeepsKillSwitch | backend/app/risk_engine/engine.py:26-43 | An equity update never switches the kill switch off. |
| Risk.EquityIdempotent | backend/app/risk_engine/engine.py:26-43 | Feeding the same equity twice gives the state the first update gave. |
| Risk.TradeAllowedIff | backend/app/risk_engine/engine.py:46-59 | `can_trade` is false exactly when the kill switch is on, a cooldown is running, or 10 trades have been counted. |
| Risk.TradeResultEffect | backend/app/risk_engine/engine.py:61-72 | Every result counts a trade. A loss extends the streak and anything else resets it. The third loss in a row sets a cooldown of now + 1 hour and resets the streak. Funds and the switch are untouched. |
| Risk.ValidateIff | backend/app/risk_engine/engine.py:74-93 | A trade is allowed exactly when `can_trade` holds and price × quantity is at most equity × the position share (strict refusal above). |
| Risk.KillSwitchIsFinal | backend/app/risk_engine/engine.py:22-43 | Once tripped, the switch stays on through any later events, and every trade is refused. |
| Risk.BaselineIsFixed | backend/app/risk_engine/engine.py:28-29 | Once the baseline is non-zero, no later event moves it. |
| Risk.ReplayCounters | backend/app/risk_engine/engine.py:61-72 | The trade counter counts exactly the registered results, and the loss streak stays below 3. |
| Risk.DrawdownScenario | backend/tests/test_risk_engine.py:11-19 | With limit 0.10, equity 10000 then 8900 trips the switch and trading stops. |
| Risk.LossStreakScenario | backend/tests/test_risk_engine.py:21-28 | After two losses the streak is 2. After the third it is 0, trading is refused until the hour has passed, and allowed again after it. |
| Risk.RiskEngine.constructor | backend/app/risk_engine/engine.py:15-24 | A fresh engine has no trades, no streak, no cooldown, the switch off and a zero baseline. |
| Risk.RiskEngine.UpdateEquity | backend/app/risk_engine/engine.py:26-31 | The new state is the equity transition of the old one, and an active switch stays on. |
| Risk.RiskEngine.CheckGlobalDrawdown | backend/app/risk_engine/engine.py:35-43 | The new state is the drawdown check of the old one. |
| Risk.RiskEngine.CanTrade | backend/app/risk_engine/engine.py:46-59 | Answers `TradeAllowed` of the current state and changes nothing. |
| Risk.RiskEngine.RegisterTradeResult | backend/app/risk_engine/engine.py:61-72 | The new state is the trade-result transition of the old one. |
| Risk.RiskEngine.ValidateTrade | backend/app/risk_engine/engine.py:74-93 | Returns the verdict of `Validate` on the current state and changes nothing. |
| Live.SelectStepSize | backend/app/paper_broker/real_broker.py:139-143 | The filter loop returns the step `ChosenStep` gives, or None when a filter without a type raised. |
| Live.ChosenStepAborts | backend/app/paper_broker/real_broker.py:141-142 | Any filter without a type makes the step lookup fail, whatever comes before or after it. |
| Live.LastLotSizeWins | backend/app/paper_broker/real_broker.py:141-143 | With every filter typed, the step is the last LOT_SIZE filter's `stepSize`, or 0.00001 when it has none. |
| Live.TypedNeverAborts | backend/app/paper_broker/real_broker.py:141-143 | With every filter typed, the lookup always yields a step. |
| Live.NoLotSizeMeansDefault | backend/app/paper_broker/real_broker.py:140-143 | With every filter typed and none LOT_SIZE, the step is 0.00001. |
| Live.SmartSellTarget | backend/app/paper_broker/real_broker.py:154-156 | The target is either the requested quantity or the holdings. It is the holdings exactly when the request is at least 99% of them, or equal to them. |
| Live.NormalizeFloors | backend/app/paper_broker/real_broker.py:162 | For a target ≥ 0 and a positive step, the normalised quantity is a whole non-negative number of steps, never above the target and less than one step below it. |
| Live.DustIsNotSent | backend/app/paper_broker/real_broker.py:162-178 | A target below one step, negative ones included, normalises to at most 0. |
| Live.NotionalBetween | backend/app/paper_broker/real_broker.py:193-194 | For fills priced within [lo, hi] with non-negative quantities, Σ price·qty lies between lo·Σqty and hi·Σqty. |
| Live.AverageWithinFills | backend/app/paper_broker/real_broker.py:191-195 | With a positive total quantity, the weighted average price lies between the lowest and the highest fill price. |
| Live.ReplyPriceChoice | backend/app/paper_broker/real_broker.py:191-198 | A reply with fills is priced at their average. Without fills and without `executedQty`, the price is `cummulativeQuoteQty` (default 0) divided by 1. Without fills and with a non-zero `executedQty`, it is `cummulativeQuoteQty / executedQty`. Without fills and with `executedQty` 0, the division raises. |
| Live.SubmittedIsFlooredTarget | backend/app/paper_broker/real_broker.py:145-180 | Whenever a quantity is sent, the step is positive and the quantity is the normalised target: positive, at most the target and within one step of it. For a sell, the target is taken after the pre-sell balance read and the 99% rule. |
| Live.DustSkipsExchange | backend/app/paper_broker/real_broker.py:176-178 | A target below one step returns the order unchanged and sends nothing. The funds are at most refreshed by the pre-sell read. |
| Live.ExecuteOutcome | backend/app/paper_broker/real_broker.py:135-230 | The order ends `rejected` exactly when a step of the outer block raised. It ends `filled` exactly when a quantity was sent, the reply says FILLED and its price could be computed, and then at that price. Its identity is kept. |
| Live.RealBroker.constructor | backend/app/paper_broker/real_broker.py:16-32 | Starts from zero funds, reads the balances once, has no local orders, and starts the resync timer at 0. |
| Live.RealBroker.SyncBalances | backend/app/paper_broker/real_broker.py:35-40 | The BRL read sets the balance, then the BTC read sets the holdings. A failing read stops there and keeps what is already set. |
| Live.RealBroker.PlaceOrder | backend/app/paper_broker/real_broker.py:131-230 | The returned order, the quantity sent and the new funds are what `Execute` gives on the old funds and the exchange's replies. |
| Live.RealBroker.CancelOrder | backend/app/paper_broker/real_broker.py:232-234 | Changes nothing. |
| Live.RealBroker.ProcessDataTick | backend/app/paper_broker/real_broker.py:236-245 | When more than 60 s have passed since the last read, the balances are re-read and the timer set to now. Otherwise nothing changes. |
| Controller.PushLogBounded | backend/app/main.py:67-73 | A new line becomes the first one, the others keep their order, and only the oldest can drop out, only when there were already 50. The log never exceeds 50 lines. |
| Controller.PushAllKeepsNewest | backend/app/main.py:67-73 | After any number of lines, the log holds the 50 newest lines, newest first. |
| Controller.Upper | backend/app/main.py:54 | Upper-casing keeps the length. |
| Controller.SelectionOutcome | backend/app/main.py:53-65 | Live trading is chosen exactly when `TRADING_MODE` upper-cases to LIVE and the live broker started. Every other outcome is a paper broker with 120. The start-up error is kept exactly when the live broker failed. |
| Controller.LiveInAnyCase | backend/app/main.py:54-58 | Any letter case of "live" selects the live broker when it starts. |
| Controller.PaperRestore | backend/app/main.py:90-96 | A paper restore sets the entry price and the holdings from the trade. It pays the full cost when the balance is above half of it, and nothing otherwise. |
| Controller.RestoreNeedsFilledBuy | backend/app/main.py:90 | Unless the newest trade is a filled buy, nothing is restored in either mode. |
| Controller.LiveRestore | backend/app/main.py:99-106 | A live restore never touches the funds, and keeps the trade's entry price exactly when coins are held. |
| Controller.RestoreMayOverdraw | backend/app/main.py:109-112 | A balance of 80 against a cost of 100 is still charged the full cost and ends at −20. |
| Controller.RestoreCoveredKeepsBalance | backend/app/main.py:109-112 | When the balance covers the cost, the paper restore keeps it non-negative. |
| Controller.TradingSession.RestorePosition | backend/app/main.py:90-114 | The paper-mode restore on the session's broker leaves the entry price, balance and holdings that `Restore` gives. |
| Controller.WindowKeepsLatest | backend/app/main.py:260-263 | After one price the window is the newest 125 prices of the old window plus that price, and never longer than 125. |
| Controller.SlideKeepsLatest | backend/app/main.py:260-263 | After any run of prices, the window holds the newest 125 prices seen, in order. |
| Controller.SmaBetween | backend/app/main.py:281-282 | A moving average over prices within [lo, hi] lies within [lo, hi]. |
| Controller.SumBetween | backend/app/main.py:281-282 | A sum of n prices within [lo, hi] lies between n·lo and n·hi. |
| Controller.BuyRule | backend/app/main.py:285-305 | A buy is placed exactly when the short average exceeds the long one by 0.3%, the cooldown is over, the balance is above 10 and the risk engine allows it. It is then a market buy of 98% of the balance at the tick price, and the trade time becomes now. Unless the protective sell also fires, the entry price becomes the tick price. |
| Controller.ProtectiveRule | backend/app/main.py:314-328 | Overextended above the long average, back under the short one, and holding more than dust: the whole position is sold, the entry price is forgotten, and the trade time becomes now. |
| Controller.TakeProfitRule | backend/app/main.py:331-342 | With a position and a recorded entry, a 4% rise sells the whole position and forgets the entry. Short of 4%, that block does nothing. |
| Controller.CrossoverNeedsNoEntry | backend/app/main.py:331-357 | The crossover sell is the `elif` of the take-profit guard. It never fires while a position and an entry price are recorded. Without an entry it sells the whole position when the short average falls 0.3% under the long one. |
| Controller.SellsIgnoreRisk | backend/app/main.py:314-357 | The sells never ask the risk engine: with the buy refused, two risk states give the same decision. |
| Controller.BuyThenProtectiveForgetsEntry | backend/app/main.py:289-328 | A buy and a protective sell can both fire in one iteration. The buy's entry price is then reset by the sell. |
| Controller.AtMostTwoOrders | backend/app/main.py:280-357 | With positive prices, one iteration places at most two orders. |
| Controller.StaleTickSkips | backend/app/main.py:250-257 | A zero or stale price skips the window, the broker, the strategy and the error reset. Only the engine heartbeat moves. |
| Controller.FreshTickTrades | backend/app/main.py:259-277 | A fresh price enters the window, the broker runs its matching pass, and the risk engine sees the equity at that price. The error counter is reset and the loop keeps running. |
| Controller.NoSignalsBeforeFullWindow | backend/app/main.py:280 | Before the window holds 120 prices, no order is placed and the entry price and trade time are untouched. |
| Controller.FaultCounts | backend/app/main.py:361-372 | An exception counts one more error and logs it. The loop stops with an AUTO-STOP error exactly at the third, and then logs that the loop stopped. Broker and risk state are untouched. |
| Controller.StepKeepsBounded | backend/app/main.py:244-372 | Every iteration keeps the window at most 125, the log at most 50, and the error counter below 3 while running. |
| Controller.RunKeepsBounded | backend/app/main.py:244-372 | Any run of iterations keeps those bounds. |
| Controller.ThreeFaultsStop | backend/app/main.py:361-367 | Three exceptions in a row from a clean start stop the loop with the last one's message. The broker is untouched. |
| Controller.StoppedStaysStopped | backend/app/main.py:244 | Once the loop has stopped, later iterations change nothing. |
| Controller.SignalsWellFormed | backend/app/main.py:289-357 | At a positive price over a non-negative balance and holdings, every order the strategy places has a non-negative quantity and price. |
| Controller.StepKeepsSane | backend/app/main.py:244-359 | An iteration at a non-negative price keeps the paper account's balance and holdings non-negative and every order well formed. |
| Controller.RunKeepsSane | backend/app/main.py:244-372 | Any run of iterations at non-negative prices keeps the paper account non-negative and the orders well formed. |
| Controller.StartOutcome | backend/app/main.py:162-171 | A start request runs the loop exactly when the kill switch is off or it already ran. Under the kill switch nothing changes. A fresh start clears the error, starts an empty window and zero errors, and is within the loop's bounds. |
| Controller.TradingSession.Start | backend/app/main.py:162-171 | Accepted exactly when the kill switch is off. The session becomes `Started` of the old one. |
| Controller.TradingSession.Stop | backend/app/main.py:174-177 | The loop is marked not running. |
| Controller.TradingSession.constructor | backend/app/main.py:49-65 | The paper start-up: a paper broker with 120 and default fees, a fresh risk engine with default limits, the loop not running, and an empty log. |
| Controller.TradingSession.Log | backend/app/main.py:67-73 | The log becomes the bounded push of the formatted line. |
| Controller.TradingSession.BeginLoop | backend/app/main.py:232-242 | The loop starts with an empty window, last trade time 0 and no errors. |
| Controller.TradingSession.Fail | backend/app/main.py:361-372 | The session becomes the `except` branch's result. |
| Controller.TradingSession.BuyBlock | backend/app/main.py:285-305 | The orders, entry price and trade time become what the buy stage decides. |
| Controller.TradingSession.ProtectBlock | backend/app/main.py:313-328 | The orders, entry price and trade time become what the protective stage decides. |
| Controller.TradingSession.ExitBlock | backend/app/main.py:330-357 | The orders, entry price and trade time become what the take-profit / crossover stage decides. |
| Controller.TradingSession.Strategy | backend/app/main.py:280-357 | The orders appended, the entry price and the trade time are those of `Signals` on the window. |
| Controller.TradingSession.Observe | backend/app/main.py:259-270 | The price enters the window. The heartbeat line is logged and its time updated exactly when more than 30 s have passed. |
| Controller.TradingSession.ObserveTick | backend/app/main.py:259-277 | The session, broker and risk engine become `Observed` of the old ones. The equity returned is balance + holdings × price after the matching pass. |
| Controller.TradingSession.TradeTick | backend/app/main.py:259-359 | The session, broker and risk engine become `Trade` of the old ones. |
| Controller.TradingSession.Tick | backend/app/main.py:244-370 | The session, broker and risk engine become `Step` of the old ones, so every property of `Step` and `Run` above applies to the object. A valid paper broker stays valid at a non-negative price. |

## Left out

- Persistence. `_load_state`, `_save_state`, `_persist_trade`, `sync_history`, the `trade_history` database query and the database save in `place_order` are effects that change no broker state. The paper broker starts from its constructor arguments. A failing database save in `place_order` is not modelled; it would leave the order as computed.
- Float-to-string formatting of the quantity. The live adapter sends the normalised real as it is. The rounding to `int(abs(log10(step)))` decimals is not modelled, so a step that is not a power of ten is taken as exact.
- `Live.Execute`: a step of 0 or less is treated as a raise (division by zero, or `log10` of a non-positive number). The division by a negative step that comes before that raise is not modelled separately.
- Logging through `logger`, the text of the heartbeat line (an input, because it holds a formatted SMA), and the time-of-day stamp of each log line (an input).
- The async scheduling of `trading_loop` and `market_data_loop`, the `asyncio.sleep` calls, and the FastAPI endpoints other than start and stop. After `Stop`, the "Trading loop stopped." line that the loop logs on leaving is not modelled. That line is logged only on the three-strikes exit.
- Exceptions in the loop body are modelled as an exception raised at the start of the `try`, before the heartbeat is written. An exception part-way through an iteration is not modelled.
- The controller's iteration drives the paper broker only. In live mode the same rules call `RealBroker`. `RealBroker` is modelled separately, but the combination is not.
- Wall-clock readings are inputs. The source reads the clock separately at each use: the staleness test, the cooldown test, the trade times and the order ids in `backend/app/main.py`, and the resync test and stamp in `RealBroker.process_data_tick`. The model reads it once per iteration or call, as `now`. So all orders placed in one iteration share one id, `orderId`. In the source, ids are equal only when the clock reads fall in the same millisecond.
- `Controller.Upper`: `str.upper` is modelled on ASCII letters only.
- Python object aliasing. The same `Order` object sits in `orders`, in `trade_history` and with the caller. Here orders are values: the copy appended to the history is the filled order.
- `Order.created_at` is not modelled. The risk engine's `last_trade_time` field is never read and is not modelled.
- `Risk.RiskEngine.ValidateTrade` does not take the unused `symbol` and `side` arguments.
- `register_trade_result` is never called by the loop; it is modelled and proved on the engine alone.
- Live start-up: the credentials check and `sync_history` are not modelled. A failing live constructor is the `liveInitError` input of `SelectBroker`.
- The database read in the start-up restore, and its error path, are not modelled. The newest trade is an input.
- The risk-engine tests call `set_balance` and read `current_balance`, and the engine defines no `set_balance`. `Risk.DrawdownScenario` feeds the same equities through `update_equity`, the engine's only way to set `current_balance`.
