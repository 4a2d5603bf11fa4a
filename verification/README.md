# ws-api-python trading core in Dafny

This project models and proves the decision-making core of the ws-api-python
desktop trading application. The application is a Wealthsimple client with a
paper-trading engine, technical analysis, strategy alerts and an AI assistant.
Tk widgets, the network, files and threads are not part of the model.

Modelled parts:

- **Paper-trading executor** (`wsapp_gui/trade_executor.py`).
  - `Position` and `PaperPortfolio` are classes. A buy keeps a weighted-average cost and a sell is capped at the quantity held.
  - `TradeExecutor` is a class whose `State()` follows the specification functions of `ExecutorSpec`. It covers:
    - `configure`;
    - `on_signal` and its guardrail chain: enabled flag, daily cap with day rollover, global and per-symbol cooldowns, idempotency ledger;
    - paper buy and sell sizing under the cash, quantity and notional caps;
    - `place_order` with the market, limit, stop and stop-limit fill rules, the open-order list and the live path;
    - `portfolio_snapshot`.
  - The executor sizes buys with the bounds rounded down, the corrected rule of the Findings table. With that rule, every method keeps the invariant `Good`: cash is never overdrawn and no position is short. The source rounds to nearest and can overdraw the cash by less than 0.0001 times the price.
- **Backtest** (`analytics/backtest.py`).
  - The long-only cash/quantity simulator and its equity curve.
  - The pairing of buys with sells into trade statistics.
  - The drawdown scan of `_equity_metrics`.
  - The input normalisation of `quick_backtest`.
  - The stable sort of the signals by index.
- **Indicators and strategies** (`analytics/indicators.py`, `analytics/strategies.py`).
  - SMA, EMA, Wilder RSI, MACD and Bollinger bands. Each is a buffer-filling method proved equal to an entry-wise specification.
  - The MA-cross, RSI-reversion and confluence strategies, with their constructor checks and bandwidth filter.
- **Circuit breaker** (`utils/circuit_breaker.py`): CLOSED, OPEN and HALF_OPEN transitions and their counters.
- **Telegram trade-command parser** (`utils/telegram_commands.py`).
- **Settings store** (`wsapp_gui/config.py`).
  - Dotted-key get and set over nested JSON objects.
  - The non-destructive default merge.
  - The window-geometry round trip.
- **Assistant helpers** (`enhanced_ai_system.py`).
  - The moderation word list and the per-key sliding-minute rate limiter.
  - The option pick.
  - The bounded context memory and its summary.
  - The portfolio metrics and their diversification label.
- **AI agent** (`ai_agent.py`).
  - Portfolio metrics and the bounded chat history.
  - The sizing cap `clamp_qty` and the local RSI.
  - The rule-based signals of `_generate_signals`, with the gate of `_emit`.
- **Search cache** (`wsapp_gui/search_manager.py`): TTL validity, lowercased keys and eviction of the oldest entry.
- **Alerts panel filter** (`wsapp_gui/app_mixins/alerts_playbooks_risk.py`): kind/score selection, best row per symbol, sort, top-N and the alert code.
- **Strategy runner** (`wsapp_gui/strategy_runner.py`): configuration clamps, close extraction, and once-per-index alerting in `run_once`.
- **External APIs** (`external_apis.py`).
  - Yahoo 429 backoff.
  - Market-provider choice and the time-series validity test.
  - Market-movers post-processing.
  - The gating of `notify_alert` and the Telegram polling delay.
- **`.env` loaders** (`utils/env.py`, `run_ws.py`).
- **Logo media manager** (`wsapp_gui/media_manager.py`): symbol normalisation, logo URL candidates, the TTL cache and the size setters.
- **Error handler** (`utils/error_handler.py`): error classification, callbacks, recovery actions and the shared instance.
- **Trailing-whitespace tool** (`tools/strip_trailing_ws.py`).

Modelling conventions:

- **Numbers:** prices and quantities are `real`.
- **Rounding:** Python's `round(x, 4)` is round-half-to-even on exact reals. Where the source rounds a buy quantity bounded by the cash or a cap, the executor uses the round-down variant instead (see Findings).
- **Outside inputs become parameters:**
  - the clock (`now`, the trading day);
  - quotes and random jitter;
  - environment-variable presence;
  - `float()` parsing, `sqrt` and the outcome of a live executor;
  - whether a double overflows in the annualised return of `_equity_metrics`.
- **Exceptions:** an exception the source raises and does not catch is a `Result` error. Where the source catches it and answers with a fixed fail-soft value, the model returns that value. An example is the `OverflowError` that `_equity_metrics` turns into a zero drawdown.

## Model

| member | source | states |
|---|---|---|
| TradeModel.Bought | wsapp_gui/trade_executor.py:19-24 | a buy with a non-positive price or quantity leaves the position unchanged; otherwise the quantity grows by the amount bought |
| TradeModel.BoughtAverageBetween | wsapp_gui/trade_executor.py:19-24 | after a buy the average price lies between the old average and the buy price, and equals the buy price when the position was flat |
| TradeModel.BoughtBasis | wsapp_gui/trade_executor.py:19-24 | a buy adds its cost exactly to the cost basis counted against the notional cap |
| TradeModel.SellOutcome | wsapp_gui/trade_executor.py:26-34 | non-positive inputs or an empty position change nothing and return 0; otherwise min(requested, held) is sold for price × sold, the quantity stays non-negative, the average is kept, and reset to 0 when flat |
| TradeModel.SellAllFlattens | wsapp_gui/trade_executor.py:26-34 | selling at least the whole holding flattens it and returns price × quantity |
| TradeModel.Touched | wsapp_gui/trade_executor.py:42-47 | looking a symbol up leaves an existing entry and the cash alone, and otherwise adds a flat position at the end of the dict order |
| TradeModel.HeldValueNonNegative | wsapp_gui/trade_executor.py:49-56 | with non-negative quotes the held positions are worth at least nothing, so equity is at least the cash |
| TradeModel.CashQtyWithinCash | wsapp_gui/trade_executor.py:594-604 | with bounds rounded down, a positive quantity before the position lookup is paid for by the cash |
| TradeModel.CapQtyDown | wsapp_gui/trade_executor.py:608-611 | with bounds rounded down, the quantity cap never grows the quantity and a positive result keeps the symbol under the cap |
| TradeModel.CapNotionalDown | wsapp_gui/trade_executor.py:612-619 | with bounds rounded down, the notional cap never grows the quantity and a positive result keeps the cost basis under the cap |
| TradeModel.ScaleToCashDown | wsapp_gui/trade_executor.py:600-603 | rounded down, the cash scale-down never grows the quantity and never costs more than the cash |
| TradeModel.SignalBuyWithinLimits | wsapp_gui/trade_executor.py:590-623 | with bounds rounded down, a signal buy that goes ahead costs at most the cash and keeps the symbol within both per-symbol caps |
| TradeModel.SizedWithinLimits | wsapp_gui/trade_executor.py:590-623 | a signal buy sized to `q` has q > 0, q × price ≤ cash, and the symbol within both caps |
| TradeModel.SignalBuyOverspendsCash | wsapp_gui/trade_executor.py:600-603 | as written, a base size of 1000 at price 3 with cash 2 buys 0.6667, which costs more than the cash |
| TradeModel.SignalBuyExceedsQtyCap | wsapp_gui/trade_executor.py:608-611 | as written, a quantity cap of 0.00007 lets a flat position buy 0.0001 |
| TradeModel.SignalBuyExceedsNotionalCap | wsapp_gui/trade_executor.py:612-619 | as written, a notional cap of 2 at price 3 lets a flat position buy 0.6667, a cost basis above the cap |
| TradeModel.OrderBuyWithinLimits | wsapp_gui/trade_executor.py:374-394 | with bounds rounded down, a filled order buy never exceeds the requested quantity, the cash, or either per-symbol cap |
| TradeModel.OrderBuyOverspendsCash | wsapp_gui/trade_executor.py:388-390 | as written, an order for 1 at fill 3 with cash 2 executes 0.6667, which costs more than the cash |
| TradeModel.OrderBuyExceedsQtyCap | wsapp_gui/trade_executor.py:377-380 | as written, a quantity cap of 0.00007 lets an order buy 0.0001 into a flat position |
| Rounding.RoundHalfEven | wsapp_gui/trade_executor.py:269 | the integer returned is the one nearest to the input, a tie going to the even neighbour |
| Rounding.NearestEvenUnique | wsapp_gui/trade_executor.py:269 | at most one integer is nearest with ties to even, so `round` is determined by that property |
| Rounding.Round4 | wsapp_gui/trade_executor.py:595-602 | `round(x, 4)` lies within half a ten-thousandth of `x` |
| Rounding.Floor4 | wsapp_gui/trade_executor.py:602 | rounding down at four places gives the multiple of 0.0001 at most `x` and within 0.0001 of it |
| Rounding.Round4Is | wsapp_gui/trade_executor.py:269 | `round(x, 4)` is the half-even rounding of x × 10000, over 10000 |
| Rounding.Floor4Is | wsapp_gui/trade_executor.py:602 | rounding down at four places is the floor of x × 10000, over 10000 |
| Rounding.Round4Of | wsapp_gui/trade_executor.py:269 | the computed value is `round(x, 4)` |
| Rounding.Floor4Of | wsapp_gui/trade_executor.py:602 | the computed value is `x` rounded down at four places |
| Rounding.Floor4BelowRound4 | wsapp_gui/trade_executor.py:602 | rounding down never gives more than rounding to nearest |
| PaperPortfolio.Position.constructor | wsapp_gui/trade_executor.py:14-17 | a new position in the symbol is flat |
| PaperPortfolio.Position.Buy | wsapp_gui/trade_executor.py:19-24 | the position becomes `Bought` of the old one |
| PaperPortfolio.Position.Sell | wsapp_gui/trade_executor.py:26-34 | the position and the proceeds are those of `SellOutcome` |
| PaperPortfolio.Portfolio.constructor | wsapp_gui/trade_executor.py:37-40 | the given cash and no positions |
| PaperPortfolio.Portfolio.PositionFor | wsapp_gui/trade_executor.py:42-47 | the book becomes `Touched`: an existing position is returned as is, otherwise a fresh flat one is added under the symbol |
| PaperPortfolio.Portfolio.SetStartingCash | wsapp_gui/trade_executor.py:137-143 | only the cash changes, as the starting-cash rule says |
| PaperPortfolio.Portfolio.BuyAt | wsapp_gui/trade_executor.py:621-623 | the symbol's holding becomes `Bought` of it and the cash drops by the cost; nothing else changes |
| PaperPortfolio.Portfolio.SellAt | wsapp_gui/trade_executor.py:658-661 | the symbol's holding and the proceeds are those of `SellOutcome`, and the proceeds are added to the cash; nothing else changes |
| PaperPortfolio.Portfolio.Equity | wsapp_gui/trade_executor.py:49-56 | the value is `Equity` of the book |
| ExecutorSpec.InitialGood | wsapp_gui/trade_executor.py:67-95 | a new executor satisfies the invariant: a consistent book, never short, never overdrawn |
| ExecutorSpec.ConfigureNormalises | wsapp_gui/trade_executor.py:97-156 | settings stay non-negative; the mode is live exactly when "live" is asked, base size and daily cap are clamped at 0, unset arguments keep their value; the cash changes only when the book has no positions and the new start differs by more than 1e-6; positions, ledger and count are untouched |
| ExecutorSpec.ConfigureKeepsGood | wsapp_gui/trade_executor.py:97-156 | configuring keeps the executor invariant |
| ExecutorSpec.Rotate | wsapp_gui/trade_executor.py:570-574 | the day becomes today, the count is kept on the same day and reset to 0 on a new one, and nothing else changes |
| ExecutorSpec.PaperBoughtGood | wsapp_gui/trade_executor.py:621-623 | a positive buy that the cash covers keeps the invariant |
| ExecutorSpec.OnSignalGuards | wsapp_gui/trade_executor.py:175-198 | a disabled executor changes nothing; an enabled one that hits the daily cap, a cooldown or the ledger only rotates the day |
| ExecutorSpec.SignalTradeCases | wsapp_gui/trade_executor.py:204-215 | a buy or a sell is recorded in the ledger and clocks exactly when it succeeded; any other kind changes nothing |
| ExecutorSpec.ExecBuyCounts | wsapp_gui/trade_executor.py:590-648 | a signal buy counts a trade exactly when it succeeds, and leaves ledger and clocks alone |
| ExecutorSpec.ExecSellCounts | wsapp_gui/trade_executor.py:650-685 | a signal sell counts a trade exactly when it succeeds, and leaves ledger and clocks alone |
| ExecutorSpec.OnSignalRecordsOnlyTrades | wsapp_gui/trade_executor.py:175-217 | the ledger key and both cooldown clocks are recorded exactly when the signal traded, with a key not seen before; otherwise ledger and clocks are unchanged |
| ExecutorSpec.ReplayIsNoop | wsapp_gui/trade_executor.py:196-198 | a signal already in the ledger changes nothing but the day counter |
| ExecutorSpec.SignalTradesAtMostOnce | wsapp_gui/trade_executor.py:196-215 | after a signal traded, replaying it leaves the book, the ledger and the log unchanged and counts no trade |
| ExecutorSpec.OnSignalKeepsGood | wsapp_gui/trade_executor.py:175-217 | handling a signal keeps the invariant, so the paper cash never goes negative |
| ExecutorSpec.ExecBuyKeepsGood | wsapp_gui/trade_executor.py:590-648 | a signal buy keeps the invariant |
| ExecutorSpec.ExecSellKeepsGood | wsapp_gui/trade_executor.py:650-685 | a signal sell keeps the invariant |
| ExecutorSpec.ExecBuyRefusedEarly | wsapp_gui/trade_executor.py:592-605 | a paper buy whose quantity before the lookup is not positive fails and changes nothing |
| ExecutorSpec.ExecBuyRefusedByCaps | wsapp_gui/trade_executor.py:606-621 | a paper buy the caps cut to nothing fails, leaving only the looked-up position behind |
| ExecutorSpec.ExecBuySized | wsapp_gui/trade_executor.py:590-627 | a paper buy sized to `q` succeeds with the book bought at `q` |
| ExecutorSpec.SignalBuyRespectsCaps | wsapp_gui/trade_executor.py:606-623 | a successful paper signal buy leaves the symbol within the quantity and notional caps |
| ExecutorSpec.SideOf | wsapp_gui/trade_executor.py:241-243 | the side is buy or sell exactly when the lower-cased text is "buy" or "sell" |
| ExecutorSpec.OrderTypeOf | wsapp_gui/trade_executor.py:242-244 | the order type is market, limit, stop or stop-limit exactly when the lower-cased text names it; any other text is unsupported |
| ExecutorSpec.DecideRules | wsapp_gui/trade_executor.py:320-370 | markets fill at the last price; limits fill when reached at the better of last and limit; stops become markets when triggered; stop-limits act as limits once triggered; the missing-price rejections happen exactly when a needed price is absent |
| ExecutorSpec.FillNeverWorseThanLimit | wsapp_gui/trade_executor.py:328-370 | a limit or stop-limit fill is never worse than the limit or the last price |
| ExecutorSpec.RequestedQty | wsapp_gui/trade_executor.py:258-270 | a given quantity is used as is; otherwise there is none exactly when the notional (or base size) is not positive |
| ExecutorSpec.PlaceOrder | wsapp_gui/trade_executor.py:241-244 | an error exactly for an unknown side or order type |
| ExecutorSpec.PlaceOrderNoPrice | wsapp_gui/trade_executor.py:246-255 | without a positive price the order is rejected with "no_price" and nothing changes |
| ExecutorSpec.PlaceOrderLiveNeverFills | wsapp_gui/trade_executor.py:293-318 | in live mode the book, open orders and count are untouched; the order is never filled, is open unless the registered executor raised, and the executor is called exactly when registered |
| ExecutorSpec.PlaceOrderKeepsUnfilledOpen | wsapp_gui/trade_executor.py:416-422 | an unfilled paper order joins the open orders with nothing filled, and the book and count are untouched |
| ExecutorSpec.FillAtPriceNeverOpen | wsapp_gui/trade_executor.py:372-414 | a paper fill never leaves the order open |
| ExecutorSpec.FillAtPriceFills | wsapp_gui/trade_executor.py:372-414 | a filled order executed a positive quantity at most the one asked, at the fill price, counted once; a rejected one changed only the position lookup |
| ExecutorSpec.FillBuyWithinCaps | wsapp_gui/trade_executor.py:374-397 | a filled paper buy keeps the cash non-negative and the symbol within both caps |
| ExecutorSpec.PlaceOrderKeepsGood | wsapp_gui/trade_executor.py:220-422 | placing an order keeps the invariant |
| ExecutorSpec.PlaceOrderIgnoresGuards | wsapp_gui/trade_executor.py:220-422 | the enable switch, daily cap, cooldowns, ledger and count do not change the reply or the book |
| ExecutorSpec.SnapshotQuotes | wsapp_gui/trade_executor.py:700-717 | the given quotes win; every other quote is a fetched one for a held symbol, and every fetched one for a held symbol is there when asked for |
| ExecutorSpec.RowsAreHeld | wsapp_gui/trade_executor.py:719-724 | every row is a position with a positive quantity, with its quantity, average price and quote |
| ExecutorSpec.RowsCoverHeld | wsapp_gui/trade_executor.py:719-724 | every position with a positive quantity has a row |
| ExecutorSpec.SnapshotEquity | wsapp_gui/trade_executor.py:726-736 | a paper snapshot reports the cash, and an equity of cash plus the rows priced by the quotes |
| ExecutorSpec.SnapshotEquityAtLeastCash | wsapp_gui/trade_executor.py:726-736 | with non-negative quotes the equity reported is at least the cash |
| TradeExecutor.Executor.constructor | wsapp_gui/trade_executor.py:67-95 | the initial settings, an empty book with 100000 cash, and the persisted ledger |
| TradeExecutor.Executor.Configure | wsapp_gui/trade_executor.py:97-156 | the state becomes `Configure` of the old one, positions kept |
| TradeExecutor.Executor.ConfigureSimple | wsapp_gui/trade_executor.py:158-165 | `Configure` with only the enable switch, mode and base size given |
| TradeExecutor.Executor.SetLiveExecutor | wsapp_gui/trade_executor.py:167-172 | only whether a live executor is registered changes |
| TradeExecutor.Executor.RotateTradeCounter | wsapp_gui/trade_executor.py:570-574 | the state becomes `Rotate` of the old one |
| TradeExecutor.Executor.ExecBuy | wsapp_gui/trade_executor.py:590-648 | the answer and the new state are those of `ExecBuy` |
| TradeExecutor.Executor.ExecSell | wsapp_gui/trade_executor.py:650-685 | the answer and the new state are those of `ExecSell` |
| TradeExecutor.Executor.OnSignal | wsapp_gui/trade_executor.py:175-217 | the new state is `OnSignal` of the old one |
| TradeExecutor.Executor.Trade | wsapp_gui/trade_executor.py:203-215 | the new state is `SignalTrade` of the old one |
| TradeExecutor.Executor.PlaceOrder | wsapp_gui/trade_executor.py:220-422 | the reply and the new state are those of `PlaceOrder`, an assertion failure for an unknown side or type |
| TradeExecutor.Executor.FillAtPrice | wsapp_gui/trade_executor.py:372-414 | the reply and the new state are those of `FillAtPrice` |
| TradeExecutor.Executor.PortfolioSnapshot | wsapp_gui/trade_executor.py:687-736 | the snapshot is `PortfolioSnapshot` of the state |
| TradeExecutor.BuyQtyForCash | wsapp_gui/trade_executor.py:594-604 | the quantity before the lookup, rounded down, which the cash pays for when positive |
| TradeExecutor.CapBuyQty | wsapp_gui/trade_executor.py:606-619 | the quantity cut to both caps, rounded down, never above the input |
| TradeExecutor.RequestQty | wsapp_gui/trade_executor.py:258-270 | the quantity `RequestedQty` gives |
| TradeExecutor.OrderBuyQty | wsapp_gui/trade_executor.py:374-391 | the executed quantity `OrderBuySize` gives, rounded down |
| BreakerSpec.NewInv | utils/circuit_breaker.py:35-55 | a new breaker satisfies the invariant, with both limits clamped to at least 1 and kept when already at least 1 |
| BreakerSpec.EnterInv | utils/circuit_breaker.py:64-114 | entering keeps the invariant and the transition counters only grow |
| BreakerSpec.ExitInv | utils/circuit_breaker.py:79-121 | leaving keeps the invariant (a CLOSED breaker stays below its failure threshold) and the counters only grow |
| BreakerSpec.ClosedAdmits | utils/circuit_breaker.py:77-114 | while CLOSED every call passes and entering changes nothing |
| BreakerSpec.ClosedFailure | utils/circuit_breaker.py:99-105 | a failure while CLOSED counts one more failure, and opens the breaker (stamping the time, counting an opening) exactly when the count reaches the threshold |
| BreakerSpec.OpenWaitsForRecovery | utils/circuit_breaker.py:66-113 | while OPEN entry is refused, changing nothing, exactly until the recovery time has passed; then the breaker is HALF_OPEN with one call in flight |
| BreakerSpec.HalfOpenAdmitsUpToLimit | utils/circuit_breaker.py:75-113 | while HALF_OPEN a call is admitted exactly when fewer than the limit are in flight, and is then counted; a refused one changes nothing |
| BreakerSpec.ExitOutcomes | utils/circuit_breaker.py:79-98 | any success closes the breaker with no failures; a failure in HALF_OPEN reopens it at once, whatever the count |
| BreakerSpec.RunInv | utils/circuit_breaker.py:64-121 | over any sequence of guarded calls the invariant holds and the opened, closed and half-open counters never decrease |
| CircuitBreakers.CircuitBreaker.constructor | utils/circuit_breaker.py:35-55 | the state is `New` of the arguments, CLOSED with nothing counted |
| CircuitBreakers.CircuitBreaker.CanPass | utils/circuit_breaker.py:64-77 | the answer and the new state are those of `CanPass` |
| CircuitBreakers.CircuitBreaker.OnSuccess | utils/circuit_breaker.py:79-88 | the new state is `OnSuccess` of the old one |
| CircuitBreakers.CircuitBreaker.OnFailure | utils/circuit_breaker.py:90-105 | the new state is `OnFailure` of the old one |
| CircuitBreakers.CircuitBreaker.Enter | utils/circuit_breaker.py:108-114 | admitted, and the new state, as `Enter` says; the invariant is kept |
| CircuitBreakers.CircuitBreaker.Exit | utils/circuit_breaker.py:116-121 | the new state is `Exit` of the old one; the invariant is kept |
| CircuitBreakers.CircuitBreaker.GetStats | utils/circuit_breaker.py:148-159 | the name, state and every counter, as they are |
| TelegramCommands.Remove | utils/telegram_commands.py:18 | the character no longer occurs, and only characters of the input remain |
| TelegramCommands.LStripChar | utils/telegram_commands.py:39 | a suffix of the input that does not start with the character |
| TelegramCommands.Override | utils/telegram_commands.py:70-72 | a value is set exactly when one was set before or one was parsed |
| TelegramCommands.Step | utils/telegram_commands.py:64-136 | every turn of the token loop moves strictly forward and stays within the tokens, so parsing terminates |
| TelegramCommands.StepAsWritten | utils/telegram_commands.py:64-136 | the loop in the source's order moves strictly forward too |
| TelegramCommands.ParseTradeCommand | utils/telegram_commands.py:23-147 | the command returned, or the error, is `Parse` of the text |
| TelegramCommands.Turn | utils/telegram_commands.py:65-136 | one turn of the loop gives the next index and parameters of `Step` |
| TelegramCommands.BlankIsEmptyCommand | utils/telegram_commands.py:28-37 | empty or whitespace-only text is refused as an empty command |
| TelegramCommands.ParsedCommand | utils/telegram_commands.py:39-60 | a parsed command has a symbol, the second word uppercased; its side is the one the first word names once its slashes are stripped, in any case; with no more words all defaults hold |
| TelegramCommands.RefusedCommands | utils/telegram_commands.py:39-46 | a first word other than buy or sell is refused as unsupported, and a missing symbol as required |
| TelegramCommands.InvalidSymbolIff | utils/telegram_commands.py:48-52 | a symbol is refused exactly when it is made of dots and dashes alone |
| TelegramCommands.QtyKept | utils/telegram_commands.py:128-133 | once a quantity is set, only a `qty` keyword changes it; a bare number no longer does |
| TelegramCommands.NotionalKept | utils/telegram_commands.py:76-88 | without a token starting with `$` the notional stays as it was |
| TelegramCommands.OrderTypeKept | utils/telegram_commands.py:90-118 | the order type changes only on an order-type keyword |
| TelegramCommands.PricesKept | utils/telegram_commands.py:95-118 | the limit and stop prices change only on `limit`, `stop` or a stop-limit keyword |
| TelegramCommands.GtcOnlyWhenAsked | utils/telegram_commands.py:120-126 | good-till-cancelled is only ever set by `tif gtc` |
| TelegramCommands.QtyKeyword | utils/telegram_commands.py:68-74 | `qty N` sets the quantity when N parses and consumes both tokens |
| TelegramCommands.LimitKeyword | utils/telegram_commands.py:95-101 | `limit P` makes a limit order, with limit price P when P parses |
| TelegramCommands.StopKeyword | utils/telegram_commands.py:102-108 | `stop P` makes a stop order, with stop price P when P parses |
| TelegramCommands.StopLimitKeyword | utils/telegram_commands.py:109-118 | `stoplimit S L` makes a stop-limit order with stop S and limit L, each when it parses |
| TelegramCommands.TifKeyword | utils/telegram_commands.py:120-126 | `tif V` sets the time in force to day or gtc and keeps it for any other V |
| TelegramCommands.DollarPrefix | utils/telegram_commands.py:76-82 | `$N` sets the notional to N when N parses |
| TelegramCommands.MarketKeyword | utils/telegram_commands.py:90-94 | `mkt` or `market` makes a market order |
| TelegramCommands.OtherToken | utils/telegram_commands.py:128-136 | any other token is the quantity when it parses and none is set yet, and is skipped otherwise |
| TelegramCommands.SellQtyLimitGtc | utils/telegram_commands.py:64-136 | `/sell msft qty 10 limit 450.5 tif gtc` gives quantity 10, a limit order at 450.5, good till cancelled |
| TelegramCommands.NotionalStopLimit | utils/telegram_commands.py:64-136 | `/buy NVDA $1000 stoplimit 850 840` gives notional 1000, a stop-limit order with stop 850 and limit 840 |
| TelegramCommands.BareNumberIsQty | utils/telegram_commands.py:128-133 | `/buy SHOP 12 mkt` gives quantity 12 and a market order |
| TelegramCommands.DollarWordAsWritten | utils/telegram_commands.py:76-88 | as written, `/buy AAPL $ 100` sets the quantity to 100 and no notional: the lone `$` is taken for `$N` |
| TelegramCommands.DollarAsWritten | utils/telegram_commands.py:76-82 | as written, any token starting with `$`, the lone `$` included, is read as `$N` |
| TelegramCommands.DollarWordSetsNotional | utils/telegram_commands.py:83-88 | with the two-token form tried first, `$ N` sets the notional to N and consumes both tokens |
| TelegramCommands.DollarWordFixed | utils/telegram_commands.py:83-88 | with the two-token form tried first, `/buy AAPL $ 100` sets the notional to 100 and no quantity |
| ConfigSpec.Put | wsapp_gui/config.py:117-120 | storing a key changes what that key finds and nothing else; a new key goes to the end of the dict order |
| ConfigSpec.PutSame | wsapp_gui/config.py:120 | storing the value a key already has changes nothing |
| ConfigSpec.AssignOkIff | wsapp_gui/config.py:110-121 | `set` raises exactly when some existing intermediate on the path is not a dict |
| ConfigSpec.AssignThenLookup | wsapp_gui/config.py:97-121 | after a `set` that does not raise, `get` of the same key finds the value |
| ConfigSpec.AssignFrame | wsapp_gui/config.py:110-121 | `set` leaves every path that is neither a prefix nor an extension of the key unchanged |
| ConfigSpec.LookupEmpty | wsapp_gui/config.py:97-108 | an empty configuration finds nothing on any non-empty path |
| ConfigSpec.LookupCons | wsapp_gui/config.py:102-106 | `get` goes one key at a time and stops with nothing as soon as a segment is missing or not a dict |
| ConfigSpec.FindMerge | wsapp_gui/config.py:33-40 | after the merge a missing key holds the default, an existing one keeps its value, and where both are dicts the merge recurses |
| ConfigSpec.MergeKeepsSettings | wsapp_gui/config.py:33-40 | the merge never overwrites: every path the settings define still leads somewhere, to the same value when it is not a dict |
| ConfigSpec.MergeFillsDefaults | wsapp_gui/config.py:33-40 | every path the defaults define is present after the merge, unless the settings block it with a non-dict |
| ConfigSpec.CoveredUnchanged | wsapp_gui/config.py:33-40 | merging defaults the settings already hold changes nothing |
| ConfigSpec.MergeCovers | wsapp_gui/config.py:33-40 | after the merge the settings hold every default key |
| ConfigSpec.MergeIdempotent | wsapp_gui/config.py:33-40 | merging the same defaults twice gives what merging once does |
| ConfigSpec.SetWindowOk | wsapp_gui/config.py:110-121 | a window key can be set exactly when the `window` setting is absent or a dict, and setting it keeps that so |
| ConfigSpec.SetWindowFrame | wsapp_gui/config.py:110-121 | setting one window key leaves the other window keys as they were |
| ConfigSpec.StoreWindow | wsapp_gui/config.py:144-152 | four distinct window keys set one after another all read back as set |
| ConfigSpec.ReadGeometry | wsapp_gui/config.py:123-134 | a window holding width, height, x and y reads back as "WxH+X+Y" |
| ConfigSpec.GeometryRoundTrip | wsapp_gui/config.py:123-156 | saving "WxH+X+Y" and reading the geometry back gives the same text |
| ConfigSpec.SaveNeverRaises | wsapp_gui/config.py:136-156 | saving any geometry text raises nothing when the window can be stored: unparseable text is ignored |
| ConfigSpec.GeometryRaisesWhenBlocked | wsapp_gui/config.py:136-156 | when `window` holds something other than a dict, saving a well-formed geometry raises |
| AppConfigs.AppConfig.constructor | wsapp_gui/config.py:21-87 | the loaded settings, or none, merged with the defaults |
| AppConfigs.AppConfig.Get | wsapp_gui/config.py:97-108 | the value on the dotted path, or the default when the walk stops |
| AppConfigs.AppConfig.Set | wsapp_gui/config.py:110-121 | the configuration becomes `Assign` of the dotted path, or stays as it was with the error raised |
| AppConfigs.AppConfig.GetWindowGeometry | wsapp_gui/config.py:123-134 | the text `WindowGeometry` gives: "WxH", with "+X+Y" only when both are set |
| AppConfigs.AppConfig.SaveWindowGeometry | wsapp_gui/config.py:136-156 | the configuration and the outcome are those of `SaveGeometry` |
| Signals.ToDict | analytics/strategies.py:17-21 | keeps index, kind and reason; "conf" present exactly when a confidence is, within 0.00005 of it |
| Signals.SortByIndex | analytics/backtest.py:91 | the result is ordered by index and has the input's length |
| Signals.SortPermutes | analytics/backtest.py:91 | the sorted signals are a permutation of the input |
| Signals.SortStable | analytics/backtest.py:91 | signals sharing an index keep their input order (the sort is stable) |
| Backtests.Fill | analytics/backtest.py:96-104 | a fill never changes the book's value at the fill price; it acts only as an all-in buy when flat at a positive price (cash becomes 0) or an all-out sell when long (quantity becomes 0); a non-negative book stays non-negative at a non-negative price |
| Backtests.Drain | analytics/backtest.py:94-105 | the inner loop stops at the first signal of another index, keeps the book's value at the close, and keeps the book flat-or-all-in |
| Backtests.DrainPasses | analytics/backtest.py:94-105 | every signal the inner loop consumes has the current close index |
| Backtests.Simulate | analytics/backtest.py:87-107 | after n closes the equity curve has exactly n points |
| Backtests.SimulateReplays | analytics/backtest.py:91-107 | on sorted signals, after n closes exactly the signals of earlier indices are consumed, and the book equals filling, in order, each of them whose index is a close, at that close |
| Backtests.CurveMarks | analytics/backtest.py:107 | point i of the curve is the value, at close i, of the book held before the signals of index i (they do not move it) |
| Backtests.SimulateKeepsBook | analytics/backtest.py:97-104 | the book is always flat or all in (qty = 0 or cash = 0); with non-negative initial cash and closes, cash and quantity stay non-negative |
| Backtests.StallsAsWritten | analytics/backtest.py:94 | as written, a first sorted signal with a negative index is never consumed, so no later signal is filled and the book keeps the initial cash |
| Backtests.TradePrice | analytics/backtest.py:115-117 | a signal has a trade price exactly when its index is a close and that close is positive |
| Backtests.Pair | analytics/backtest.py:112-123 | an open entry price is positive and every per-trade return is above -1 |
| Backtests.PairsCounted | analytics/backtest.py:114-123 | completed trades never outnumber priced sells, and completed plus open trades never outnumber priced buys |
| Backtests.StatsOf | analytics/backtest.py:110-129 | count is the number of returns, 0 <= winners <= count, win rate in [0, 1] and equal to winners/count; all zero without trades |
| Backtests.RunningPeak | analytics/backtest.py:45-54 | the running peak bounds every point so far |
| Backtests.DrawdownAt | analytics/backtest.py:55 | a point's drawdown is never positive, and at least -1 for a non-negative point |
| Backtests.WorstDrawdown | analytics/backtest.py:56-59 | never positive and below every point's drawdown |
| Backtests.ScanWorst | analytics/backtest.py:44-59 | the loop's max_dd equals the deepest drawdown of the points scanned |
| Backtests.ScanWitness | analytics/backtest.py:44-59 | a negative max_dd is the drawdown at dd_end, and dd_start <= dd_end is where the running peak was reached |
| Backtests.MetricsDrawdown | analytics/backtest.py:13-77 | fewer than 2 points, or an annualised return that overflows (the fail-soft `except`), give zero drawdown and no indices; otherwise max_drawdown is the deepest drawdown; always <= 0, >= -1 on a non-negative curve, and start/end are None exactly when it is 0 |
| Backtests.Backtest | analytics/backtest.py:80-141 | raises exactly when there is a close and no initial cash; without closes final equity = initial cash, return 0, empty curve, zero drawdown; one curve point per close, one trade per signal, bounded statistics |
| Backtests.FinalEquityReplays | analytics/backtest.py:92-135 | the final equity is the value at the last close of the book that fills the sorted signals in order |
| Backtests.Simulation | analytics/backtest.py:87-107 | the simulation loop computes the equity curve of `Simulate` |
| Backtests.TradeStatistics | analytics/backtest.py:110-131 | the pairing loop computes `StatsOf` of the paired returns |
| Backtests.EquityMetrics | analytics/backtest.py:13-77 | the method computes `MetricsOf`: the fail-soft metrics for a short curve or an overflowing annualised return, and otherwise the drawdown loop's result |
| Backtests.RunSignalsBacktest | analytics/backtest.py:80-141 | returns `Backtest` |
| Backtests.IntOf | analytics/backtest.py:162-165 | `int()` keeps an int and raises on None |
| Backtests.Convert | analytics/backtest.py:157-166 | a converted input yields a signal exactly when it is kept; a Signal is kept unchanged |
| Backtests.NormalizeOk | analytics/backtest.py:156-166 | normalising succeeds exactly when every input converts |
| Backtests.NormalizeCount | analytics/backtest.py:156-166 | one signal per Signal, 2-tuple or dict with index and kind; every other input dropped |
| Backtests.NormalizeSignals | analytics/backtest.py:158-159 | a list of Signal objects passes through unchanged |
| Backtests.QuickBacktest | analytics/backtest.py:144-167 | raises the first conversion error, else returns `Backtest` of the normalised signals |
| Backtests.NormalizeAll | analytics/backtest.py:156-166 | the conversion loop returns `Normalize` of the inputs: the first conversion error, or every kept signal in order |
| Indicators.SmaAt | analytics/indicators.py:14-15 | an entry is None exactly before the first full window |
| Indicators.Sma | analytics/indicators.py:5-16 | raises "window must be > 0" for a window that is not positive; otherwise every entry is the mean of the `window` values ending there, None before the first full window |
| Indicators.EmaOf | analytics/indicators.py:32-34 | the first `window - 1` entries are None and only those |
| Indicators.EmaBounded | analytics/indicators.py:25-31 | the running average stays within any range that holds all the values seen so far |
| Indicators.Ema | analytics/indicators.py:19-35 | raises for a window that is not positive; otherwise the running average with smoothing factor 2/(window+1), blanked before `window - 1` |
| Indicators.Gains | analytics/indicators.py:44-46 | one non-negative gain per value |
| Indicators.Losses | analytics/indicators.py:44-47 | one non-negative loss per value |
| Indicators.NoFallNoLoss | analytics/indicators.py:45-47 | prices that never fall have no losses |
| Indicators.GainsAndLosses | analytics/indicators.py:41-47 | the first loop produces exactly the gains and the losses |
| Indicators.WilderNonNegative | analytics/indicators.py:55-60 | Wilder's averages of non-negative entries are non-negative |
| Indicators.WilderZero | analytics/indicators.py:55-60 | Wilder's average of zeros is zero |
| Indicators.RsiSeries | analytics/indicators.py:51-62 | entries before `period` are None and the others present |
| Indicators.RsiOf | analytics/indicators.py:38-63 | raises for a period that is not positive and, with a period of 1, at the assertion once there are two values; otherwise one entry per value, None exactly before `period` |
| Indicators.RsiValueRange | analytics/indicators.py:61-62 | with non-negative averages the index lies between 0 and 100, and a zero average loss gives 100 |
| Indicators.RsiRange | analytics/indicators.py:38-63 | every index `rsi` returns is between 0 and 100 |
| Indicators.RsiNeverFalling | analytics/indicators.py:61-62 | prices that never fall give an index of 100 wherever it is defined |
| Indicators.Smooth | analytics/indicators.py:49-63 | the smoothing loop seeds at `period - 1`, smooths afterwards, and fails at the assertion for a period of 1 |
| Indicators.Rsi | analytics/indicators.py:38-63 | the method's result is the one `RsiOf` specifies |
| Indicators.Diff | analytics/indicators.py:70-73 | an entry is present exactly when both inputs are |
| Indicators.MacdOf | analytics/indicators.py:66-85 | raises "window must be > 0" exactly when one of the three spans is not positive |
| Indicators.MacdShape | analytics/indicators.py:66-85 | all three lists have one entry per value; the line starts at the slower average, the signal after `signal - 1` values, the histogram where both exist and equals their difference |
| Indicators.MacdFilled | analytics/indicators.py:74-82 | filling the gaps of the line puts zeros before it starts and the line's own values after |
| Indicators.FillGaps | analytics/indicators.py:75-82 | the loop carries the last value present across gaps, starting from 0 |
| Indicators.Macd | analytics/indicators.py:66-85 | the method's result is the one `MacdOf` specifies |
| Indicators.WindowVariance | analytics/indicators.py:97-99 | the variance of a full window is non-negative |
| Indicators.BandAt | analytics/indicators.py:94-102 | a band is None exactly before the first full window |
| Indicators.BollingerOf | analytics/indicators.py:88-103 | raises as `sma` does exactly for a window that is not positive; the middle band is the simple moving average; one entry per value in each band |
| Indicators.BandsAroundMid | analytics/indicators.py:94-102 | the bands are present exactly where the middle is, lie symmetrically about it, and enclose it for a non-negative `num_std` |
| Indicators.BandsAt | analytics/indicators.py:97-102 | one window's upper and lower band are the ones `BollingerOf` specifies |
| Indicators.Bollinger | analytics/indicators.py:88-103 | the method's result is the one `BollingerOf` specifies |
| Strategies.PresentIndexed | analytics/strategies.py:41-71 | the signals collected from the per-close results are in strictly increasing index order, each is the one due at its index, and every due signal is among them |
| Strategies.PassesFilter | analytics/strategies.py:50-60 | the bandwidth filter lets a close through exactly when `min_bandwidth` is not positive or the bands exist there, the middle is non-zero and `(upper - lower) / mid >= min_bandwidth` |
| Strategies.DistanceConfidence | analytics/strategies.py:63 | the distance confidence `min(1, abs(diff)/s)` (0 when s is 0) is at most 1, and non-negative when the slow average is positive |
| Strategies.MeanGaps | analytics/strategies.py:38-48 | the fast-minus-slow difference exists exactly from index `max(fast, slow) - 1` on |
| Strategies.NewMaCross | analytics/strategies.py:27-35 | the crossover constructor raises "fast must be < slow" exactly when `fast >= slow` |
| Strategies.MaCrossAtCases | analytics/strategies.py:43-70 | a crossover signal is due at close i exactly when both differences exist, the filter passes and the difference changes sign; buy exactly on an up-cross, sell exactly on a down-cross, confidence at most 1 |
| Strategies.MaCrossOf | analytics/strategies.py:37-40 | `generate` raises the window error exactly when the fast, slow or Bollinger window is not positive |
| Strategies.MaCrossSignals | analytics/strategies.py:37-71 | the crossover's output is strictly increasing in index, each signal is the one due at its close, and none that is due is missing |
| Strategies.MaCrossGenerate | analytics/strategies.py:37-71 | the loop returns exactly the specification's result, error or signal list |
| Strategies.MaCrossVisit | analytics/strategies.py:44-70 | one loop pass yields the signal due at close i and the difference remembered for the next close |
| Strategies.ThresholdConfidence | analytics/strategies.py:108-113 | `min(1, gap/20)` is at most 1 and positive for a positive gap |
| Strategies.RsiReversionAt | analytics/strategies.py:95-116 | a reversion signal at close i exists exactly when the RSI exists, the filter passes and the RSI is below `low` (buy) or, otherwise, above `high` (sell); confidence in (0, 1] |
| Strategies.RsiReversionOf | analytics/strategies.py:91-93 | `generate` raises as `rsi` does first, then the window error for a non-positive Bollinger window |
| Strategies.RsiReversionSignals | analytics/strategies.py:91-117 | the reversion output is strictly increasing in index, each signal is the one due at its close, and none that is due is missing |
| Strategies.RsiReversionGenerate | analytics/strategies.py:91-117 | the loop returns exactly the specification's result |
| Strategies.RsiReversionVisit | analytics/strategies.py:96-116 | one loop pass yields the signal due at close i |
| Strategies.NewConfluence | analytics/strategies.py:127-147 | the confluence constructor raises "fast must be < slow" when `fast >= slow`, else "rsi thresholds invalid" unless `0 < rsi_sell < rsi_buy < 100` |
| Strategies.ConfluenceConfidence | analytics/strategies.py:182-201 | the confluence confidence is at most 1 and at least 0.6 for non-negative distances |
| Strategies.ConfluenceAtCases | analytics/strategies.py:158-207 | a confluence signal is due exactly when both differences, the RSI and the histogram exist, the filter passes and a cross is confirmed by RSI and histogram; buy exactly for a confirmed up-cross; confidence at most 1 |
| Strategies.DefaultHist | analytics/strategies.py:153 | the MACD histogram with the default spans 12/26/9 has one entry per close |
| Strategies.MacdShapeLength | analytics/strategies.py:153 | `macd` with the default spans never raises |
| Strategies.ConfluenceOf | analytics/strategies.py:149-154 | `generate` raises exactly when a moving-average window is not positive, `rsi` raises or the Bollinger window is not positive |
| Strategies.ConfluenceSignals | analytics/strategies.py:149-209 | the confluence output is strictly increasing in index, each signal is the one due at its close, and none that is due is missing |
| Strategies.ConfluenceGenerate | analytics/strategies.py:149-209 | the loop returns exactly the specification's result |
| Strategies.ConfluenceVisit | analytics/strategies.py:158-208 | one loop pass yields the signal due at close i and the difference remembered for the next close |
| EnhancedSpec.ModerateRefuses | enhanced_ai_system.py:40-50 | any text containing one of the blocked words is refused, whatever surrounds it |
| EnhancedSpec.LowerAppend | enhanced_ai_system.py:46 | lowercasing a concatenation lowercases each part |
| EnhancedSpec.Recent | enhanced_ai_system.py:84 | the kept timestamps are exactly those of the bucket less than 60 s old, and no more of them |
| EnhancedSpec.BucketBounded | enhanced_ai_system.py:78-88 | a bucket within the quota stays within it, holding only stamps of the last minute |
| EnhancedSpec.BucketRecords | enhanced_ai_system.py:85-88 | an allowed call records `now` after the recent stamps; a refused one records nothing |
| EnhancedSpec.NonEmpty | enhanced_ai_system.py:92 | the kept options are exactly the non-empty ones |
| EnhancedSpec.Pick | enhanced_ai_system.py:90-100 | the choice is None exactly when every option is empty, and otherwise a non-empty option |
| EnhancedSpec.PickFirst | enhanced_ai_system.py:95-96 | outside deterministic mode the choice is the first non-empty option |
| EnhancedSpec.AddedBounded | enhanced_ai_system.py:119-125 | the memory stays within its capacity; a non-empty message is kept as the newest item and the memory is a suffix of the old items plus it; empty text changes nothing |
| EnhancedSpec.SummaryParts | enhanced_ai_system.py:135-142 | the summary has a line per item of the last six at most, preceded by a note counting the older items when there are any |
| EnhancedSpec.SummaryShows | enhanced_ai_system.py:136-142 | after the note, the lines are those of the last items, in order |
| EnhancedSpec.Summarize | enhanced_ai_system.py:130-144 | the summary is empty exactly when the memory is |
| EnhancedSpec.CountPositions | enhanced_ai_system.py:161 | the number of positions never exceeds the number of entries |
| EnhancedSpec.CountExcludesCash | enhanced_ai_system.py:161 | every entry is counted exactly when none carries a cash symbol |
| EnhancedSpec.Weights | enhanced_ai_system.py:162-169 | there are no weights when the total is not positive, and at most one per entry |
| EnhancedSpec.ComputeMetrics | enhanced_ai_system.py:159-193 | with a non-positive total the cash ratio, concentration and top share are 0; the normalised concentration equals the raw one |
| EnhancedSpec.ValueSplit | enhanced_ai_system.py:160-174 | the cash value and the non-cash value add up to the total, and are not negative when no value is |
| EnhancedSpec.WeightsShare | enhanced_ai_system.py:162-169 | the weights add up to the non-cash share of the total, each within [0, 1] |
| EnhancedSpec.SquaresBelowSum | enhanced_ai_system.py:170 | the concentration index is at most the sum of the weights |
| EnhancedSpec.MetricsBounds | enhanced_ai_system.py:159-193 | with no negative value, the cash ratio is in [0, 100], the concentration in [0, 1] and the top share in [0, 100] |
| EnhancedSpec.LabelMonotone | enhanced_ai_system.py:195-202 | a more concentrated portfolio never gets a better diversification label |
| EnhancedAi.Safety.constructor | enhanced_ai_system.py:34-38 | the quota is clamped to at least 1 and there are no buckets |
| EnhancedAi.Safety.RateLimit | enhanced_ai_system.py:78-88 | the call is allowed exactly when fewer than the quota remain in the last minute; the key's bucket becomes the recent stamps, plus `now` when allowed; no bucket exceeds the quota |
| EnhancedAi.ContextMemory.constructor | enhanced_ai_system.py:115-117 | the capacity is clamped to at least 4 and the memory is empty |
| EnhancedAi.ContextMemory.Add | enhanced_ai_system.py:119-125 | the items become `Added` of the old ones, within capacity |
| EnhancedAi.ContextMemory.Clear | enhanced_ai_system.py:127-128 | the memory is emptied |
| AgentSpec.ToPositions | ai_agent.py:255-267 | no more positions than dictionaries |
| AgentSpec.ToPositionsFrom | ai_agent.py:255-267 | every position has a non-empty symbol and the symbol and PnL of one of the dictionaries |
| AgentSpec.ToPositionsKeeps | ai_agent.py:265-266 | there are as many positions as dictionaries whose symbol is present and non-empty |
| AgentSpec.PortfolioTotal | ai_agent.py:612 | the total is never zero, and is the sum of the values whenever that sum is not zero |
| AgentSpec.Normalize | ai_agent.py:614-620 | the normalised index lies in [0, 1], and is 0 with fewer than two shares |
| AgentSpec.LabelBands | ai_agent.py:621-626 | the label is "Bonne" exactly below 0.15, "Moyenne" exactly in [0.15, 0.30) and "Faible" exactly from 0.30 |
| AgentSpec.MetricsShape | ai_agent.py:601-640 | the metrics count the positions; the label is "N/A" exactly without positions, with every figure 0; the normalised index lies in [0, 1] and otherwise the label is its band's |
| AgentSpec.CashWithin | ai_agent.py:627-629 | with no negative value, the cash part lies between 0 and the total value |
| AgentSpec.SharesWithin | ai_agent.py:613 | each share lies in [0, 1] and the shares add up to the value over the total |
| AgentSpec.MetricsBounds | ai_agent.py:611-640 | with no negative value, the cash ratio and the top share lie in [0, 100] and the concentration index in [0, 1] |
| AgentSpec.NoCashSymbols | ai_agent.py:627-630 | without a CAD or USD position the cash ratio is 0 |
| AgentSpec.OnlyCashSymbols | ai_agent.py:627-630 | a portfolio of CAD and USD positions only, worth something, has a cash ratio of 100 |
| AgentSpec.LabelMonotone | ai_agent.py:621-626 | a more concentrated portfolio never gets a better label |
| AgentSpec.LastOf | ai_agent.py:646 | the kept entries are the last `n`, or all of them when there are fewer |
| AgentSpec.Remember | ai_agent.py:642-646 | the new entry is kept last; a memory within 16 entries stays within them, and one below 16 just grows by the entry |
| AgentSpec.RememberIsLast | ai_agent.py:642-646 | one entry remembered keeps the last 16 of the old memory and the entry |
| AgentSpec.MemoryWindow | ai_agent.py:642-646 | entries remembered one after another leave exactly the last 16 of all of them, in order |
| AgentSpec.ClampQty | ai_agent.py:1016-1021 | (0, 0) when the total is not positive; otherwise a quantity in [0, total × max_pct] that is the desired one or 0 at most, with its percentage of the total |
| AgentSpec.ClampQtyWithinCap | ai_agent.py:1016-1021 | a desired amount within the cap is granted in full, at a percentage of at most max_pct × 100 |
| AgentSpec.Rises | ai_agent.py:236-239 | one non-negative rise per consecutive pair of prices |
| AgentSpec.Falls | ai_agent.py:236-239 | one non-negative fall per consecutive pair of prices |
| AgentSpec.SmoothedNonNegative | ai_agent.py:240-245 | Wilder's averages of non-negative changes are never negative |
| AgentSpec.AgentRsi | ai_agent.py:230-251 | nothing for fewer than period + 1 prices, otherwise len(prices) − 1 − period values |
| AgentSpec.AgentRsiRange | ai_agent.py:244-250 | every value of the index lies in [0, 100] |
| AgentSpec.AgentRsiNeverFalling | ai_agent.py:246-247 | prices that never fall give an index of 100 throughout |
| AgentSignalsSpec.ConcentrationFlags | ai_agent.py:1219-1234 | a symbol is flagged for concentration exactly when one of its positions holds more than a quarter of the total |
| AgentSignalsSpec.FlaggedAt | ai_agent.py:1219-1234 | a position above a quarter of the total is flagged |
| AgentSignalsSpec.FlaggedFrom | ai_agent.py:1219-1234 | every concentration flag comes from a position above a quarter of the total |
| AgentSignalsSpec.AtMostThreeConcentrated | ai_agent.py:1217-1221 | with no negative value at most three positions are flagged for concentration |
| AgentSignalsSpec.PnlAlarm | ai_agent.py:1236-1277 | the PnL rule tried in order: PNL_DROP exactly at a loss of at least the alert threshold, else PNL_DOWN exactly at a loss of at least the warning threshold, else PNL_RUN exactly at a gain of at least the alert threshold, else nothing (and nothing without a PnL) |
| AgentSignalsSpec.PnlAlarmsFrom | ai_agent.py:1236-1238 | every PnL signal comes from a position that has a PnL, by that position's rule |
| AgentSignalsSpec.CashAlarms | ai_agent.py:1279-1300 | at most one cash signal: CASH_LOW exactly below 2 %, CASH_HIGH exactly above 60 % |
| AgentSignalsSpec.DiversificationAlarms | ai_agent.py:1302-1311 | LOW_DIVERSIFICATION exactly when there are positions and the normalised index exceeds 0.30 |
| AgentSignalsSpec.LowDiversificationLabel | ai_agent.py:621-626 | a portfolio flagged as poorly diversified is labelled "Faible" |
| AgentSignalsSpec.SortByValueKeeps | ai_agent.py:1313 | the holdings sorted by value are in descending order and a permutation of the positions |
| AgentSignalsSpec.SortByValueStable | ai_agent.py:1313 | the sort is stable: positions of equal value keep their input order, which decides the ties among the five checked |
| AgentSignalsSpec.NonCashKeeps | ai_agent.py:1313 | the non-cash filter keeps exactly the positions whose symbol is neither CAD nor USD |
| AgentSignalsSpec.TopNonCashOrdered | ai_agent.py:1313 | at most five holdings are checked, in descending order of value |
| AgentSignalsSpec.TopNonCashMembers | ai_agent.py:1313 | every holding checked is a non-cash position |
| AgentSignalsSpec.TopNonCashLargest | ai_agent.py:1313 | a non-cash position left out is worth no more than any holding checked |
| AgentSignalsSpec.TechAlarm | ai_agent.py:1315-1337 | a holding raises an alert exactly when its last one is at least an hour old and its reading is BUY or SELL; the alert is technical and about that symbol |
| AgentSignalsSpec.TechPassKept | ai_agent.py:1313-1337 | in one pass each symbol is alerted at most once, only when its previous alert is at least an hour old, is then stamped with the time, and every other stamp is unchanged |
| AgentSignalsSpec.TechCodes | ai_agent.py:1199 | the codes starting with "TECH_" are exactly TECH_BUY and TECH_SELL |
| AgentSignalsSpec.NamesDistinct | ai_agent.py:1229-1336 | distinct codes and levels have distinct names |
| AgentSignalsSpec.CodeOf | ai_agent.py:1173-1182 | a name read as a code names that code |
| AgentSignalsSpec.TechGateBypassed | ai_agent.py:1196-1207 | as written, a predicate that raises lets a technical alert through while technical alerts are off, which are otherwise held back |
| AgentSignalsSpec.Allowed | ai_agent.py:1196-1207 | a signal is allowed exactly when it is not a technical alert held back by the switch and the predicate does not answer no |
| AgentSignalsSpec.MentionsContains | ai_agent.py:1182 | the search for the explanation finds exactly the occurrences of it in the message |
| AgentSignalsSpec.EnrichedShape | ai_agent.py:1172-1183 | the enriched message starts with the message, contains the code's explanation when it has one, and is the message itself otherwise |
| AgentSignalsSpec.EnrichedIdempotent | ai_agent.py:1182-1183 | enriching an enriched message changes nothing |
| AgentSignalsSpec.Records | ai_agent.py:1192-1193 | one signal recorded per alarm |
| AgentSignalsSpec.RecordsAppend | ai_agent.py:1192-1193 | the signals of two passes in a row are those of the first followed by those of the second |
| AgentSignalsSpec.Notes | ai_agent.py:1208-1210 | at most one notification per alarm |
| AgentSignalsSpec.NotesAppend | ai_agent.py:1208-1210 | the notifications of two passes in a row are those of the first followed by those of the second |
| AgentSignalsSpec.GateClosedSilent | ai_agent.py:1203-1210 | nothing is forwarded when the predicate answers no, notifications are off or no manager is set |
| AgentSignalsSpec.TechOffSilent | ai_agent.py:1199-1208 | with technical alerts off no technical code is forwarded |
| AgentSignalsSpec.Generated | ai_agent.py:1214-1216 | without positions nothing is raised and the stamps are unchanged |
| Agents.CalculateRsi | ai_agent.py:230-251 | the index computed equals `AgentRsi` of the prices |
| Agents.PriceChanges | ai_agent.py:235-239 | the first loop builds exactly the rises and the falls |
| Agents.WilderPass | ai_agent.py:240-251 | the second loop builds exactly the smoothed index values |
| Agents.AIAgent.constructor | ai_agent.py:56-127 | thresholds as given; no signals, positions, metrics, chat memory or stamps; notifications on only when asked and the manager exists; technical alerts as configured |
| Agents.AIAgent.GetSignals | ai_agent.py:271-272 | the last 200 signals in order, all of them when there are no more |
| Agents.AIAgent.AppendHistory | ai_agent.py:642-646 | the chat memory becomes `AppendTurn` of the old one and stays within 16 entries |
| Agents.AIAgent.RefreshMetrics | ai_agent.py:601-640 | the metrics of the last positions are returned and stored |
| Agents.AIAgent.CurrentMetrics | ai_agent.py:1302 | the stored metrics when there are some, else freshly computed and stored ones |
| Agents.AIAgent.Emit | ai_agent.py:1171-1212 | the signal with its enriched message is appended to the history; one notification is forwarded exactly when `Forwards` holds |
| Agents.AIAgent.EmitAlarm | ai_agent.py:1171-1212 | one alarm: its signal is recorded and its note forwarded as `Notes` decides |
| Agents.AIAgent.EmitPortfolio | ai_agent.py:1217-1311 | the history grows by the records of `PortfolioAlarms` (concentration, PnL, cash, diversification, in that order) and their notes are forwarded |
| Agents.AIAgent.EmitConcentration | ai_agent.py:1217-1234 | the history grows by the records of `ConcentrationAlarms` and the forwarded notes are theirs |
| Agents.AIAgent.EmitPnl | ai_agent.py:1235-1277 | the history grows by the records of `PnlAlarms` and the forwarded notes are theirs |
| Agents.AIAgent.EmitCash | ai_agent.py:1278-1300 | the history grows by the records of `CashAlarms` and the forwarded notes are theirs |
| Agents.AIAgent.EmitDiversification | ai_agent.py:1301-1311 | the history grows by the records of `DiversificationAlarms` and the forwarded notes are theirs |
| Agents.AIAgent.EmitTechOf | ai_agent.py:1316-1337 | one holding: the records and notes of `TechAlarm`, and its symbol stamped `now` exactly when it raised an alert |
| Agents.AIAgent.EmitTech | ai_agent.py:1312-1337 | the history grows by the alerts of `TechPass` and the stamps become the pass's |
| Agents.AIAgent.EmitGenerated | ai_agent.py:1217-1337 | the history grows by the records of `Generated`, its notes are forwarded and the stamps become its own |
| Agents.AIAgent.GenerateSignals | ai_agent.py:1214-1337 | as `EmitGenerated`, with the stored metrics or freshly computed ones, and nothing at all without positions |
| Agents.AIAgent.OnPositions | ai_agent.py:254-269 | the positions become those of the dictionaries with a symbol, their metrics are stored, and the signals of `Generated` follow |
| SearchCacheSpec.Put | wsapp_gui/search_manager.py:48 | storing under a key keeps the dict well formed, maps the key to the new entry, and grows the key list only for a new key |
| SearchCacheSpec.Remove | wsapp_gui/search_manager.py:53 | deleting a key keeps the dict well formed and removes exactly that key |
| SearchCacheSpec.OldestIn | wsapp_gui/search_manager.py:51-52 | the evicted position holds the smallest timestamp, and no earlier key has the same one (the first minimum, as `min` picks it) |
| SearchCacheSpec.Lookup | wsapp_gui/search_manager.py:39-44 | the cached results are returned exactly when the entry exists and is younger than 30 minutes |
| SearchCacheSpec.Size | wsapp_gui/search_manager.py:50 | the number of cached queries is the length of the key list |
| SearchCacheSpec.CachedBounded | wsapp_gui/search_manager.py:46-53 | a cache of at most 100 queries still holds at most 100 after storing |
| SearchCacheSpec.CachedQuery | wsapp_gui/search_manager.py:46-53 | after storing, the query maps to the new results stamped now, unless it was itself evicted, which needs every other entry to be strictly younger |
| SearchCacheSpec.CachedOthers | wsapp_gui/search_manager.py:46-53 | storing leaves every other surviving query's entry unchanged |
| SearchCacheSpec.CachedEvictsOldest | wsapp_gui/search_manager.py:50-53 | a query that disappears was no younger than any query that stays |
| SearchCacheSpec.CachedServed | wsapp_gui/search_manager.py:32-53 | results just stored are served back at the same time |
| SearchManagers.Returned | wsapp_gui/search_manager.py:89-96 | a fetch that is not a list is cached as no rows; a fetch that raised caches nothing |
| SearchManagers.Refusal | wsapp_gui/search_manager.py:61-73 | a query is refused exactly when it is shorter than 2 characters after stripping or the API is not connected, with the message of the first failing check |
| SearchManagers.SearchManager.constructor | wsapp_gui/search_manager.py:26-30 | the cache starts empty and well formed |
| SearchManagers.SearchManager.IsCacheValid | wsapp_gui/search_manager.py:32-37 | true exactly when the query is cached and its age is below the TTL |
| SearchManagers.SearchManager.GetCachedResults | wsapp_gui/search_manager.py:39-44 | returns the stored results exactly when the entry is fresh |
| SearchManagers.SearchManager.CacheResults | wsapp_gui/search_manager.py:46-53 | the new cache is `Cached` of the old one, and the 100-query bound is kept |
| SearchManagers.SearchManager.SearchSecurities | wsapp_gui/search_manager.py:55-108 | a refused query reads and writes nothing; a fresh entry of the lowercased query is served without fetching; otherwise the fetched rows are cached under the lowercased query, and a raising fetch caches nothing |
| AlertsSpec.Select | wsapp_gui/app_mixins/alerts_playbooks_risk.py:71 | the kept rows are exactly the input rows whose kind matches (any kind for "Tous") and whose score is at least the minimum, and there are no more of them than input rows |
| AlertsSpec.GroupPrefixGrouped | wsapp_gui/app_mixins/alerts_playbooks_risk.py:72-77 | after any number of rows the dict names each symbol seen once, in first-appearance order, and holds for each the first of its rows with the highest score |
| AlertsSpec.GroupDistinct | wsapp_gui/app_mixins/alerts_playbooks_risk.py:72-78 | with grouping on, no two kept rows share a symbol |
| AlertsSpec.GroupCovers | wsapp_gui/app_mixins/alerts_playbooks_risk.py:72-78 | every symbol of the selected rows keeps a row |
| AlertsSpec.GroupBest | wsapp_gui/app_mixins/alerts_playbooks_risk.py:72-78 | the row kept for a symbol is the first of its rows with that symbol's highest score |
| AlertsSpec.GroupFromInput | wsapp_gui/app_mixins/alerts_playbooks_risk.py:72-78 | every grouped row is one of the selected rows |
| AlertsSpec.SortByScore | wsapp_gui/app_mixins/alerts_playbooks_risk.py:78 | the sorted rows are in descending score order, as many as before |
| AlertsSpec.SortPermutes | wsapp_gui/app_mixins/alerts_playbooks_risk.py:78 | the sort is a permutation of the kept rows |
| AlertsSpec.SortStable | wsapp_gui/app_mixins/alerts_playbooks_risk.py:78 | the sort is stable: rows of equal score keep their order, so the top-N cut keeps the earlier of tied rows |
| AlertsSpec.FiltersSound | wsapp_gui/app_mixins/alerts_playbooks_risk.py:55-81 | every shown row is an input row passing the selection, the rows are in descending score order, at most `top_n` are shown when it is positive, and otherwise all kept rows are shown |
| AlertsSpec.TopAlert | wsapp_gui/app_mixins/alerts_playbooks_risk.py:38-45 | nothing is sent for an empty table; otherwise the code is the top row's kind uppercased, '_', and its symbol, with its message |
| AlertsSpec.AlertCodeSplits | wsapp_gui/app_mixins/alerts_playbooks_risk.py:45 | for a kind without '_', the code splits at its first '_' back into the uppercased kind and the symbol |
| Alerts.RowsOf | wsapp_gui/app_mixins/alerts_playbooks_risk.py:25-27 | one row per engine alert, under the symbol, with a missing score read as 0 |
| Alerts.GroupBySymbol | wsapp_gui/app_mixins/alerts_playbooks_risk.py:72-78 | the dict loop yields exactly the grouping of the selected rows |
| Alerts.FilterRows | wsapp_gui/app_mixins/alerts_playbooks_risk.py:55-81 | the method returns the filter of the rows under the stripped kind, minimum score, grouping switch and top-N count |
| Alerts.AlertsPanel.RefreshView | wsapp_gui/app_mixins/alerts_playbooks_risk.py:83-93 | the table becomes the filtered raw rows; the raw rows are unchanged |
| Alerts.AlertsPanel.Generate | wsapp_gui/app_mixins/alerts_playbooks_risk.py:10-28 | an empty stripped, uppercased symbol changes nothing; otherwise the raw rows become the engine's alerts under that symbol and the table is refreshed |
| Alerts.AlertsPanel.SendTop | wsapp_gui/app_mixins/alerts_playbooks_risk.py:32-45 | the code and message sent are those of the top row of the table, and nothing is sent when it is empty |
| RunnerSpec.Close | wsapp_gui/strategy_runner.py:165-168 | a bar that is not a dict has no close; a non-zero numeric '4. close' is the close |
| RunnerSpec.LexTotal | wsapp_gui/strategy_runner.py:165 | any two date keys are ordered one way or the other by Python's string order |
| RunnerSpec.SortItems | wsapp_gui/strategy_runner.py:165 | the sorted items are in ascending date order, as many as before |
| RunnerSpec.SortItemsPermutes | wsapp_gui/strategy_runner.py:165 | the sort is a permutation of the dict's items |
| RunnerSpec.CloseListAll | wsapp_gui/strategy_runner.py:165-170 | when every bar has a close, the list holds each bar's close, in order |
| RunnerSpec.FirstSeries | wsapp_gui/strategy_runner.py:161 | the first key containing "Time Series" is found, or none when no key contains it |
| RunnerSpec.ExtractCloses | wsapp_gui/strategy_runner.py:157-171 | no "Time Series" key, or a value that is not a dict, gives no closes |
| RunnerSpec.FreshAt | wsapp_gui/strategy_runner.py:81 | the fresh signals are exactly those at the last close index |
| RunnerSpec.Evaluated | wsapp_gui/strategy_runner.py:64 | a run looks at the first fifty symbols of the universe, all of them when there are fewer |
| RunnerSpec.AlertAllFrame | wsapp_gui/strategy_runner.py:82-99 | the loop over a symbol's fresh signals records each kind at the last index, touches no other symbol's keys, only appends alerts of that symbol, and moves one counter per alert |
| RunnerSpec.AlertAllSilent | wsapp_gui/strategy_runner.py:84-85 | signals whose (symbol, kind) already records the last index are all skipped |
| RunnerSpec.EvalSymbolFrame | wsapp_gui/strategy_runner.py:71-100 | evaluating a symbol records every fresh signal's key at the last index and keeps every key that already does |
| RunnerSpec.EvalAllHolds | wsapp_gui/strategy_runner.py:71-102 | a key recorded at its symbol's last index stays recorded for the rest of the run |
| RunnerSpec.EvalAllMarks | wsapp_gui/strategy_runner.py:71-102 | after the loop every evaluated symbol has all its fresh signals recorded |
| RunnerSpec.EvalAllCounts | wsapp_gui/strategy_runner.py:68-100 | the loop only appends alerts, each moving exactly one of the buy and sell counters, and checks each symbol at most once |
| RunnerSpec.EvalAllSilent | wsapp_gui/strategy_runner.py:82-85 | when every symbol's fresh signals are recorded, the loop alerts nothing and records nothing new |
| RunnerSpec.RerunSilent | wsapp_gui/strategy_runner.py:60-110 | a second run on the same data alerts nothing and leaves the record as the first run left it |
| RunnerSpec.AlertOneKeeps | wsapp_gui/strategy_runner.py:83-95 | alerting one fresh signal keeps every alert recorded and no two alerts alike |
| RunnerSpec.AlertAllKeeps | wsapp_gui/strategy_runner.py:82-99 | the same over all fresh signals of a symbol |
| RunnerSpec.EvalAllKeeps | wsapp_gui/strategy_runner.py:71-102 | the same over the whole loop |
| RunnerSpec.RunAlerts | wsapp_gui/strategy_runner.py:60-110 | every alert of a run is a signal at its symbol's last close index, no (symbol, kind, index) is alerted twice, buys plus sells count the alerts, and at most fifty symbols are checked |
| RunnerSpec.AlertOneNew | wsapp_gui/strategy_runner.py:83-95 | an alerted signal's key did not hold at the start of the run, and keys that held still hold |
| RunnerSpec.AlertAllNew | wsapp_gui/strategy_runner.py:82-99 | the same over all fresh signals of a symbol |
| RunnerSpec.EvalAllNew | wsapp_gui/strategy_runner.py:71-102 | the same over the whole loop |
| RunnerSpec.RunSkipsRecorded | wsapp_gui/strategy_runner.py:82-85 | a (symbol, kind) already recorded at its symbol's last close index is never alerted again |
| StrategyRunners.ReadCloses | wsapp_gui/strategy_runner.py:157-171 | the method returns the closes of the first "Time Series" value by ascending date |
| StrategyRunners.StrategyRunner.constructor | wsapp_gui/strategy_runner.py:18-38 | disabled, 300 s interval, 'ma_cross', the default parameters, nothing recorded |
| StrategyRunners.StrategyRunner.SetConfig | wsapp_gui/strategy_runner.py:40-48 | each given setting replaces the current one, the interval is at least 15, given parameters override and the others are kept |
| StrategyRunners.StrategyRunner.RunOnce | wsapp_gui/strategy_runner.py:60-110 | a skip report without evaluating anything when analytics or the API is missing or the universe is empty; otherwise the record, alerts and report of the run |
| StrategyRunners.EvalSymbolStep | wsapp_gui/strategy_runner.py:72-100 | one symbol: fewer than 30 closes or no signal skip it; otherwise its fresh signals are alerted |
| StrategyRunners.AlertDue | wsapp_gui/strategy_runner.py:82-99 | the loop over fresh signals computes the alerts, record and counters of the specification |
| ExternalSpec.NextBackoff | external_apis.py:509-514 | a 429 sets the backoff to 2 s when there was none and doubles it otherwise, always within [2, 60] |
| ExternalSpec.Halve | external_apis.py:522 | halving in double precision gives a smaller non-negative wait, zero exactly for the smallest double |
| ExternalSpec.EasedBackoff | external_apis.py:518-522 | a zero backoff stays zero; a positive one shrinks, reaching zero only from the smallest double |
| ExternalSpec.BackoffGrows | external_apis.py:509-514 | each 429 at least doubles the wait up to the 60 s ceiling, and never shortens it |
| ExternalSpec.BackoffAfterHits | external_apis.py:509-514 | after n 429s from no backoff the wait is min(60, 2^n) seconds |
| ExternalSpec.ChooseProvider | external_apis.py:1640-1655 | Alpha Vantage is chosen exactly when 'alpha' is asked for (stripped, lowercased) and the key is set and non-empty |
| ExternalSpec.ValidSeriesIff | external_apis.py:1687-1694 | a payload is valid exactly when it is present and one of its keys contains 'time series' in any case and maps to a non-empty dict |
| ExternalSpec.ScanSeriesFinds | external_apis.py:1691-1694 | the scan from a position finds such an entry exactly when one exists from there on |
| ExternalSpec.InOrderTotal | external_apis.py:2319-2322 | any two quotes are ordered one way or the other by each sort key |
| ExternalSpec.InsertBy | external_apis.py:2319-2322 | inserting a quote adds exactly that quote |
| ExternalSpec.InsertBySorted | external_apis.py:2319-2322 | inserting into an ordered list keeps it ordered |
| ExternalSpec.SortBy | external_apis.py:2319-2322 | the sort is a permutation of the list |
| ExternalSpec.SortBySorted | external_apis.py:2319-2322 | the sorted list is in the order of its key |
| ExternalSpec.ClampTop | external_apis.py:2304 | `top_n` is clamped into [1, 50], and a value already inside is kept |
| ExternalSpec.Opportunities | external_apis.py:2309-2317 | the opportunities are exactly the losers down 5 % or more, down 0.5 or more, or down on volume above 200000, a sub-multiset of the losers |
| ExternalSpec.Take | external_apis.py:2324-2327 | a slice keeps a prefix of at most the given length |
| ExternalSpec.TakeSorted | external_apis.py:2324-2327 | a prefix of an ordered list is ordered and drawn from it |
| ExternalSpec.MoversShape | external_apis.py:2304-2328 | gainers by change percent descending, losers and opportunities ascending, actives by volume descending; at most `top_n` of each and `top_n // 2` (or 1) opportunities; every list drawn from the screener's; every opportunity a qualifying loser |
| ExternalSpec.CodeKey | external_apis.py:2139 | the rate-limit key is the stripped code, "GENERAL" when that is empty, never empty |
| ExternalSpec.DecideCases | external_apis.py:2139-2225 | nothing is sent for a code sent within the minimum interval, with Telegram off, or with the level off (INFO passes for TECH_ codes); technical codes go through the buffer exactly when the rest lets them through and technical alerts are included, the first of a window being sent; WARN and ALERT are sent; other levels are dropped |
| ExternalSpec.QuietAfterSend | external_apis.py:2141-2145 | after a code is sent, the same code is quiet until the minimum interval has passed |
| ExternalSpec.PollDelay | external_apis.py:1114-1117 | the polling pause is between 0.8 and 10 seconds |
| ExternalSpec.PollDelayShape | external_apis.py:1114-1117 | the pause grows with the error count, is 0.8 s without errors and 10 s from four errors on |
| ExternalSpec.Pow2Mono | external_apis.py:1116 | the doubling factor grows with the error count |
| ExternalApis.YahooLimiter.Note429 | external_apis.py:509-516 | the backoff moves to its next value and the next allowed time is now plus backoff plus jitter, so the client is rate limited for at least 2 s |
| ExternalApis.YahooLimiter.NoteSuccess | external_apis.py:518-524 | the backoff is eased, and the next allowed time is cleared only when a positive backoff reaches zero |
| ExternalApis.YahooLimiter.constructor | external_apis.py:478-480 | no backoff and no wait |
| ExternalApis.Max0 | external_apis.py:522 | `max(0.0, x)` is non-negative, at least x, and x itself when non-negative |
| ExternalApis.MarketSelector.SetMarketProvider | external_apis.py:1634-1655 | the market becomes the chosen provider and the name returned is the one `get_market_provider` reports |
| ExternalApis.CheckSeries | external_apis.py:1687-1694 | the loop returns the validity of the payload |
| ExternalApis.Notifier.NotifyAlert | external_apis.py:2137-2225 | quiet and coalesced signals return True and record no send time; sent ones return whether Telegram took them and record the send time when it did; the technical buffer grows by the signal, marked sent when it was the first and went out |
| ExternalApis.LevelOrInfo | external_apis.py:2184 | the buffered level is the uppercased level, or INFO when empty |
| ExternalApis.TelegramPoller.GetUpdates | external_apis.py:1061-1087 | without a token nothing changes; a failed poll counts one more error, at most eight; a reply resets the count and moves the last update id to the last update's |
| ExternalApis.TelegramPoller.Offset | external_apis.py:1069-1070 | the next poll asks from one past the last update id seen |
| ExternalApis.TelegramPoller.Delay | external_apis.py:1114-1117 | the pause after a poll is between 0.8 and 10 seconds |
| ExternalApis.NextUpdateId | external_apis.py:1075-1076 | the last update's id when it has one, and otherwise the id seen before |
| ExternalSpec.InitialProvider | external_apis.py:1567-1572 | a set MARKET_DATA_PROVIDER decides by its lowercased name, without looking at the key; otherwise Alpha Vantage exactly when the key is set |
| ExternalApis.MarketSelector.constructor | external_apis.py:1567-1572 | the manager starts on the initial provider |
| ExternalApis.Notifier.constructor | external_apis.py:1586-1597 | no send times, an empty buffer, and the minimum interval from the environment, 30 s by default |
| ExternalApis.TelegramPoller.constructor | external_apis.py:951-954 | no update seen and no error counted |
| EnvLines.SplitLine | utils/env.py:29-34 | a line gives no assignment exactly when, stripped, it is empty, a '#' comment or has no '='; otherwise the key has no '=' and key and value are stripped |
| EnvLines.SplitLineRoundTrip | utils/env.py:29-34 | a line written `key=value` with a clean key and value splits back into exactly that key and value |
| EnvLines.CutCommentShape | utils/env.py:41-42 | cutting an inline comment keeps a prefix of the text without '#', all of the text when it has no '#', and otherwise no trailing whitespace |
| DotEnv.QuotedValue | utils/env.py:35-39 | a quoted value with a closing quote is the text strictly between the opening quote and the next same quote, which it does not contain |
| DotEnv.QuotedText | utils/env.py:35-39 | `"v"` with no double quote in `v` is stored as `v` |
| DotEnv.QuotedRoundTrip | utils/env.py:29-39 | a line `key="value"` assigns `value` to `key` exactly, '#' included |
| DotEnv.Assignment | utils/env.py:29-42 | a line assigns nothing exactly when it is skipped |
| DotEnv.ApplyKeeps | utils/env.py:43-44 | a variable already set keeps its value whatever the lines say |
| DotEnv.LoadFilesKeeps | utils/env.py:23-47 | across all files, no variable already set is overwritten |
| DotEnv.FirstWins | utils/env.py:43-44 | the first assignment of a new variable that the OS accepts is the one kept |
| DotEnv.ApplyFrom | utils/env.py:43-44 | every variable a file adds comes from one of its lines, with that line's value |
| DotEnv.LoadFile | utils/env.py:27-47 | the loop over a file's lines gives the environment the assignments define, and a refused assignment ends the file |
| DotEnv.LoadDotenvSafe | utils/env.py:19-47 | the loop over the files gives the environment of loading them in order, a missing file being passed over |
| RunWsEnv.UnquoteShape | run_ws.py:57-68 | a quoted value keeps, at its head, the text between the opening quote and the next same quote, which holds no such quote |
| RunWsEnv.ValueAsWritten | run_ws.py:55-71 | as written, no stored value ever holds a '#', quoted or not |
| RunWsEnv.AsWrittenDiffers | run_ws.py:57-71 | the code as written and the corrected rule differ exactly on a quoted value whose text holds a '#' |
| RunWsEnv.HashInQuotes | run_ws.py:69-71 | `KEY="p#ss"` loads `p` as written and `p#ss` under the corrected rule |
| RunWsEnv.QuotedText | run_ws.py:57-68 | `"v"` with no double quote inside unquotes to `v` |
| RunWsEnv.QuotedRoundTrip | run_ws.py:48-72 | a line `key="value"` loads `value` under `key` exactly, '#' included |
| RunWsEnv.Assignment | run_ws.py:49-55 | a line assigns nothing exactly when, stripped, it is empty, a comment or has no '=' |
| RunWsEnv.StoreSnoc | run_ws.py:72 | each line's assignment is applied on top of the earlier ones |
| RunWsEnv.LastWins | run_ws.py:72 | the last line that assigns a key decides its value |
| RunWsEnv.Unassigned | run_ws.py:72 | a key no line assigns is left as it was |
| RunWsEnv.AssignedPresent | run_ws.py:72 | a key some line assigns has a last such line |
| RunWsEnv.StoredKey | run_ws.py:48-72 | a key is in the dictionary exactly when some line assigns it |
| RunWsEnv.Alias | run_ws.py:74-75 | `WS_USERNAME` is present afterwards exactly when it or `WS_EMAIL` was; an existing `WS_USERNAME` is kept, a missing one takes `WS_EMAIL`'s value, and every other key is unchanged |
| RunWsEnv.LoadEnvKeys | run_ws.py:44-76 | a key other than `WS_USERNAME` is loaded exactly when some line assigns it, and `WS_USERNAME` exactly when some line assigns it or `WS_EMAIL` |
| RunWsEnv.LoadEnvValue | run_ws.py:44-76 | a key other than `WS_USERNAME` is loaded with the value of the last line assigning it |
| RunWsEnv.StoreLines | run_ws.py:48-72 | the loop over the lines gives the dictionary of the lines' assignments, later ones winning |
| RunWsEnv.LoadEnv | run_ws.py:44-76 | a missing file gives the empty dictionary; otherwise the loaded lines with the alias rule applied |
| MediaSpec.Normalize | wsapp_gui/media_manager.py:50-61 | the uppercased, stripped symbol is split at its first '.': without one, the whole symbol on market `US`; with one, the text before it on the market of the suffix after it |
| MediaSpec.NormalizeListing | wsapp_gui/media_manager.py:50-61 | a clean ticker `base.suffix` is listed as `(base, market of suffix)` |
| MediaSpec.Candidates | wsapp_gui/media_manager.py:64-76 | the EODHD URL comes first, then the IEX URL when the market is `US`, then the Finnhub URL when a key is set, and nothing else |
| MediaSpec.CandidatesByService | wsapp_gui/media_manager.py:64-76 | the IEX URL is among the candidates exactly when the market is `US`, and the Finnhub URL exactly when the key is set |
| MediaSpec.LogoRequestCases | wsapp_gui/media_manager.py:142-151 | an empty symbol is answered with None; the cached image is served exactly when the cleaned symbol has an entry younger than the TTL (a missing time stamp counting as 0); otherwise the cleaned symbol is fetched |
| MediaSpec.StoredServed | wsapp_gui/media_manager.py:147-151 | a logo stored at time `at` is served to any request made less than a TTL later |
| MediaSpec.ClampTtl | wsapp_gui/media_manager.py:127-131 | the TTL set is never negative and equals the requested one when that is not negative |
| MediaSpec.ClampDetailPx | wsapp_gui/media_manager.py:133-137 | the detail size is at least 16 and equals the requested one when that is at least 16 |
| MediaSpec.DetailPx | wsapp_gui/media_manager.py:95 | an explicit non-zero detail size is kept; otherwise it is the larger of 64 and the list size |
| MediaSpec.InitialTtl | wsapp_gui/media_manager.py:108-117 | `MEDIA_CACHE_TTL_SEC` wins when set (3600 when not a number), then the constructor's TTL, then 3600 |
| MediaManagers.MediaManager.constructor | wsapp_gui/media_manager.py:91-117 | the sizes and TTL are initialised by `DetailPx` and `InitialTtl`, with an empty cache |
| MediaManagers.MediaManager.SetTtl | wsapp_gui/media_manager.py:127-131 | the TTL becomes the clamped value, or is unchanged when the value cannot be converted; nothing else changes |
| MediaManagers.MediaManager.SetDetailLogoPx | wsapp_gui/media_manager.py:133-137 | the detail size becomes the clamped value, or is unchanged when it cannot be converted; nothing else changes |
| MediaManagers.MediaManager.GetLogoAsync | wsapp_gui/media_manager.py:139-164 | the call decides as `LogoRequest` does, reading the current cache and TTL |
| MediaManagers.MediaManager.StoreLogo | wsapp_gui/media_manager.py:199-205 | the entry and the current time are stored under the symbol; sizes and TTL are unchanged |
| ErrorSpec.MakeError | utils/error_handler.py:17-30 | the message, code and recoverable flag are kept; an absent or empty user message falls back to the message, absent details to an empty dictionary, and given details are kept |
| ErrorSpec.Str | utils/error_handler.py:32-35 | with a non-empty code the text is `[`, the code, `] ` and the message; otherwise it is the message |
| ErrorSpec.Classify | utils/error_handler.py:107-144 | a classified error has no code and no details, and is recoverable exactly when it is a network or authentication error |
| ErrorSpec.ClassifyCases | utils/error_handler.py:107-144 | the class is network, authentication, configuration or base according to the first keyword family the lowercased text matches; the message ends with the original text and the user message is the advice of that class |
| ErrorHandlers.ErrorHandler.constructor | utils/error_handler.py:65-68 | a new handler has the given window and no callbacks or actions |
| ErrorHandlers.ErrorHandler.RegisterErrorCallback | utils/error_handler.py:70-74 | the callback is appended to the list of its class, keeping the earlier ones; nothing else changes |
| ErrorHandlers.ErrorHandler.RegisterRecoveryAction | utils/error_handler.py:76-78 | the action is stored under its code; nothing else changes |
| ErrorHandlers.ErrorHandler.HandleError | utils/error_handler.py:80-105 | a `WSError` is used as it is and any other exception is classified; the callbacks of its class are called in registration order; a dialog is shown exactly when requested and a window is attached |
| ErrorHandlers.Global.GetErrorHandler | utils/error_handler.py:207-214 | the first call creates the shared handler; later calls return the same one, attaching the window only when it has none |
| StripWs.TrimEnd | tools/strip_trailing_ws.py:34-39 | `rstrip(' \t')` returns a prefix of its input that does not end in a space or tab, and removes only spaces and tabs |
| StripWs.StripLineShape | tools/strip_trailing_ws.py:29-42 | a stripped line has no space or tab before its end or its newline, keeps its newline exactly when it had one, and otherwise agrees with the original character by character |
| StripWs.StripLineIdempotent | tools/strip_trailing_ws.py:29-42 | stripping a line twice gives the same as stripping it once |
| StripWs.StrippedUnchanged | tools/strip_trailing_ws.py:35-41 | a line with no trailing space or tab is left as it is |
| StripWs.StripLines | tools/strip_trailing_ws.py:28-42 | the new file has one line per old line, each the stripped old line |
| StripWs.ChangedLines | tools/strip_trailing_ws.py:35-41 | the new lines differ from the old ones exactly when some line changed |
| StripWs.StripFile | tools/strip_trailing_ws.py:21-45 | the loop yields the stripped lines, and `changed` (the condition for rewriting the file) holds exactly when some line differed |
| StripWs.StripStep | tools/strip_trailing_ws.py:30-42 | one pass yields the stripped line and whether it differs from the old one |
| StripWs.StripFileOnce | tools/strip_trailing_ws.py:29-45 | after one run, a second run finds nothing to change and would not rewrite the file |
| StripWs.ShouldVisitExcluded | tools/strip_trailing_ws.py:16-18 | a path is skipped exactly when one of its parts is an excluded directory name |

## Left out

- OnSignalKeepsGood: ExecutorSpec.OnSignalKeepsGood proves the invariant `Good` (no overdrawn cash) of the executor that sizes buys with the cash and cap bounds rounded down, where wsapp_gui/trade_executor.py:380-390 and 600-617 use `round(x, 4)` to nearest; for example base size 1000 at price 3 with cash 2 buys 0.6666 here and 0.6667 (cost 2.0001) in the source, which leaves the cash at -0.0001. The as-written sizing is TradeModel.SignalBuySize and OrderBuySize with `Nearest` (Findings). As written, `Good` does not hold.
- ExecBuyKeepsGood: ExecutorSpec.ExecBuyKeepsGood proves the invariant `Good` (no overdrawn cash) of the executor that sizes buys with the cash and cap bounds rounded down, where wsapp_gui/trade_executor.py:380-390 and 600-617 use `round(x, 4)` to nearest; for example base size 1000 at price 3 with cash 2 buys 0.6666 here and 0.6667 (cost 2.0001) in the source, which leaves the cash at -0.0001. The as-written sizing is TradeModel.SignalBuySize and OrderBuySize with `Nearest` (Findings). As written, `Good` does not hold.
- PlaceOrderKeepsGood: ExecutorSpec.PlaceOrderKeepsGood proves the invariant `Good` (no overdrawn cash) of the executor that sizes buys with the cash and cap bounds rounded down, where wsapp_gui/trade_executor.py:380-390 and 600-617 use `round(x, 4)` to nearest; for example base size 1000 at price 3 with cash 2 buys 0.6666 here and 0.6667 (cost 2.0001) in the source, which leaves the cash at -0.0001. The as-written sizing is TradeModel.SignalBuySize and OrderBuySize with `Nearest` (Findings). As written, `Good` does not hold.
- ExecBuyRefusedEarly: ExecutorSpec.ExecBuyRefusedEarly sizes buys with the cash and cap bounds rounded down, where wsapp_gui/trade_executor.py:380-390 and 600-617 use `round(x, 4)` to nearest; for example base size 1000 at price 3 with cash 2 buys 0.6666 here and 0.6667 (cost 2.0001) in the source, which leaves the cash at -0.0001. The as-written sizing is TradeModel.SignalBuySize and OrderBuySize with `Nearest` (Findings).
- ExecBuyRefusedByCaps: ExecutorSpec.ExecBuyRefusedByCaps sizes buys with the cash and cap bounds rounded down, where wsapp_gui/trade_executor.py:380-390 and 600-617 use `round(x, 4)` to nearest; for example base size 1000 at price 3 with cash 2 buys 0.6666 here and 0.6667 (cost 2.0001) in the source, which leaves the cash at -0.0001. The as-written sizing is TradeModel.SignalBuySize and OrderBuySize with `Nearest` (Findings).
- ExecBuySized: ExecutorSpec.ExecBuySized sizes buys with the cash and cap bounds rounded down, where wsapp_gui/trade_executor.py:380-390 and 600-617 use `round(x, 4)` to nearest; for example base size 1000 at price 3 with cash 2 buys 0.6666 here and 0.6667 (cost 2.0001) in the source, which leaves the cash at -0.0001. The as-written sizing is TradeModel.SignalBuySize and OrderBuySize with `Nearest` (Findings).
- SignalBuyRespectsCaps: ExecutorSpec.SignalBuyRespectsCaps sizes buys with the cash and cap bounds rounded down, where wsapp_gui/trade_executor.py:380-390 and 600-617 use `round(x, 4)` to nearest; for example base size 1000 at price 3 with cash 2 buys 0.6666 here and 0.6667 (cost 2.0001) in the source, which leaves the cash at -0.0001. The as-written sizing is TradeModel.SignalBuySize and OrderBuySize with `Nearest` (Findings).
- FillAtPriceFills: ExecutorSpec.FillAtPriceFills sizes buys with the cash and cap bounds rounded down, where wsapp_gui/trade_executor.py:380-390 and 600-617 use `round(x, 4)` to nearest; for example base size 1000 at price 3 with cash 2 buys 0.6666 here and 0.6667 (cost 2.0001) in the source, which leaves the cash at -0.0001. The as-written sizing is TradeModel.SignalBuySize and OrderBuySize with `Nearest` (Findings).
- FillBuyWithinCaps: ExecutorSpec.FillBuyWithinCaps sizes buys with the cash and cap bounds rounded down, where wsapp_gui/trade_executor.py:380-390 and 600-617 use `round(x, 4)` to nearest; for example base size 1000 at price 3 with cash 2 buys 0.6666 here and 0.6667 (cost 2.0001) in the source, which leaves the cash at -0.0001. The as-written sizing is TradeModel.SignalBuySize and OrderBuySize with `Nearest` (Findings).
- ExecBuy: TradeExecutor.Executor.ExecBuy sizes buys with the cash and cap bounds rounded down, where wsapp_gui/trade_executor.py:380-390 and 600-617 use `round(x, 4)` to nearest; for example base size 1000 at price 3 with cash 2 buys 0.6666 here and 0.6667 (cost 2.0001) in the source, which leaves the cash at -0.0001. The as-written sizing is TradeModel.SignalBuySize and OrderBuySize with `Nearest` (Findings).
- OnSignal: TradeExecutor.Executor.OnSignal sizes buys with the cash and cap bounds rounded down, where wsapp_gui/trade_executor.py:380-390 and 600-617 use `round(x, 4)` to nearest; for example base size 1000 at price 3 with cash 2 buys 0.6666 here and 0.6667 (cost 2.0001) in the source, which leaves the cash at -0.0001. The as-written sizing is TradeModel.SignalBuySize and OrderBuySize with `Nearest` (Findings).
- Trade: TradeExecutor.Executor.Trade sizes buys with the cash and cap bounds rounded down, where wsapp_gui/trade_executor.py:380-390 and 600-617 use `round(x, 4)` to nearest; for example base size 1000 at price 3 with cash 2 buys 0.6666 here and 0.6667 (cost 2.0001) in the source, which leaves the cash at -0.0001. The as-written sizing is TradeModel.SignalBuySize and OrderBuySize with `Nearest` (Findings).
- PlaceOrder: TradeExecutor.Executor.PlaceOrder sizes buys with the cash and cap bounds rounded down, where wsapp_gui/trade_executor.py:380-390 and 600-617 use `round(x, 4)` to nearest; for example base size 1000 at price 3 with cash 2 buys 0.6666 here and 0.6667 (cost 2.0001) in the source, which leaves the cash at -0.0001. The as-written sizing is TradeModel.SignalBuySize and OrderBuySize with `Nearest` (Findings).
- FillAtPrice: TradeExecutor.Executor.FillAtPrice sizes buys with the cash and cap bounds rounded down, where wsapp_gui/trade_executor.py:380-390 and 600-617 use `round(x, 4)` to nearest; for example base size 1000 at price 3 with cash 2 buys 0.6666 here and 0.6667 (cost 2.0001) in the source, which leaves the cash at -0.0001. The as-written sizing is TradeModel.SignalBuySize and OrderBuySize with `Nearest` (Findings).
- BuyQtyForCash: TradeExecutor.BuyQtyForCash sizes buys with the cash and cap bounds rounded down, where wsapp_gui/trade_executor.py:380-390 and 600-617 use `round(x, 4)` to nearest; for example base size 1000 at price 3 with cash 2 buys 0.6666 here and 0.6667 (cost 2.0001) in the source, which leaves the cash at -0.0001. The as-written sizing is TradeModel.SignalBuySize and OrderBuySize with `Nearest` (Findings).
- CapBuyQty: TradeExecutor.CapBuyQty sizes buys with the cash and cap bounds rounded down, where wsapp_gui/trade_executor.py:380-390 and 600-617 use `round(x, 4)` to nearest; for example base size 1000 at price 3 with cash 2 buys 0.6666 here and 0.6667 (cost 2.0001) in the source, which leaves the cash at -0.0001. The as-written sizing is TradeModel.SignalBuySize and OrderBuySize with `Nearest` (Findings).
- OrderBuyQty: TradeExecutor.OrderBuyQty sizes buys with the cash and cap bounds rounded down, where wsapp_gui/trade_executor.py:380-390 and 600-617 use `round(x, 4)` to nearest; for example base size 1000 at price 3 with cash 2 buys 0.6666 here and 0.6667 (cost 2.0001) in the source, which leaves the cash at -0.0001. The as-written sizing is TradeModel.SignalBuySize and OrderBuySize with `Nearest` (Findings).
- Step: TelegramCommands.Step reads the tokens in the corrected order, trying the two-token `$ N` form before the `$`-prefix test. utils/telegram_commands.py:76-88 tests `startswith("$")` first, so `/buy AAPL $ 100` gives quantity 100 and no notional in the source and notional 100 here. The as-written order is TelegramCommands.StepAsWritten (Findings).
- ParseTradeCommand: TelegramCommands.ParseTradeCommand reads the tokens in the corrected order, trying the two-token `$ N` form before the `$`-prefix test. utils/telegram_commands.py:76-88 tests `startswith("$")` first, so `/buy AAPL $ 100` gives quantity 100 and no notional in the source and notional 100 here. The as-written order is TelegramCommands.StepAsWritten (Findings).
- Turn: TelegramCommands.Turn reads the tokens in the corrected order, trying the two-token `$ N` form before the `$`-prefix test. utils/telegram_commands.py:76-88 tests `startswith("$")` first, so `/buy AAPL $ 100` gives quantity 100 and no notional in the source and notional 100 here. The as-written order is TelegramCommands.StepAsWritten (Findings).
- Simulate: Backtests.Simulate follows the corrected signal loop, which skips a signal whose index is not a close index. The inner loop of analytics/backtest.py:94 stops at such a signal for good, so with signals (-1, buy) and (2, buy) the source never trades and the model buys at index 2. The as-written loop is Backtests.SimulateAsWritten (Findings).
- SimulateReplays: Backtests.SimulateReplays follows the corrected signal loop, which skips a signal whose index is not a close index. The inner loop of analytics/backtest.py:94 stops at such a signal for good, so with signals (-1, buy) and (2, buy) the source never trades and the model buys at index 2. The as-written loop is Backtests.SimulateAsWritten (Findings).
- CurveMarks: Backtests.CurveMarks follows the corrected signal loop, which skips a signal whose index is not a close index. The inner loop of analytics/backtest.py:94 stops at such a signal for good, so with signals (-1, buy) and (2, buy) the source never trades and the model buys at index 2. The as-written loop is Backtests.SimulateAsWritten (Findings).
- Backtest: Backtests.Backtest follows the corrected signal loop, which skips a signal whose index is not a close index. The inner loop of analytics/backtest.py:94 stops at such a signal for good, so with signals (-1, buy) and (2, buy) the source never trades and the model buys at index 2. The as-written loop is Backtests.SimulateAsWritten (Findings).
- Simulation: Backtests.Simulation follows the corrected signal loop, which skips a signal whose index is not a close index. The inner loop of analytics/backtest.py:94 stops at such a signal for good, so with signals (-1, buy) and (2, buy) the source never trades and the model buys at index 2. The as-written loop is Backtests.SimulateAsWritten (Findings).
- FinalEquityReplays: Backtests.FinalEquityReplays states the final equity of the corrected signal loop, which skips a signal whose index is not a close index. The inner loop of analytics/backtest.py:94 stops at such a signal for good, so with closes [1, 2, 4, 8], signals (-1, buy) and (2, buy) and cash 10 the source reports final equity 10 and the model reports 20, from 2.5 shares bought at 4. The as-written loop is Backtests.SimulateAsWritten (Findings).
- QuickBacktest: Backtests.QuickBacktest returns `Backtest`, which follows the corrected signal loop. The inner loop of analytics/backtest.py:94 stops for good at a signal whose index is not a close index, so with signals (-1, buy) and (2, buy) the source never trades and the model buys at index 2. The as-written loop is Backtests.SimulateAsWritten (Findings).
- RunSignalsBacktest: Backtests.RunSignalsBacktest follows the corrected signal loop, which skips a signal whose index is not a close index. The inner loop of analytics/backtest.py:94 stops at such a signal for good, so with signals (-1, buy) and (2, buy) the source never trades and the model buys at index 2. The as-written loop is Backtests.SimulateAsWritten (Findings).
- Allowed: AgentSignalsSpec.Allowed forwards by the corrected gate of `_emit`, in which a `notifications_allowed` predicate that raises still leaves technical alerts off. ai_agent.py:1203-1207 sets `allowed = True` on the exception, so with technical alerts off and a raising predicate the source forwards TECH_BUY and TECH_SELL and the model does not. The as-written gate is AgentSignalsSpec.AllowedAsWritten (Findings).
- TechOffSilent: AgentSignalsSpec.TechOffSilent states that no technical code is forwarded while technical alerts are off. This holds for the corrected gate of `_emit` only. ai_agent.py:1203-1207 sets `allowed = True` when the `notifications_allowed` predicate raises, so there the source forwards TECH_BUY and TECH_SELL with technical alerts off. AgentSignalsSpec.TechGateBypassed proves that case for the as-written gate (Findings).
- Notes: AgentSignalsSpec.Notes forwards by the corrected gate of `_emit`, in which a `notifications_allowed` predicate that raises still leaves technical alerts off. ai_agent.py:1203-1207 sets `allowed = True` on the exception, so with technical alerts off and a raising predicate the source forwards TECH_BUY and TECH_SELL and the model does not. The as-written gate is AgentSignalsSpec.AllowedAsWritten (Findings).
- Emit: Agents.AIAgent.Emit forwards by the corrected gate of `_emit`, in which a `notifications_allowed` predicate that raises still leaves technical alerts off. ai_agent.py:1203-1207 sets `allowed = True` on the exception, so with technical alerts off and a raising predicate the source forwards TECH_BUY and TECH_SELL and the model does not. The as-written gate is AgentSignalsSpec.AllowedAsWritten (Findings).
- EmitAlarm: Agents.AIAgent.EmitAlarm forwards by the corrected gate of `_emit`, in which a `notifications_allowed` predicate that raises still leaves technical alerts off. ai_agent.py:1203-1207 sets `allowed = True` on the exception, so with technical alerts off and a raising predicate the source forwards TECH_BUY and TECH_SELL and the model does not. The as-written gate is AgentSignalsSpec.AllowedAsWritten (Findings).
- EmitPortfolio: Agents.AIAgent.EmitPortfolio forwards by the corrected gate of `_emit`, in which a `notifications_allowed` predicate that raises still leaves technical alerts off. ai_agent.py:1203-1207 sets `allowed = True` on the exception, so with technical alerts off and a raising predicate the source forwards TECH_BUY and TECH_SELL and the model does not. The as-written gate is AgentSignalsSpec.AllowedAsWritten (Findings).
- EmitConcentration: Agents.AIAgent.EmitConcentration forwards by the corrected gate of `_emit`, in which a `notifications_allowed` predicate that raises still leaves technical alerts off. ai_agent.py:1203-1207 sets `allowed = True` on the exception, so with technical alerts off and a raising predicate the source forwards TECH_BUY and TECH_SELL and the model does not. The as-written gate is AgentSignalsSpec.AllowedAsWritten (Findings).
- EmitPnl: Agents.AIAgent.EmitPnl forwards by the corrected gate of `_emit`, in which a `notifications_allowed` predicate that raises still leaves technical alerts off. ai_agent.py:1203-1207 sets `allowed = True` on the exception, so with technical alerts off and a raising predicate the source forwards TECH_BUY and TECH_SELL and the model does not. The as-written gate is AgentSignalsSpec.AllowedAsWritten (Findings).
- EmitCash: Agents.AIAgent.EmitCash forwards by the corrected gate of `_emit`, in which a `notifications_allowed` predicate that raises still leaves technical alerts off. ai_agent.py:1203-1207 sets `allowed = True` on the exception, so with technical alerts off and a raising predicate the source forwards TECH_BUY and TECH_SELL and the model does not. The as-written gate is AgentSignalsSpec.AllowedAsWritten (Findings).
- EmitDiversification: Agents.AIAgent.EmitDiversification forwards by the corrected gate of `_emit`, in which a `notifications_allowed` predicate that raises still leaves technical alerts off. ai_agent.py:1203-1207 sets `allowed = True` on the exception, so with technical alerts off and a raising predicate the source forwards TECH_BUY and TECH_SELL and the model does not. The as-written gate is AgentSignalsSpec.AllowedAsWritten (Findings).
- EmitTechOf: Agents.AIAgent.EmitTechOf forwards by the corrected gate of `_emit`, in which a `notifications_allowed` predicate that raises still leaves technical alerts off. ai_agent.py:1203-1207 sets `allowed = True` on the exception, so with technical alerts off and a raising predicate the source forwards TECH_BUY and TECH_SELL and the model does not. The as-written gate is AgentSignalsSpec.AllowedAsWritten (Findings).
- EmitTech: Agents.AIAgent.EmitTech forwards by the corrected gate of `_emit`, in which a `notifications_allowed` predicate that raises still leaves technical alerts off. ai_agent.py:1203-1207 sets `allowed = True` on the exception, so with technical alerts off and a raising predicate the source forwards TECH_BUY and TECH_SELL and the model does not. The as-written gate is AgentSignalsSpec.AllowedAsWritten (Findings).
- EmitGenerated: Agents.AIAgent.EmitGenerated forwards by the corrected gate of `_emit`, in which a `notifications_allowed` predicate that raises still leaves technical alerts off. ai_agent.py:1203-1207 sets `allowed = True` on the exception, so with technical alerts off and a raising predicate the source forwards TECH_BUY and TECH_SELL and the model does not. The as-written gate is AgentSignalsSpec.AllowedAsWritten (Findings).
- GenerateSignals: Agents.AIAgent.GenerateSignals forwards by the corrected gate of `_emit`, in which a `notifications_allowed` predicate that raises still leaves technical alerts off. ai_agent.py:1203-1207 sets `allowed = True` on the exception, so with technical alerts off and a raising predicate the source forwards TECH_BUY and TECH_SELL and the model does not. The as-written gate is AgentSignalsSpec.AllowedAsWritten (Findings).
- OnPositions: Agents.AIAgent.OnPositions forwards by the corrected gate of `_emit`, in which a `notifications_allowed` predicate that raises still leaves technical alerts off. ai_agent.py:1203-1207 sets `allowed = True` on the exception, so with technical alerts off and a raising predicate the source forwards TECH_BUY and TECH_SELL and the model does not. The as-written gate is AgentSignalsSpec.AllowedAsWritten (Findings).
- RunWsEnv.QuotedText: stores the corrected value, which keeps a '#' inside quotes. run_ws.py:69-71 applies the '#' cut after unquoting too, so `KEY="p#ss"` loads `p` in the source and `p#ss` here. The as-written value is RunWsEnv.ValueAsWritten (Findings).
- RunWsEnv.QuotedRoundTrip: stores the corrected value, which keeps a '#' inside quotes. run_ws.py:69-71 applies the '#' cut after unquoting too, so `KEY="p#ss"` loads `p` in the source and `p#ss` here. The as-written value is RunWsEnv.ValueAsWritten (Findings).
- RunWsEnv.Assignment: stores the corrected value, which keeps a '#' inside quotes. run_ws.py:69-71 applies the '#' cut after unquoting too, so `KEY="p#ss"` loads `p` in the source and `p#ss` here. The as-written value is RunWsEnv.ValueAsWritten (Findings).
- LoadEnvValue: RunWsEnv.LoadEnvValue stores the corrected value, which keeps a '#' inside quotes. run_ws.py:69-71 applies the '#' cut after unquoting too, so `KEY="p#ss"` loads `p` in the source and `p#ss` here. The as-written value is RunWsEnv.ValueAsWritten (Findings).
- StoreLines: RunWsEnv.StoreLines stores the corrected value, which keeps a '#' inside quotes. run_ws.py:69-71 applies the '#' cut after unquoting too, so `KEY="p#ss"` loads `p` in the source and `p#ss` here. The as-written value is RunWsEnv.ValueAsWritten (Findings).
- LoadEnv: RunWsEnv.LoadEnv stores the corrected value, which keeps a '#' inside quotes. run_ws.py:69-71 applies the '#' cut after unquoting too, so `KEY="p#ss"` loads `p` in the source and `p#ss` here. The as-written value is RunWsEnv.ValueAsWritten (Findings).
- **Strings:** case mapping, whitespace and `isalnum` are ASCII only. Python's Unicode case folding ("ß".upper() is "SS"), non-ASCII whitespace such as U+00A0 and non-ASCII letters are not modelled. This affects the search cache key, the logo symbol, the error keywords, the alert code, the Telegram tokens and the `.env` parsers.
- **Presentation:** Tk/ttk widgets, dialogs, charts and message formatting are not modelled. Logging and console output are left out too. They are UI glue with no decision logic.
- **Network and persistence I/O:**
  - HTTP fetches (NewsAPI, Alpha Vantage, Yahoo, EODHD logos), Telegram send and poll, the HTTP retry client and the SQLite cache are not modelled.
  - The file reads and writes of `AppConfig.load_config`/`save_config`, `TradeExecutor._load_ledger`/`_save_ledger` and the stripper's file rewrite are left out as well.
  - What these calls return is a parameter: the quote source, fetched series, Telegram updates and logo bytes.
- **Concurrency:**
  - Not modelled: worker threads, `StrategyRunner._loop/start/stop`, the Telegram polling thread and the `threading.Timer` that flushes the technical-alert buffer of `notify_alert`.
  - The locks of `CircuitBreaker`, `YahooFinanceClient` and `Safety` are left out. Every class is modelled sequentially.
- **Clock and randomness:** the wall clock, the trading day and `random.uniform` jitter are parameters.
- **Host-language primitives:**
  - `float()` is a parameter `num` in the Telegram parser.
  - `x ** 0.5` is a parameter `sqrt` in the indicators and strategies.
  - Fixed-point formatting of reason texts is a parameter `fixed`.
  - The SHA-256 choice of the deterministic `Safety.pick` is a parameter.
  - Regex matching (`Safety.mask_text`, `AIAgent._find_symbols_in_text`) is left out.
  - Floating-point rounding error is left out: prices are exact reals.
- **_equity_metrics:** only the drawdown scan and the fail-soft answer are modelled. Annualised return, volatility and Sharpe ratio use `sqrt` and `**` on floats and are left out. Whether `**` overflows a double, which sends the source to its fail-soft `except`, is a host predicate passed in as `overflows`. The model does not say for which curves it holds; [1, 1000, 500] is one.
- **AIAgent:**
  - Left out: chat (`chat`, `_chat_gemini`, `_chat_ollama`, `_chat_local_natural`, `_augment_user_prompt`), the text reports (`_insights`, `_market_movers`, `_rebalance_suggestion`, `_health_check`, `_risk_summary`, `_get_symbol_info`) and `_enrich_symbol_metrics`.
  - These call the LLMs or format text.
  - `generate_market_signals` (ai_agent.py:274-286) is left out because it only forwards an external call.
  - The `meta` and recommendations attached to an alert (ai_agent.py:1184-1191) are left out.
  - `_sma_signal`'s answer per symbol is a parameter `sma`. All emits of one pass share one `now`.
- **TradeExecutor:**
  - Left out: the convenience wrappers `buy_market` … `sell_stop_limit` (each is one call to `place_order`), `summary`, and `last_actions`, which formats the log.
  - Log entries record what happened, not their text.
  - An exception raised inside `on_signal`'s trade step is not modelled.
- **TradeExecutor.Executor.ExecSell:** models only the live branch of `qty * price if price > 0 else pos.qty` (wsapp_gui/trade_executor.py). Every caller passes a positive price, so the other branch is dead.
- **ConfigSpec.MergeIdempotent:** is proved for any well-keyed defaults. That the literal default document is well-keyed is not proved.
- **ErrorHandlers:**
  - Callbacks, recovery actions and the Tk window are opaque identifiers.
  - A callback or action that raises is not modelled.
  - The dialog is reduced to whether one is shown.
- **DotEnv:**
  - A file is the list of its lines, or None when it is missing or unreadable.
  - `os.environ` assignment errors are the predicate `Settable`.
- **Out of scope:** the `ws_api` session and login code, `utils/performance.py`, logging setup, `setup.py`, `gui.py`, the package `__init__` files and the UI modules.

## Findings

| source | as written | input that shows it | evidently intended | confidence | as-written member | corrected member |
|---|---|---|---|---|---|---|
| wsapp_gui/trade_executor.py:600-603 | `_exec_buy` scales the quantity down to `round(cash / price, 4)`, rounding to nearest, and can cost more than the cash; the per-symbol cap steps round the same way | base size 1000 at price 3 with cash 2 buys 0.6667, costing 2.0001 | rounding must not take the buy past the cash or a cap; the model rounds those bounds down | not executed | TradeModel.SignalBuyOverspendsCash | TradeModel.SignalBuyWithinLimits |
| wsapp_gui/trade_executor.py:388-390 | `place_order` scales a filled buy down to `round(cash / fill_price, 4)` | a market buy of 1 at 3 with cash 2 executes 0.6667, costing 2.0001 | the executed cost never exceeds the cash | not executed | TradeModel.OrderBuyOverspendsCash | TradeModel.OrderBuyWithinLimits |
| analytics/backtest.py:94 | the inner loop only consumes a signal whose index equals the current close index | a first sorted signal with index -1 blocks every later signal: no trade happens | signals outside the closes are skipped | not executed | Backtests.StallsAsWritten | Backtests.SimulateReplays |
| utils/telegram_commands.py:76-88 | `low.startswith("$")` is checked before `low == "$"`, so the two-token `$ N` branch is unreachable | `/buy AAPL $ 100` gives qty 100 and no notional | `$ 100` sets the notional to 100 | not executed | TelegramCommands.DollarWordAsWritten | TelegramCommands.DollarWordFixed |
| run_ws.py:69-71 | the '#' cut runs on every value, a quoted one after unquoting too | `KEY="p#ss"` loads `p` | a quoted value keeps its '#', as the comment "if unquoted" says | not executed | RunWsEnv.HashInQuotes | RunWsEnv.Value |
| ai_agent.py:1203-1207 | a `notifications_allowed` that raises sets `allowed = True` and overrides the technical-alert switch | technical alerts off, a raising predicate and code `TECH_BUY`: the alert is forwarded | a raising predicate does not undo the technical switch | not executed | AgentSignalsSpec.TechGateBypassed | AgentSignalsSpec.Allowed |
