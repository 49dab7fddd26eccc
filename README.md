# SDP-BOT trading core in Dafny

This project models the decision pipeline of SDP-BOT, a BTC/TRY trading bot.
Each iteration of its main loop does the following:

- buys for 100 TRY when the TRY balance covers it;
- fetches a price frame and skips the iteration when the frame is empty;
- trains its learned model once;
- puts four weighted votes (Bollinger, MACD, RSI and the model) into a signal pool;
- reduces the pool by weighted majority;
- sends an order only when the combined decision changes;
- empties the pool.

The project also models the bar-by-bar position simulator of the two backtest scripts and their aggregated balance.

Files, one module each:

- `common.dfy` (`Common`): the trade decision, and `Option` for pandas NaN or Python None. It also has `Result` for calls that raise, and the truncation toward zero that `astype(int)` and `ROUND_DOWN` perform.
- `signal_pool.dfy` (`Pool`): the `SignalPool` class, whose one field is a `map<string, Vote>`. `Tally` is the order-independent weight sum and `Combined` is the weighted-majority decision.
- `utils.dfy` (`Utils`): the balance check, which is a loop proved against an existential predicate. It also has the quantity formatter, and the difference between a Python float's binary value and its decimal text.
- `indicators.dfy` (`Indicators`): the moving average, the Bollinger, MACD and RSI rules, the RSI formula and the volatility-scaled RSI period with its per-bar loop. It also has the two RSI+MACD combinators.
  - A price column is a `seq<real>`.
  - The rolling standard deviation, the MACD and signal lines and the percentage-change volatility are input columns.
- `trader.dfy` (`Trader`): the loop in two forms.
  - `Step` and `RunSpec` are pure functions of the loop's state and each iteration's input: the balance list, the fetched frame and the model's answer.
  - `Bot` is a class that holds the pool, the previous decision, the training flag and the log of orders sent. Its `Run` method is proved to produce exactly what `RunSpec` describes.
- `backtest.dfy` (`Backtest`): `RunBacktest` and `RunMlBacktest` are the imperative loops of `run_backtest` and `run_ml_backtest`. They are proved equal to the recursive `Backtest` and `MlBacktest`, which the lemmas are stated about. `Aggregate` models the scripts' `total_balance` list comprehensions.
  - The strategy is an input: one signal per bar.
  - Iteration `i` looks at the first `i` bars and trades at the close of bar `i - 1`, so the last bar of the data is never traded. The model keeps that behaviour.

## Model

| member | source | states |
|---|---|---|
| Pool.SignalPool.constructor | src/signal_pool.py:9-16 | a new pool is empty |
| Pool.SignalPool.AddSignal | src/signal_pool.py:18-28 | the name maps to the new (value, weight) whether or not it was present; every other name keeps its vote |
| Pool.SignalPool.RemoveSignal | src/signal_pool.py:30-39 | only the name is deleted; an absent name leaves the pool unchanged and is not an error |
| Pool.SignalPool.GetCombinedSignal | src/signal_pool.py:41-60 | the loop over the pool returns the weighted-majority decision of its contents: buy iff the buy weight is larger, sell iff the sell weight is larger, hold iff they tie; the pool is not modified |
| Pool.SignalPool.Reset | src/signal_pool.py:62-68 | the pool is empty afterwards, also when it already was |
| Pool.Decide | src/signal_pool.py:55-60 | buy iff buy weight > sell weight, sell iff sell > buy, hold iff equal |
| Pool.TallyRemove | src/signal_pool.py:51-52 | the weight sum does not depend on the order in which the dictionary is traversed: any entry can be taken out first |
| Pool.TallyUpsert | src/signal_pool.py:28 | overwriting a name replaces that name's old contribution by the new one |
| Pool.TallyNeutralVote | src/signal_pool.py:51-52 | only a vote whose value is exactly 'buy' (or 'sell') counts for that side: any other value, or weight zero, adds nothing |
| Pool.NeutralVoteNeverDecides | src/signal_pool.py:18-28 | 'hold', a non-decision value such as None, or weight zero never changes the combined decision, yet stays stored |
| Pool.EmptyPoolHolds | src/signal_pool.py:62-68 | after a reset the combined decision is hold |
| Pool.OverwriteNotAccumulate | src/signal_pool.py:28 | adding 'x' buy 1 then 'x' sell 5 leaves sell weight 5 counted once and the decision sell |
| Pool.HoldWeightIgnored | src/signal_pool.py:51-52 | buy 3, sell 1 and hold 5 buy: hold weight counts on neither side |
| Pool.TieHolds | src/signal_pool.py:59-60 | equal buy and sell weights hold |
| Utils.CheckBalance | src/utils.py:8-14 | true iff some entry has the asset and a free amount covering the requirement; false on an empty list or without an entry for the asset; a short entry does not stop the scan |
| Utils.FormatQuantity | src/utils.py:4-5 | the result is a multiple of 10^-precision, truncated toward zero: never larger in magnitude, never across zero, less than one step from the input |
| Utils.FormatKeepsGridValues | src/utils.py:4-5 | a value with at most `precision` decimals is returned unchanged |
| Utils.FormatIdempotent | src/utils.py:4-5 | formatting a formatted quantity changes nothing |
| Utils.FormatFloatAsWritten | src/api.py:47 | `format_quantity(quantity, 8)` as written: the float's exact binary value cut toward zero to the grid, never larger in magnitude and less than one step from that binary value |
| Utils.FormatFloat | src/api.py:47 | formatting a float from its decimal text keeps any quantity written with at most 8 decimals |
| Utils.OrderSizeCutAsWritten | src/main.py:31 | as written, the order size 0.000047 reaches the exchange as 0.00004699 |
| Utils.OrderSizeKept | src/main.py:31 | formatted from its text, the order size is sent as 0.000047 |
| Indicators.SimpleMovingAverage | src/indicators.py:4-5 | one slot per bar, defined exactly from bar period-1 on |
| Indicators.SmaWithinWindow | src/indicators.py:4-5 | a defined moving average is the mean of its window and lies within the window's bounds |
| Indicators.BandsAt | src/indicators.py:8-13 | middle band is the 20-bar mean; the bands exist exactly where the mean and the deviation do, and lower <= middle <= upper for a non-negative deviation |
| Indicators.BollingerDecision | src/indicators.py:20-25 | sell iff the close is above the upper band and the trend; buy only below the lower band and the trend; a missing value never decides |
| Indicators.BollingerBuyExact | src/indicators.py:22-23 | with ordered bands the buy condition alone decides a buy |
| Indicators.BollingerTradeSignal | src/indicators.py:16-25 | raises exactly on an empty frame |
| Indicators.BollingerRule | src/indicators.py:16-25 | on the last bar: sell iff above upper band and trend; buy iff below lower band and trend and not the sell case; hold while fewer than 50 bars leave the trend undefined |
| Indicators.MacdDecision | src/indicators.py:38-45 | buy only when the MACD line is above the signal line, sell only when below |
| Indicators.MacdMargin | src/indicators.py:36-45 | for a non-negative threshold: buy iff MACD - signal > threshold, sell iff signal - MACD > threshold (so never both) |
| Indicators.MacdTradeSignal | src/indicators.py:36-45 | raises exactly on an empty frame, otherwise decides on the last bar |
| Indicators.Ups | src/indicators.py:51 | the gains column is non-negative, one per bar |
| Indicators.Downs | src/indicators.py:52 | the losses column is non-negative, one per bar |
| Indicators.RsiFromAveragesBounded | src/indicators.py:53-54 | RSI = 100 - 100/(1 + gain/loss) lies in [0, 100] for non-negative averages |
| Indicators.Rsi | src/indicators.py:48-55 | one slot per bar, undefined before bar period-1 |
| Indicators.RsiBounded | src/indicators.py:48-55 | every defined RSI value lies in [0, 100] |
| Indicators.RsiOfFallingWindow | src/indicators.py:50-54 | a window of falling closes has RSI 0 |
| Indicators.RsiOfRisingWindow | src/indicators.py:50-54 | a window of rising closes has RSI 100 (zero loss, infinite ratio) |
| Indicators.RsiPrefix | src/indicators.py:49 | the RSI at a bar depends on no later bar, so computing it on the prefix, a copy, gives the same value |
| Indicators.RsiDecision | src/indicators.py:76-81 | buy iff RSI < 30, sell iff RSI > 70, hold otherwise and when undefined |
| Indicators.DynamicPeriod | src/indicators.py:60 | the period is at least 2, and is the base period (clipped to 2) where volatility is undefined |
| Indicators.DynamicPeriodAtLeastBase | src/indicators.py:60 | a non-negative volatility with a positive threshold never shortens the period below the base |
| Indicators.RsiWithDynamicPeriod | src/indicators.py:58-71 | the loop yields one slot per bar: None below that bar's own period, else the last RSI of the prefix with that period |
| Indicators.DynamicRsiFacts | src/indicators.py:62-68 | each computed slot equals the full series' RSI at that bar with its period, and lies in [0, 100] |
| Indicators.RsiTradeSignal | src/indicators.py:74-81 | raises on an empty frame or when every slot is Python's None; otherwise buy iff the last RSI < 30, sell iff > 70 |
| Indicators.RsiZone | src/indicators.py:103-106 | the RSI sub-signal is buy/sell exactly where the RSI rule buys/sells, never 'hold' |
| Indicators.MacdSide | src/indicators.py:108-111 | the MACD sub-signal is buy iff MACD > signal, sell iff below, never 'hold' |
| Indicators.RsiMacdCombinedSignal | src/indicators.py:84-93 | buy iff RSI < 30 and MACD above signal, sell iff RSI > 70 and MACD below; raises on an empty frame; holds on fewer than 14 bars |
| Indicators.TwoStepRsiMacdSignal | src/indicators.py:96-113 | a buy or sell answer is the shared sub-signal; raises on an empty frame |
| Indicators.TwoStepMatchesCombined | src/indicators.py:84-113 | the two-step rule buys/sells exactly when the one-step rule does; where the latter holds, the former gives 'hold' or None, None exactly when neither sub-signal has an opinion |
| Trader.PurchaseGate | src/main.py:44-48 | every iteration buys exactly when some TRY entry covers 100, independent of the indicators; the order is one buy of 100 |
| Trader.SkipLeavesStateAlone | src/main.py:52-56 | an empty frame trades nothing, trains nothing and changes no state |
| Trader.DataIteration | src/main.py:60-91 | a data iteration trains iff not yet trained, raises iff the RSI rule raises, and when completed remembers its decision over an empty pool |
| Trader.TradeOnChange | src/main.py:77-87 | a trade is placed iff the decision is buy or sell and differs from the previous one; it is an order of 0.000047 on that side, which `format_quantity` in `place_order` (src/api.py:47) sends as 0.00004699 |
| Trader.Amount | src/api.py:47 | the size an order reaches the exchange with: on the 8-decimal grid and no larger in magnitude than the binary value of the float passed |
| Trader.IntendedAmount | src/main.py:31 | the size the caller wrote, cut to 8 decimals, which keeps any size written with at most 8 decimals; the corrected size of the order-size finding |
| Trader.IndicatorTally | src/main.py:66-68 | on an empty pool the three weight-1 votes weigh, per side, the number of indicators for it |
| Trader.FourVotesTally | src/main.py:66-69 | with the model's weight-2 vote added, each side weighs that count plus 2 if the model is for it |
| Trader.MlDominance | src/main.py:66-73 | the model's weight-2 side wins when at most one indicator opposes it, or two oppose and the third agrees; two opposing and one neutral tie (hold); three opposing overrule it |
| Trader.UnanimousIndicatorsDecide | src/main.py:66-73 | three agreeing indicators always decide, whatever the model says |
| Trader.SameDecisionOnFreshPool | src/main.py:91 | because the pool is emptied, a decision depends only on the iteration's own input |
| Trader.RunKeepsPoolEmpty | src/main.py:91 | a run that does not raise ends with an empty pool |
| Trader.TrainedOnce | src/main.py:60-62 | a run trains the model at most once, never once trained, and it stays trained |
| Trader.RaiseStopsRun | src/main.py:97-99 | an exception ends the loop: nothing after the raising iteration happens |
| Trader.DecidingIteration | src/main.py:73-91 | an iteration deciding d trades d iff it is buy or sell and new, and leaves d as the previous decision |
| Trader.ConstantDecisionTradesOnce | src/main.py:77-87 | iterations that all reach the same decision trade at most once, and never if it was already the previous one |
| Trader.RunTradesAreEdges | src/main.py:77-87 | the trades of a run are the changes of its decision sequence to buy or sell |
| Trader.BuyHoldBuyTradesTwice | src/main.py:77-87 | buy, hold, buy from no previous decision places two buy orders |
| Trader.RecordedIsRun | src/main.py:40-99 | what the bot object records equals the loop the specification describes |
| Trader.Bot.constructor | src/main.py:30-38 | the bot starts with no previous decision, untrained, with an empty pool and no orders |
| Trader.Bot.Cycle | src/main.py:41-95 | one iteration: outcome, new state and orders appended are those of `Step` |
| Trader.Bot.BuyIfFunded | src/main.py:44-48 | appends the 100 TRY buy exactly when the balance check passes, touching nothing else |
| Trader.Bot.Analyse | src/main.py:60-91 | trains, stores the four votes, raises after two votes when the RSI rule raises, otherwise decides and dispatches, as `Analysis` says |
| Trader.Bot.Dispatch | src/main.py:77-91 | sends an order only for a changed buy or sell, records every change, resets the pool |
| Trader.Bot.ReadSignals | src/main.py:66-68 | reads the three indicator answers the specification reads |
| Trader.Bot.Advance | src/main.py:41-95 | one loop pass extends the recorded chain of iterations and appends its orders |
| Trader.Bot.Run | src/main.py:40-99 | the loop runs until the inputs end or an iteration raises; the recorded run is `RunSpec` and the orders sent are all its orders |
| Backtest.Convert | test/backtesting_try-btc.py:48-71 | at most one row; a row iff buy with quote money or sell with BTC; no row leaves the account unchanged |
| Backtest.ConvertConserves | test/backtesting_try-btc.py:48-63 | a buy or sell keeps a flat account flat and keeps its value at the trade price |
| Backtest.ExitRule | test/backtesting_try-btc.py:75-99 | stop-loss and take-profit need a holding with a buy price, exclude each other, liquidate all BTC at the close with one row, and keep flat accounts flat and their value |
| Backtest.BarStepFacts | test/backtesting_try-btc.py:48-99 | an iteration keeps the account flat and its value; with positive percentages at most one row, as no exit fires on the buy bar |
| Backtest.Trade | test/backtesting_try-btc.py:48-71 | the signal branch on the loop's variables is exactly `Convert` |
| Backtest.CheckExits | test/backtesting_try-btc.py:75-99 | the exit branch on the loop's variables is exactly `Exit` |
| Backtest.RunBacktest | test/backtesting_try-btc.py:33-104 | the loop's history and log are those of `Backtest` after all iterations; the history has one entry per iteration of `range(20, len(data))`, none for fewer than 20 bars |
| Backtest.RunMlBacktest | test/backtesting_try-btc.py:106-150 | the loop's history and log are those of `MlBacktest` after all iterations; the history has one entry per iteration of `range(20, len(data))`, none for fewer than 20 bars |
| Backtest.BacktestFacts | test/backtesting_try-btc.py:41-102 | one history entry per iteration, a flat account, the last entry its value at the close, and with positive percentages at most one row per iteration |
| Backtest.HistoryRecordsValues | test/backtesting_try-btc.py:101-102 | history entry k is the value of the account after k+1 iterations at that bar's close |
| Backtest.MlBacktestFacts | test/backtesting_try-btc.py:106-150 | the model backtest never sets a buy price, logs only buys and sells, at most one per iteration, and keeps the account flat |
| Backtest.Aggregate | test/backtesting_usd-btc.py:156-161 | raises iff a history is shorter than the first; otherwise the prefix followed by one averaged value per bar of the first history |
| Backtest.AverageWithinBounds | test/backtesting_try-btc.py:162-165 | each aggregated value of the BTC/TRY total and of the corrected BTC/USD total lies between the smallest and largest balance at that bar |
| Backtest.UsdTotalOverstates | test/backtesting_usd-btc.py:156-161 | as written, six strategies that all keep their 50 report a total of 60 |

The two backtest scripts have the same loops. The BTC/USD lines are 26-97 and 99-143, against 33-104 and 106-150 in the BTC/TRY script.

## Left out

- Exchange access (`src/api.py`) is not modelled: HTTP, request signing and JSON decoding. The balance list, the price frame and the orders become the loop's inputs and its log of orders.
- The formatting inside `place_order` is modelled only as `Trader.Amount`.
- `src/config.py` (environment and logger set-up) is not part of this model.
- The learned model (`src/model.py`) is not part of this model. Its answer on each frame is an input, always buy or sell, and training is the flag `trained`.
- The rolling standard deviation, the exponential means behind MACD and the percentage-change volatility are not computed; they are input columns of each bar. They need square roots and float recurrences.
- Floating point is modelled as exact reals, NaN as `None`, and the infinite RSI ratio of a zero loss as RSI 100. The one exception is the order size, where the float's binary value matters (see Findings).
- Writing the derived columns into the caller's frame (`bollinger_bands`, `macd`, `rsi_with_dynamic_period`) is not modelled, because the frame is a value here.
- The balance entries' text amounts are given as numbers.
- The endless loop is modelled over a finite sequence of iterations. `time.sleep`, logging, `print`, tqdm and plotting are left out.
- Trader.Bot.Run: the only exception modelled is the RSI rule's. Failures of the network, of the model or of the order call are inputs the model does not have.
- The unit of the 100 passed as the quantity of the balance-gated buy is the exchange's business. The model records the order as sent.
- Backtest.RunBacktest: prices are required to be positive. A zero price would make the source divide by zero on a buy.
- Backtest.RunBacktest: a strategy that raises inside a backtest is not modelled.
- Backtest.Convert: value conservation is stated for flat accounts only. A buy overwrites the BTC balance and a sell overwrites the quote balance, which loses nothing only because the loop keeps the account flat (`BacktestFacts`).
- The strategies `stochastic_trade_signal`, `atr_trade_signal` and `combined_bollinger_rsi_signal` that the backtest scripts import are not defined in the indicator library. They are not modelled. Any strategy is a sequence of signals.
- The data downloads of the backtest scripts, `test/machine_learning.py` and the data and training part of `test/testforgithub.py` are not part of this model.
- Trade-log timestamps are represented by the bar index.
- Utils.FormatQuantity: the error of `Decimal.quantize` is not modelled. Under the default decimal context of 28 digits it raises once the cut value needs more than 28 digits (a quantity of 10^20 or more at 8 decimals); the model returns the cut value. The bot's own sizes, 100 and 0.000047, are far below that bound.
- Pool.SignalPool.AddSignal: the default weight 1 of `add_signal` is not modelled; every caller in the bot passes a weight, so the model always takes one.

## Findings

| source | as written | input that shows it | evidently intended | confidence | as-written member | corrected member |
|---|---|---|---|---|---|---|
| src/utils.py:5 | `Decimal(quantity)` on the float 0.000047 (src/main.py:31) takes its exact binary value 0.0000469999…, which ROUND_DOWN to 8 decimals cuts to 0.00004699 | the bot's own order size 0.000047 | an order of 0.000047 BTC, as written in the source | not executed | Utils.OrderSizeCutAsWritten | Utils.OrderSizeKept |
| test/backtesting_usd-btc.py:158 | the sum of six strategy histories is divided by 5 | six strategies that all keep 50: total 60 | the mean of the six balances (divide by 6), as in the BTC/TRY script, which averages five histories by 5; the defect is latent, since the script stops earlier at its import of `atr_trade_signal` and `stochastic_trade_signal` (test/backtesting_usd-btc.py:17), which src/indicators.py does not define | not executed | Backtest.UsdTotalOverstates | Backtest.AverageWithinBounds |

In the model, `Trader.Amount` is the size the bot sends, formatted as written by `Utils.FormatFloatAsWritten`. `Trader.IntendedAmount` (the corrected half of the order-size row) is the size it means to send, formatted from the decimal text by `Utils.FormatFloat`. `Trader.TradeOnChange` states both. `Backtest.UsdTotalBalance` divides by 6, and the as-written `Backtest.UsdTotalBalanceAsWritten` is kept beside it.
