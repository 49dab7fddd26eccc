/** The backtest position simulator shared by the two backtest scripts (the
    BTC/TRY and the BTC/USD one differ only in the quote currency and the
    starting amount). Bar after bar it converts the whole quote balance into
    BTC on a buy signal, the whole BTC balance back on a sell signal, closes a
    position on a stop-loss or take-profit, and records the portfolio value.

    The strategy is an input: `signals[j]` is its answer on the frame that
    ends at bar `j`. Iteration `i` (for `i` from 20 while below the number of
    bars) looks at the frame of the first `i` bars, so it trades at the close
    of bar `i - 1`. */
module Backtest {
  import opened Common

  /** The loop's variables: the quote balance (TRY or USD), the BTC balance,
      and the price of the last buy (None before the first one). */
  datatype Account = Account(cash: real, btc: real, entry: Option<real>)

  datatype Action = BuyAction | SellAction | StopLoss | TakeProfit

  /** One row of the trade log: the bar, what happened, the price, and the
      balances right after it. */
  datatype TradeRow = TradeRow(bar: nat, action: Action, price: real, btc: real, cash: real)

  /** An account after one step, and the log rows the step wrote. */
  datatype Move = Move(account: Account, rows: seq<TradeRow>)

  /** The value of the account at `price`, in the quote currency. */
  function Value(a: Account, price: real): real
  {
    a.cash + a.btc * price
  }

  /** The quote amount that selling `btc` at `price` yields. */
  function Proceeds(btc: real, price: real): real
  {
    btc * price
  }

  /** The BTC amount that `cash` buys at `price`. */
  function Bought(cash: real, price: real): real
    requires price > 0.0
  {
    cash / price
  }

  /** At most one of the two balances is non-zero. */
  predicate Flat(a: Account)
  {
    a.cash == 0.0 || a.btc == 0.0
  }

  /** The signal-driven part of a bar: a buy with quote money converts all of
      it at the close, a sell with BTC converts all of it back, anything else
      leaves the account alone. The indicator backtest remembers the buy price
      (`setEntry`); the model backtest does not. */
  function Convert(a: Account, signal: Signal, close: real, bar: nat, setEntry: bool): (m: Move)
    requires close > 0.0
    ensures |m.rows| <= 1
    ensures m.rows != [] <==> (signal == Buy && a.cash > 0.0) || (signal == Sell && a.btc > 0.0)
    ensures m.rows == [] ==> m.account == a
  {
    if signal == Buy && a.cash > 0.0 then
      var btc := Bought(a.cash, close);
      var after := Account(0.0, btc, if setEntry then Some(close) else a.entry);
      Move(after, [TradeRow(bar, BuyAction, close, btc, 0.0)])
    else if signal == Sell && a.btc > 0.0 then
      var cash := Proceeds(a.btc, close);
      Move(Account(cash, 0.0, a.entry), [TradeRow(bar, SellAction, close, 0.0, cash)])
    else
      Move(a, [])
  }

  /** The exit part of a bar: while holding BTC bought at a known price, a
      close at or below `1 - stopLoss` times that price sells everything as a
      stop-loss, and otherwise a close at or above `1 + takeProfit` times it
      sells everything as a take-profit. */
  function Exit(a: Account, close: real, bar: nat, stopLoss: real, takeProfit: real): Move
  {
    if a.btc > 0.0 && a.entry.Some? then
      if close <= a.entry.value * (1.0 - stopLoss) then
        var cash := Proceeds(a.btc, close);
        Move(Account(cash, 0.0, a.entry), [TradeRow(bar, StopLoss, close, 0.0, cash)])
      else if close >= a.entry.value * (1.0 + takeProfit) then
        var cash := Proceeds(a.btc, close);
        Move(Account(cash, 0.0, a.entry), [TradeRow(bar, TakeProfit, close, 0.0, cash)])
      else
        Move(a, [])
    else
      Move(a, [])
  }

  /** A conversion keeps a flat account flat and keeps its value at the
      close: all of one balance becomes the other at that price. */
  lemma ConvertConserves(a: Account, signal: Signal, close: real, bar: nat, setEntry: bool)
    requires close > 0.0 && Flat(a)
    ensures var m := Convert(a, signal, close, bar, setEntry);
            Flat(m.account) && Value(m.account, close) == Value(a, close)
  {
    if signal == Buy && a.cash > 0.0 {
      assert Bought(a.cash, close) * close == a.cash;
    }
  }

  /** Which exit fires, if any: the stop-loss and the take-profit exclude each
      other and both need a BTC holding with a known buy price; a firing exit
      sells all of it at the close and writes one row, otherwise nothing
      changes; either way a flat account stays flat and keeps its value. */
  lemma ExitRule(a: Account, close: real, bar: nat, stopLoss: real, takeProfit: real)
    ensures var m := Exit(a, close, bar, stopLoss, takeProfit);
            |m.rows| <= 1 &&
            (m.rows != [] ==> m.account == Account(Proceeds(a.btc, close), 0.0, a.entry) && m.rows[0].price == close) &&
            (m.rows == [] ==> m.account == a) &&
            (Flat(a) ==> Flat(m.account) && Value(m.account, close) == Value(a, close))
    ensures var m := Exit(a, close, bar, stopLoss, takeProfit);
            var holding := a.btc > 0.0 && a.entry.Some?;
            (m.rows != [] && m.rows[0].action == StopLoss <==> holding && close <= a.entry.value * (1.0 - stopLoss)) &&
            (m.rows != [] && m.rows[0].action == TakeProfit <==>
               holding && !(close <= a.entry.value * (1.0 - stopLoss)) && close >= a.entry.value * (1.0 + takeProfit)) &&
            (m.rows != [] ==> m.rows[0].action in {StopLoss, TakeProfit})
  {
  }

  /** One iteration of the indicator backtest: the signal, then the exits. */
  function BarStep(a: Account, signal: Signal, close: real, bar: nat, stopLoss: real, takeProfit: real): Move
    requires close > 0.0
  {
    var converted := Convert(a, signal, close, bar, true);
    var exited := Exit(converted.account, close, bar, stopLoss, takeProfit);
    Move(exited.account, converted.rows + exited.rows)
  }

  /** An iteration keeps the account flat and its value at the bar's close,
      and with positive stop-loss and take-profit percentages writes at most
      one log row: neither exit fires on the bar of the buy. */
  lemma BarStepFacts(a: Account, signal: Signal, close: real, bar: nat, stopLoss: real, takeProfit: real)
    requires close > 0.0 && Flat(a)
    ensures var m := BarStep(a, signal, close, bar, stopLoss, takeProfit);
            Flat(m.account) && Value(m.account, close) == Value(a, close)
    ensures stopLoss > 0.0 && takeProfit > 0.0 ==> |BarStep(a, signal, close, bar, stopLoss, takeProfit).rows| <= 1
  {
    var converted := Convert(a, signal, close, bar, true);
    ConvertConserves(a, signal, close, bar, true);
    ExitRule(converted.account, close, bar, stopLoss, takeProfit);
    if converted.rows != [] && signal == Buy && stopLoss > 0.0 && takeProfit > 0.0 {
      assert converted.account.entry == Some(close);
      assert close * (1.0 - stopLoss) < close < close * (1.0 + takeProfit);
    }
  }

  /** What the loop has produced after `count` iterations: the account, the
      value history and the trade log. */
  datatype Run = Run(account: Account, history: seq<real>, log: seq<TradeRow>)

  /** All prices are positive. */
  predicate Positive(closes: seq<real>)
  {
    forall j :: 0 <= j < |closes| ==> closes[j] > 0.0
  }

  /** The number of iterations of `range(20, len(data))`. */
  function Iterations(bars: nat): (n: nat)
    ensures n <= bars
  {
    if bars < 20 then 0 else bars - 20
  }

  /** The indicator backtest after `count` iterations. Iteration `k` trades
      at bar `19 + k` and appends the account's value at that bar's close. */
  function Backtest(closes: seq<real>, signals: seq<Signal>, initialCash: real, stopLoss: real, takeProfit: real, count: nat): Run
    requires |signals| == |closes| && Positive(closes) && count <= Iterations(|closes|)
  {
    if count == 0 then Run(Account(initialCash, 0.0, None), [], [])
    else
      var before := Backtest(closes, signals, initialCash, stopLoss, takeProfit, count - 1);
      var bar := 18 + count;
      var m := BarStep(before.account, signals[bar], closes[bar], bar, stopLoss, takeProfit);
      Run(m.account, before.history + [Value(m.account, closes[bar])], before.log + m.rows)
  }

  /** The model backtest after `count` iterations: the same loop without the
      buy price and without exits. */
  function MlBacktest(closes: seq<real>, signals: seq<Signal>, initialCash: real, count: nat): Run
    requires |signals| == |closes| && Positive(closes) && count <= Iterations(|closes|)
  {
    if count == 0 then Run(Account(initialCash, 0.0, None), [], [])
    else
      var before := MlBacktest(closes, signals, initialCash, count - 1);
      var bar := 18 + count;
      var m := Convert(before.account, signals[bar], closes[bar], bar, false);
      Run(m.account, before.history + [Value(m.account, closes[bar])], before.log + m.rows)
  }

  /** The signal branch of one iteration, on the loop's variables: a buy
      with quote money records the buy price (when `setEntry`), converts all
      of it at the close and logs the balances after it; a sell with BTC
      converts all of it back and logs likewise. */
  method Trade(cash: real, btc: real, entry: Option<real>, signal: Signal, close: real, bar: nat, setEntry: bool)
    returns (cash': real, btc': real, entry': Option<real>, rows: seq<TradeRow>)
    requires close > 0.0
    ensures Move(Account(cash', btc', entry'), rows) == Convert(Account(cash, btc, entry), signal, close, bar, setEntry)
  {
    cash', btc', entry', rows := cash, btc, entry, [];
    if signal == Buy && cash' > 0.0 {
      if setEntry {
        entry' := Some(close);
      }
      btc' := Bought(cash', close);
      cash' := 0.0;
      rows := [TradeRow(bar, BuyAction, close, btc', cash')];
    } else if signal == Sell && btc' > 0.0 {
      cash' := Proceeds(btc', close);
      btc' := 0.0;
      rows := [TradeRow(bar, SellAction, close, btc', cash')];
    }
  }

  /** The exit branch of one iteration: while holding BTC with a known buy
      price, the stop-loss is checked first, then the take-profit; either one
      sells everything at the close and logs the balances after it. */
  method CheckExits(cash: real, btc: real, entry: Option<real>, close: real, bar: nat, stopLoss: real, takeProfit: real)
    returns (cash': real, btc': real, rows: seq<TradeRow>)
    ensures Move(Account(cash', btc', entry), rows) == Exit(Account(cash, btc, entry), close, bar, stopLoss, takeProfit)
  {
    cash', btc', rows := cash, btc, [];
    if btc' > 0.0 && entry.Some? {
      if close <= entry.value * (1.0 - stopLoss) {
        cash' := Proceeds(btc', close);
        btc' := 0.0;
        rows := [TradeRow(bar, StopLoss, close, btc', cash')];
      } else if close >= entry.value * (1.0 + takeProfit) {
        cash' := Proceeds(btc', close);
        btc' := 0.0;
        rows := [TradeRow(bar, TakeProfit, close, btc', cash')];
      }
    }
  }

  /** The indicator backtest: `run_backtest` with the strategy's answers, the
      starting quote balance and the two exit percentages (0.05 and 0.1 by
      default). */
  method RunBacktest(closes: seq<real>, signals: seq<Signal>, initialCash: real, stopLoss: real, takeProfit: real)
    returns (history: seq<real>, log: seq<TradeRow>)
    requires |signals| == |closes| && Positive(closes)
    ensures var r := Backtest(closes, signals, initialCash, stopLoss, takeProfit, Iterations(|closes|));
            history == r.history && log == r.log
    ensures |history| == if |closes| < 20 then 0 else |closes| - 20
  {
    var cash, btc, entry := initialCash, 0.0, None;
    history, log := [], [];
    var i := 20;
    while i < |closes|
      invariant 20 <= i && (i <= |closes| || |closes| < 20)
      invariant |history| == if |closes| < 20 then 0 else i - 20
      invariant Run(Account(cash, btc, entry), history, log) ==
                  Backtest(closes, signals, initialCash, stopLoss, takeProfit, if |closes| < 20 then 0 else i - 20)
      decreases |closes| - i
    {
      var close := closes[i - 1];
      ghost var m := BarStep(Account(cash, btc, entry), signals[i - 1], close, i - 1, stopLoss, takeProfit);
      var traded, exited;
      cash, btc, entry, traded := Trade(cash, btc, entry, signals[i - 1], close, i - 1, true);
      cash, btc, exited := CheckExits(cash, btc, entry, close, i - 1, stopLoss, takeProfit);
      assert m == Move(Account(cash, btc, entry), traded + exited);
      log := log + traded + exited;
      var totalBalance := Value(Account(cash, btc, entry), close);
      history := history + [totalBalance];
      i := i + 1;
    }
  }

  /** The model backtest: `run_ml_backtest` with the model's answers and the
      starting quote balance. */
  method RunMlBacktest(closes: seq<real>, signals: seq<Signal>, initialCash: real)
    returns (history: seq<real>, log: seq<TradeRow>)
    requires |signals| == |closes| && Positive(closes)
    ensures var r := MlBacktest(closes, signals, initialCash, Iterations(|closes|));
            history == r.history && log == r.log
    ensures |history| == if |closes| < 20 then 0 else |closes| - 20
  {
    var cash, btc := initialCash, 0.0;
    history, log := [], [];
    var i := 20;
    while i < |closes|
      invariant 20 <= i && (i <= |closes| || |closes| < 20)
      invariant |history| == if |closes| < 20 then 0 else i - 20
      invariant Run(Account(cash, btc, None), history, log) ==
                  MlBacktest(closes, signals, initialCash, if |closes| < 20 then 0 else i - 20)
      decreases |closes| - i
    {
      var close := closes[i - 1];
      ghost var m := Convert(Account(cash, btc, None), signals[i - 1], close, i - 1, false);
      var traded, none;
      cash, btc, none, traded := Trade(cash, btc, None, signals[i - 1], close, i - 1, false);
      assert none == None;
      log := log + traded;
      var totalBalance := Value(Account(cash, btc, none), close);
      history := history + [totalBalance];
      i := i + 1;
    }
  }

  /** The indicator backtest: one history value per iteration, each the value
      of the account at that iteration's close; the account stays flat; with
      positive exit percentages there is at most one log row per
      iteration. */
  lemma {:induction false} BacktestFacts(closes: seq<real>, signals: seq<Signal>, initialCash: real, stopLoss: real, takeProfit: real, count: nat)
    requires |signals| == |closes| && Positive(closes) && count <= Iterations(|closes|)
    ensures var r := Backtest(closes, signals, initialCash, stopLoss, takeProfit, count);
            |r.history| == count && Flat(r.account) &&
            (count > 0 ==> r.history[count - 1] == Value(r.account, closes[18 + count]))
    ensures stopLoss > 0.0 && takeProfit > 0.0 ==> |Backtest(closes, signals, initialCash, stopLoss, takeProfit, count).log| <= count
  {
    if count > 0 {
      BacktestFacts(closes, signals, initialCash, stopLoss, takeProfit, count - 1);
      var before := Backtest(closes, signals, initialCash, stopLoss, takeProfit, count - 1);
      BarStepFacts(before.account, signals[18 + count], closes[18 + count], 18 + count, stopLoss, takeProfit);
    }
  }

  /** History entry `k` is the value, at that bar's close, of the account
      after `k + 1` iterations. */
  lemma {:induction false} HistoryRecordsValues(closes: seq<real>, signals: seq<Signal>, initialCash: real, stopLoss: real, takeProfit: real, count: nat)
    requires |signals| == |closes| && Positive(closes) && count <= Iterations(|closes|)
    ensures var r := Backtest(closes, signals, initialCash, stopLoss, takeProfit, count);
            |r.history| == count &&
            forall k :: 0 <= k < count ==>
              r.history[k] == Value(Backtest(closes, signals, initialCash, stopLoss, takeProfit, k + 1).account, closes[19 + k])
  {
    if count > 0 {
      HistoryRecordsValues(closes, signals, initialCash, stopLoss, takeProfit, count - 1);
    }
  }

  /** The model backtest: one history value per iteration, a flat account,
      at most one row per iteration, and only buys and sells in the log (no
      buy price is kept, so no exit ever fires). */
  lemma {:induction false} MlBacktestFacts(closes: seq<real>, signals: seq<Signal>, initialCash: real, count: nat)
    requires |signals| == |closes| && Positive(closes) && count <= Iterations(|closes|)
    ensures var r := MlBacktest(closes, signals, initialCash, count);
            |r.history| == count && Flat(r.account) && r.account.entry == None && |r.log| <= count &&
            (forall k :: 0 <= k < |r.log| ==> r.log[k].action in {BuyAction, SellAction})
  {
    if count > 0 {
      MlBacktestFacts(closes, signals, initialCash, count - 1);
      var before := MlBacktest(closes, signals, initialCash, count - 1);
      ConvertConserves(before.account, signals[18 + count], closes[18 + count], 18 + count, false);
    }
  }

  // ---------------------------------------------------- aggregated balance

  /** Every history has an entry at index `i`. */
  predicate HasIndex(histories: seq<seq<real>>, i: nat)
  {
    forall k :: 0 <= k < |histories| ==> i < |histories[k]|
  }

  /** The sum of the histories' values at index `i`. */
  function SumAt(histories: seq<seq<real>>, i: nat): real
    requires HasIndex(histories, i)
  {
    if histories == [] then 0.0 else histories[0][i] + SumAt(histories[1..], i)
  }

  /** Every history is at least as long as the first one. */
  predicate LongEnough(histories: seq<seq<real>>)
    requires |histories| > 0
  {
    forall k :: 0 <= k < |histories| ==> |histories[k]| >= |histories[0]|
  }

  /** `prefix + [sum of the histories at i / divisor for i in
      range(len(histories[0]))]`; indexing a shorter history raises. */
  function Aggregate(histories: seq<seq<real>>, divisor: real, prefix: seq<real>): (r: Result<seq<real>>)
    requires |histories| > 0 && divisor != 0.0
    ensures r.Err? <==> !LongEnough(histories)
    ensures r.Ok? ==> |r.value| == |prefix| + |histories[0]| && r.value[..|prefix|] == prefix
    ensures r.Ok? ==> forall i :: 0 <= i < |histories[0]| ==>
                        (HasIndex(histories, i) && r.value[|prefix| + i] == SumAt(histories, i) / divisor)
  {
    if !LongEnough(histories) then Err("IndexError: list index out of range")
    else Ok(prefix + seq(|histories[0]|, i requires 0 <= i < |histories[0]| && LongEnough(histories) =>
                                             SumAt(histories, i) / divisor))
  }

  /** Bounds on the values at index `i` bound their sum. */
  lemma {:induction false} SumAtBounds(histories: seq<seq<real>>, i: nat, lo: real, hi: real)
    requires HasIndex(histories, i)
    requires forall k :: 0 <= k < |histories| ==> lo <= histories[k][i] <= hi
    ensures |histories| as real * lo <= SumAt(histories, i) <= |histories| as real * hi
  {
    if histories != [] {
      var rest := histories[1..];
      assert forall k :: 0 <= k < |rest| ==> rest[k] == histories[k + 1];
      SumAtBounds(rest, i, lo, hi);
      var n := |rest| as real;
      assert (n + 1.0) * lo == n * lo + lo && (n + 1.0) * hi == n * hi + hi;
      assert |histories| as real == n + 1.0;
    }
  }

  /** The BTC/TRY script: five strategy histories averaged bar by bar. */
  function TryTotalBalance(histories: seq<seq<real>>): Result<seq<real>>
    requires |histories| == 5
  {
    Aggregate(histories, 5.0, [])
  }

  /** The BTC/USD script as written: six strategy histories summed and
      divided by 5, after the starting 50. */
  function UsdTotalBalanceAsWritten(histories: seq<seq<real>>): Result<seq<real>>
    requires |histories| == 6
  {
    Aggregate(histories, 5.0, [50.0])
  }

  /** The BTC/USD aggregate divided by the number of histories, 6. */
  function UsdTotalBalance(histories: seq<seq<real>>): Result<seq<real>>
    requires |histories| == 6
  {
    Aggregate(histories, 6.0, [50.0])
  }

  /** Each aggregated value of the corrected BTC/USD total, and of the BTC/TRY
      total, is a mean: it lies between the smallest and the largest balance
      at that bar. */
  lemma AverageWithinBounds(histories: seq<seq<real>>, i: nat, lo: real, hi: real)
    requires |histories| == 6 || |histories| == 5
    requires i < |histories[0]| && LongEnough(histories)
    requires forall k :: 0 <= k < |histories| ==> lo <= histories[k][i] <= hi
    ensures |histories| == 6 ==> UsdTotalBalance(histories).Ok? && lo <= UsdTotalBalance(histories).value[i + 1] <= hi
    ensures |histories| == 5 ==> TryTotalBalance(histories).Ok? && lo <= TryTotalBalance(histories).value[i] <= hi
  {
    SumAtBounds(histories, i, lo, hi);
    var n := |histories| as real;
    var s := SumAt(histories, i);
    assert n * lo / n == lo && n * hi / n == hi;
    assert n * lo / n <= s / n <= n * hi / n;
  }

  /** As written, six strategies that all keep their 50 report a total of 60:
      the sum of six balances is divided by 5. */
  lemma UsdTotalOverstates()
    ensures var flat := [50.0];
            UsdTotalBalanceAsWritten([flat, flat, flat, flat, flat, flat]) == Ok([50.0, 60.0])
  {
    var flat := [50.0];
    var hs := [flat, flat, flat, flat, flat, flat];
    assert HasIndex(hs, 0);
    SumAtBounds(hs, 0, 50.0, 50.0);
    assert HasIndex(hs, 0) && LongEnough(hs);
    var r := UsdTotalBalanceAsWritten(hs);
    assert r.value[0] == 50.0 && r.value[1] == 300.0 / 5.0;
    assert r.value == [50.0, 60.0];
  }
}
