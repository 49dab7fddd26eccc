/** The indicator library: rolling means, Bollinger bands, RSI with a static
    and a volatility-scaled period, and the decision rule that maps each
    indicator's latest value to buy, sell or hold.

    A price column is a `seq<real>` of closes, oldest first. A derived column
    is a `seq<Option<real>>` of the same length, None where pandas leaves NaN.
    The rolling standard deviation, the exponential means behind MACD and the
    percentage-change volatility are inputs: columns computed elsewhere. */
module Indicators {
  import opened Common

  // ---------------------------------------------------------------- sums

  function Sum(s: seq<real>): real
  {
    if s == [] then 0.0 else s[0] + Sum(s[1..])
  }

  function Mean(s: seq<real>): real
    requires |s| > 0
  {
    Sum(s) / |s| as real
  }

  /** Bounds on every element bound the sum. */
  lemma {:induction false} SumBounds(s: seq<real>, lo: real, hi: real)
    requires forall k :: 0 <= k < |s| ==> lo <= s[k] <= hi
    ensures |s| as real * lo <= Sum(s) <= |s| as real * hi
  {
    if s != [] {
      SumBounds(s[1..], lo, hi);
    }
  }

  /** A sum of non-negative numbers with one positive term is positive. */
  lemma {:induction false} SumPositive(s: seq<real>, k: nat)
    requires forall j :: 0 <= j < |s| ==> s[j] >= 0.0
    requires k < |s| && s[k] > 0.0
    ensures Sum(s) > 0.0
  {
    if k == 0 {
      SumBounds(s[1..], 0.0, Max(s[1..]));
    } else {
      SumPositive(s[1..], k - 1);
    }
  }

  /** The largest element (0 for the empty sequence). */
  function Max(s: seq<real>): (m: real)
    ensures forall k :: 0 <= k < |s| ==> s[k] <= m
  {
    if s == [] then 0.0
    else
      var rest := Max(s[1..]);
      if s[0] > rest then s[0] else rest
  }

  /** Bounds on every element bound the mean. */
  lemma MeanBounds(s: seq<real>, lo: real, hi: real)
    requires |s| > 0
    requires forall k :: 0 <= k < |s| ==> lo <= s[k] <= hi
    ensures lo <= Mean(s) <= hi
  {
    SumBounds(s, lo, hi);
    var n := |s| as real;
    assert n * lo / n == lo && n * hi / n == hi;
  }

  // ------------------------------------------------------ moving average

  /** The rolling mean of the `period` closes ending at bar `i`; missing
      before bar `period - 1`, as pandas' rolling window leaves it. */
  function SmaAt(closes: seq<real>, period: nat, i: nat): Option<real>
    requires period >= 1 && i < |closes|
  {
    if i + 1 < period then None else Some(Mean(closes[i + 1 - period .. i + 1]))
  }

  /** The simple moving average column. */
  function SimpleMovingAverage(closes: seq<real>, period: nat): (sma: seq<Option<real>>)
    requires period >= 1
    ensures |sma| == |closes|
    ensures forall i :: 0 <= i < |closes| ==> (sma[i].Some? <==> i + 1 >= period)
  {
    seq(|closes|, i requires 0 <= i < |closes| => SmaAt(closes, period, i))
  }

  /** Where it is defined, the moving average lies within the bounds of the
      closes of its window. */
  lemma SmaWithinWindow(closes: seq<real>, period: nat, i: nat, lo: real, hi: real)
    requires period >= 1 && i < |closes| && i + 1 >= period
    requires forall j :: i + 1 - period <= j <= i ==> lo <= closes[j] <= hi
    ensures SimpleMovingAverage(closes, period)[i] == SmaAt(closes, period, i)
    ensures SmaAt(closes, period, i).Some?
    ensures lo <= SmaAt(closes, period, i).value <= hi
  {
    var window := closes[i + 1 - period .. i + 1];
    forall k | 0 <= k < |window| ensures lo <= window[k] <= hi {
      assert window[k] == closes[i + 1 - period + k];
    }
    MeanBounds(window, lo, hi);
  }

  // ------------------------------------------------------------ Bollinger

  /** The Bollinger columns at one bar: the rolling mean and the bands `k`
      standard deviations above and below it, each missing where its inputs
      are. */
  datatype Bands = Bands(middle: Option<real>, upper: Option<real>, lower: Option<real>)

  function BandsAt(closes: seq<real>, stds: seq<Option<real>>, window: nat, noOfStd: real, i: nat): (b: Bands)
    requires window >= 1 && i < |closes| == |stds|
    ensures b.middle == SmaAt(closes, window, i)
    ensures b.upper.Some? <==> b.middle.Some? && stds[i].Some?
    ensures b.lower.Some? == b.upper.Some?
    ensures b.upper.Some? && stds[i].value >= 0.0 && noOfStd >= 0.0 ==>
              b.lower.value <= b.middle.value <= b.upper.value
  {
    var middle := SmaAt(closes, window, i);
    match (middle, stds[i])
    case (Some(m), Some(sd)) =>
      assert sd * noOfStd >= 0.0 || !(sd >= 0.0 && noOfStd >= 0.0);
      Bands(middle, Some(m + sd * noOfStd), Some(m - sd * noOfStd))
    case _ => Bands(middle, None, None)
  }

  /** Sell when the close is above the upper band and above the trend, buy when
      it is below the lower band and below the trend, hold otherwise (also
      when a band or the trend is missing). */
  function BollingerDecision(close: real, upper: Option<real>, lower: Option<real>, trend: Option<real>): (s: Signal)
    ensures s == Sell <==> Above(close, upper) && Above(close, trend)
    ensures s == Buy ==> Below(close, lower) && Below(close, trend)
  {
    if Above(close, upper) && Above(close, trend) then Sell
    else if Below(close, lower) && Below(close, trend) then Buy
    else Hold
  }

  /** With well-ordered bands the buy condition alone decides a buy: the sell
      branch checked first never hides it. */
  lemma BollingerBuyExact(close: real, upper: Option<real>, lower: Option<real>, trend: Option<real>)
    requires upper.Some? && lower.Some? && lower.value <= upper.value
    ensures BollingerDecision(close, upper, lower, trend) == Buy <==> Below(close, lower) && Below(close, trend)
  {
  }

  /** The Bollinger rule on the latest bar: bands over 20 bars at 2 standard
      deviations, trend as the 50-bar mean. An empty frame raises. */
  function BollingerTradeSignal(closes: seq<real>, stds: seq<Option<real>>): (r: Result<Signal>)
    requires |stds| == |closes|
    ensures r.Err? <==> |closes| == 0
  {
    if |closes| == 0 then Err("IndexError: empty frame")
    else
      var i := |closes| - 1;
      var bands := BandsAt(closes, stds, 20, 2.0, i);
      Ok(BollingerDecision(closes[i], bands.upper, bands.lower, SmaAt(closes, 50, i)))
  }

  /** On a non-empty frame the rule sells exactly when the last close is above
      both the upper band and the trend, buys exactly when it is below both the
      lower band and the trend without meeting the sell condition, and holds
      while fewer than 50 bars leave the trend missing. */
  lemma BollingerRule(closes: seq<real>, stds: seq<Option<real>>)
    requires |stds| == |closes| > 0
    ensures var r := BollingerTradeSignal(closes, stds);
            var i := |closes| - 1;
            var bands := BandsAt(closes, stds, 20, 2.0, i);
            var trend := SmaAt(closes, 50, i);
            (r.value == Sell <==> Above(closes[i], bands.upper) && Above(closes[i], trend)) &&
            (r.value == Buy <==> Below(closes[i], bands.lower) && Below(closes[i], trend) &&
                                 !(Above(closes[i], bands.upper) && Above(closes[i], trend)))
    ensures |closes| < 50 ==> BollingerTradeSignal(closes, stds).value == Hold
  {
  }

  // ----------------------------------------------------------------- MACD

  /** `a > b`, false when either is missing. */
  predicate Exceeds(a: Option<real>, b: Option<real>)
  {
    a.Some? && b.Some? && a.value > b.value
  }

  /** Buy when the MACD line is above its signal line by more than the
      momentum threshold, sell when below by more, hold otherwise. */
  function MacdDecision(macd: Option<real>, signal: Option<real>, threshold: real): (s: Signal)
    ensures s == Buy ==> Exceeds(macd, signal)
    ensures s == Sell ==> Exceeds(signal, macd)
  {
    var momentum := if macd.Some? && signal.Some? then Some(Abs(macd.value - signal.value)) else None;
    if Exceeds(macd, signal) && Exceeds(momentum, Some(threshold)) then Buy
    else if Exceeds(signal, macd) && Exceeds(momentum, Some(threshold)) then Sell
    else Hold
  }

  /** For a non-negative threshold the rule is a pure margin test: buy iff the
      MACD line exceeds the signal line by more than the threshold, sell iff the
      signal line exceeds the MACD line by more than it. */
  lemma MacdMargin(macd: Option<real>, signal: Option<real>, threshold: real)
    requires threshold >= 0.0
    ensures MacdDecision(macd, signal, threshold) == Buy <==>
              macd.Some? && signal.Some? && macd.value - signal.value > threshold
    ensures MacdDecision(macd, signal, threshold) == Sell <==>
              macd.Some? && signal.Some? && signal.value - macd.value > threshold
  {
  }

  /** The MACD rule on the latest bar, threshold 0.001 by default. An empty
      frame raises. */
  function MacdTradeSignal(macdLine: seq<Option<real>>, signalLine: seq<Option<real>>, threshold: real): (r: Result<Signal>)
    requires |macdLine| == |signalLine|
    ensures r.Err? <==> |macdLine| == 0
    ensures r.Ok? ==> r.value == MacdDecision(macdLine[|macdLine| - 1], signalLine[|signalLine| - 1], threshold)
  {
    if |macdLine| == 0 then Err("IndexError: empty frame")
    else Ok(MacdDecision(macdLine[|macdLine| - 1], signalLine[|signalLine| - 1], threshold))
  }

  // ------------------------------------------------------------------ RSI

  /** The close-to-close change at bar `j`. The first change is NaN in pandas,
      and `where(delta > 0, 0)` turns it into 0 on both sides, so it is 0
      here. */
  function Delta(closes: seq<real>, j: nat): real
    requires j < |closes|
  {
    if j == 0 then 0.0 else closes[j] - closes[j - 1]
  }

  /** The positive parts of the changes. */
  function Ups(closes: seq<real>): (u: seq<real>)
    ensures |u| == |closes|
    ensures forall j :: 0 <= j < |u| ==> u[j] >= 0.0
  {
    seq(|closes|, j requires 0 <= j < |closes| => if Delta(closes, j) > 0.0 then Delta(closes, j) else 0.0)
  }

  /** The negated negative parts of the changes. */
  function Downs(closes: seq<real>): (d: seq<real>)
    ensures |d| == |closes|
    ensures forall j :: 0 <= j < |d| ==> d[j] >= 0.0
  {
    seq(|closes|, j requires 0 <= j < |closes| => if Delta(closes, j) < 0.0 then -Delta(closes, j) else 0.0)
  }

  /** RSI = 100 - 100 / (1 + gain / loss). A zero loss makes the ratio
      infinite, so RSI is 100 when there was some gain; with no gain either the
      ratio is NaN and the RSI is missing. */
  function RsiFromAverages(gain: real, loss: real): Option<real>
    requires gain >= 0.0 && loss >= 0.0
  {
    if loss == 0.0 then
      (if gain == 0.0 then None else Some(100.0))
    else
      Some(100.0 - 100.0 / (1.0 + gain / loss))
  }

  /** RSI from non-negative averages lies in [0, 100]. */
  lemma RsiFromAveragesBounded(gain: real, loss: real)
    requires gain >= 0.0 && loss >= 0.0
    ensures RsiFromAverages(gain, loss).Some? ==> 0.0 <= RsiFromAverages(gain, loss).value <= 100.0
  {
    if loss > 0.0 {
      var rs := gain / loss;
      assert rs >= 0.0;
      assert 0.0 < 100.0 / (1.0 + rs) <= 100.0;
    }
  }

  /** The RSI of bar `i` over windows of `period` changes; missing before bar
      `period - 1`. */
  function RsiAt(closes: seq<real>, period: nat, i: nat): Option<real>
    requires period >= 1 && i < |closes|
  {
    if i + 1 < period then None
    else
      var gains := Ups(closes)[i + 1 - period .. i + 1];
      var losses := Downs(closes)[i + 1 - period .. i + 1];
      WindowMeanNonNegative(Ups(closes), i + 1 - period, i + 1);
      WindowMeanNonNegative(Downs(closes), i + 1 - period, i + 1);
      RsiFromAverages(Mean(gains), Mean(losses))
  }

  /** A window of non-negative values has a non-negative mean. */
  lemma WindowMeanNonNegative(s: seq<real>, from: nat, to: nat)
    requires forall j :: 0 <= j < |s| ==> s[j] >= 0.0
    requires from < to <= |s|
    ensures Mean(s[from..to]) >= 0.0
  {
    var w := s[from..to];
    assert forall k :: 0 <= k < |w| ==> w[k] == s[from + k];
    MeanBounds(w, 0.0, Max(w));
  }

  /** `rsi(df, period)`: the RSI column, computed on a copy of the caller's
      frame (the caller's closes are a value here and cannot change). */
  function Rsi(closes: seq<real>, period: nat): (column: seq<Option<real>>)
    requires period >= 1
    ensures |column| == |closes|
    ensures forall i :: 0 <= i < |closes| ==> column[i].Some? ==> i + 1 >= period
  {
    seq(|closes|, i requires 0 <= i < |closes| => RsiAt(closes, period, i))
  }

  /** Every defined RSI value lies in [0, 100]. */
  lemma RsiBounded(closes: seq<real>, period: nat, i: nat)
    requires period >= 1 && i < |closes|
    ensures RsiAt(closes, period, i).Some? ==> 0.0 <= RsiAt(closes, period, i).value <= 100.0
  {
    if i + 1 >= period {
      var gains := Ups(closes)[i + 1 - period .. i + 1];
      var losses := Downs(closes)[i + 1 - period .. i + 1];
      MeanBounds(gains, 0.0, Max(gains));
      MeanBounds(losses, 0.0, Max(losses));
      RsiFromAveragesBounded(Mean(gains), Mean(losses));
    }
  }

  /** A mean of zeros is zero. */
  lemma MeanOfZeros(s: seq<real>)
    requires |s| > 0 && forall k :: 0 <= k < |s| ==> s[k] == 0.0
    ensures Mean(s) == 0.0
  {
    MeanBounds(s, 0.0, 0.0);
  }

  /** A mean of non-negative numbers with a positive first one is positive. */
  lemma MeanPositive(s: seq<real>)
    requires |s| > 0 && s[0] > 0.0 && forall k :: 0 <= k < |s| ==> s[k] >= 0.0
    ensures Mean(s) > 0.0
  {
    SumPositive(s, 0);
  }

  /** A series that falls on every bar of the window has RSI 0. */
  lemma RsiOfFallingWindow(closes: seq<real>, period: nat, i: nat)
    requires period >= 1 && period <= i < |closes|
    requires forall j :: i + 1 - period <= j <= i ==> closes[j] < closes[j - 1]
    ensures RsiAt(closes, period, i) == Some(0.0)
  {
    var lo := i + 1 - period;
    var gains := Ups(closes)[lo .. i + 1];
    var losses := Downs(closes)[lo .. i + 1];
    forall k | 0 <= k < |gains| ensures gains[k] == 0.0 {
      assert gains[k] == Ups(closes)[lo + k];
    }
    MeanOfZeros(gains);
    assert losses[0] == Downs(closes)[lo];
    MeanPositive(losses);
  }

  /** A series that rises on every bar of the window has RSI 100. */
  lemma RsiOfRisingWindow(closes: seq<real>, period: nat, i: nat)
    requires period >= 1 && period <= i < |closes|
    requires forall j :: i + 1 - period <= j <= i ==> closes[j] > closes[j - 1]
    ensures RsiAt(closes, period, i) == Some(100.0)
  {
    var lo := i + 1 - period;
    var gains := Ups(closes)[lo .. i + 1];
    var losses := Downs(closes)[lo .. i + 1];
    forall k | 0 <= k < |losses| ensures losses[k] == 0.0 {
      assert losses[k] == Downs(closes)[lo + k];
    }
    MeanOfZeros(losses);
    assert gains[0] == Ups(closes)[lo];
    MeanPositive(gains);
  }

  /** The RSI of bar `i` depends on no bar after `i`: recomputing it on the
      prefix that ends at `i` gives the same value. */
  lemma RsiPrefix(closes: seq<real>, period: nat, i: nat, k: nat)
    requires period >= 1 && i < k <= |closes|
    ensures RsiAt(closes[..k], period, i) == RsiAt(closes, period, i)
  {
    if i + 1 >= period {
      var lo := i + 1 - period;
      assert Ups(closes[..k])[lo .. i + 1] == Ups(closes)[lo .. i + 1];
      assert Downs(closes[..k])[lo .. i + 1] == Downs(closes)[lo .. i + 1];
    }
  }

  /** The RSI decision: buy below 30, sell above 70, hold otherwise and when
      the RSI is missing. */
  function RsiDecision(rsi: Option<real>): (s: Signal)
    ensures s == Buy <==> rsi.Some? && rsi.value < 30.0
    ensures s == Sell <==> rsi.Some? && rsi.value > 70.0
  {
    if rsi.Some? && rsi.value < 30.0 then Buy
    else if rsi.Some? && rsi.value > 70.0 then Sell
    else Hold
  }

  // ------------------------------------------------------- dynamic period

  /** The per-bar RSI period: base * (1 + volatility / threshold) truncated to
      an integer, the base itself where the volatility is missing, and never
      below 2. */
  function DynamicPeriod(basePeriod: int, volatility: Option<real>, threshold: real): (p: int)
    requires threshold != 0.0
    ensures p >= 2
    ensures volatility.None? ==> p == if basePeriod < 2 then 2 else basePeriod
  {
    var raw := match volatility
      case None => basePeriod
      case Some(v) => Trunc(basePeriod as real * (1.0 + v / threshold));
    if raw < 2 then 2 else raw
  }

  /** A non-negative volatility with a positive threshold never shortens the
      period below the base. */
  lemma DynamicPeriodAtLeastBase(basePeriod: int, volatility: real, threshold: real)
    requires threshold > 0.0 && volatility >= 0.0
    ensures DynamicPeriod(basePeriod, Some(volatility), threshold) >= basePeriod
  {
    if basePeriod >= 0 {
      ScaledUpPeriod(basePeriod, volatility / threshold);
    }
  }

  /** Scaling a non-negative base by a factor of at least 1 and truncating
      never lowers it. */
  lemma ScaledUpPeriod(basePeriod: int, ratio: real)
    requires basePeriod >= 0 && ratio >= 0.0
    ensures Trunc(basePeriod as real * (1.0 + ratio)) >= basePeriod
  {
    assert basePeriod as real * (1.0 + ratio) == basePeriod as real + basePeriod as real * ratio;
    assert basePeriod as real * ratio >= 0.0;
  }

  /** The slot of bar `i` in `rsi_with_dynamic_period`: missing while `i` is
      below that bar's own period, otherwise the last RSI of the prefix ending
      at `i`, computed with that period. */
  function DynamicRsiAt(closes: seq<real>, volatility: seq<Option<real>>, basePeriod: int, threshold: real, i: nat): Option<real>
    requires |volatility| == |closes| && threshold != 0.0 && i < |closes|
  {
    var period := DynamicPeriod(basePeriod, volatility[i], threshold);
    if i < period then None else RsiAt(closes[..i + 1], period, i)
  }

  /** Bar by bar, the RSI recomputed over each growing prefix with that bar's
      own period. One slot per bar. */
  method RsiWithDynamicPeriod(closes: seq<real>, volatility: seq<Option<real>>, basePeriod: int, threshold: real)
    returns (rsiValues: seq<Option<real>>)
    requires |volatility| == |closes| && threshold != 0.0
    ensures |rsiValues| == |closes|
    ensures forall i :: 0 <= i < |closes| ==> rsiValues[i] == DynamicRsiAt(closes, volatility, basePeriod, threshold, i)
  {
    rsiValues := [];
    for i := 0 to |closes|
      invariant |rsiValues| == i
      invariant forall j :: 0 <= j < i ==> rsiValues[j] == DynamicRsiAt(closes, volatility, basePeriod, threshold, j)
    {
      var period := DynamicPeriod(basePeriod, volatility[i], threshold);
      if i < period {
        rsiValues := rsiValues + [None];
      } else {
        rsiValues := rsiValues + [RsiAt(closes[..i + 1], period, i)];
      }
    }
  }

  /** A computed slot is the full series' RSI at that bar with that bar's
      period (so an incremental computation may replace the per-prefix one),
      and it lies in [0, 100]. */
  lemma DynamicRsiFacts(closes: seq<real>, volatility: seq<Option<real>>, basePeriod: int, threshold: real, i: nat)
    requires |volatility| == |closes| && threshold != 0.0 && i < |closes|
    ensures var period := DynamicPeriod(basePeriod, volatility[i], threshold);
            DynamicRsiAt(closes, volatility, basePeriod, threshold, i) ==
              if i < period then None else RsiAt(closes, period, i)
    ensures DynamicRsiAt(closes, volatility, basePeriod, threshold, i).Some? ==>
              0.0 <= DynamicRsiAt(closes, volatility, basePeriod, threshold, i).value <= 100.0
  {
    var period := DynamicPeriod(basePeriod, volatility[i], threshold);
    if i >= period {
      RsiPrefix(closes, period, i, i + 1);
      RsiBounded(closes, period, i);
    }
  }

  /** Some bar got a computed RSI slot rather than Python's None. */
  predicate AnySlotComputed(closes: seq<real>, volatility: seq<Option<real>>, basePeriod: int, threshold: real)
    requires |volatility| == |closes| && threshold != 0.0
  {
    exists i :: 0 <= i < |closes| && i >= DynamicPeriod(basePeriod, volatility[i], threshold)
  }

  /** What the RSI rule answers on the dynamic-period column with base period
      14 and volatility threshold 0.02: an error when no slot was computed,
      otherwise the decision on the last slot. An empty frame raises an
      IndexError, a column of Python Nones a TypeError. */
  function RsiTradeOutcome(closes: seq<real>, volatility: seq<Option<real>>): Result<Signal>
    requires |volatility| == |closes|
  {
    if |closes| == 0 then Err("IndexError: empty frame")
    else if !AnySlotComputed(closes, volatility, 14, 0.02) then Err("TypeError: None compared with a number")
    else Ok(RsiDecision(DynamicRsiAt(closes, volatility, 14, 0.02, |closes| - 1)))
  }

  /** The RSI rule on the dynamic-period column. An empty frame raises, and so
      does a column in which every slot is Python's None (comparing None with
      30 is a type error); otherwise the last slot decides, and a slot that is
      missing or NaN holds. */
  method RsiTradeSignal(closes: seq<real>, volatility: seq<Option<real>>) returns (r: Result<Signal>)
    requires |volatility| == |closes|
    ensures r == RsiTradeOutcome(closes, volatility)
    ensures r.Err? <==> !AnySlotComputed(closes, volatility, 14, 0.02)
    ensures |closes| == 0 ==> r.Err?
    ensures r.Ok? ==> var last := DynamicRsiAt(closes, volatility, 14, 0.02, |closes| - 1);
              (r.value == Buy <==> last.Some? && last.value < 30.0) &&
              (r.value == Sell <==> last.Some? && last.value > 70.0)
  {
    var rsiValues := RsiWithDynamicPeriod(closes, volatility, 14, 0.02);
    if |rsiValues| == 0 {
      r := Err("IndexError: empty frame");
    } else if !AnySlotComputed(closes, volatility, 14, 0.02) {
      r := Err("TypeError: None compared with a number");
    } else {
      r := Ok(RsiDecision(rsiValues[|rsiValues| - 1]));
    }
  }

  // ---------------------------------------------------- RSI with MACD

  /** The RSI zone: buy below 30, sell above 70, no opinion in between or when
      the RSI is missing. */
  function RsiZone(rsi: Option<real>): (z: Option<Signal>)
    ensures z != Some(Hold)
    ensures z == Some(Buy) <==> RsiDecision(rsi) == Buy
    ensures z == Some(Sell) <==> RsiDecision(rsi) == Sell
  {
    if rsi.Some? && rsi.value < 30.0 then Some(Buy)
    else if rsi.Some? && rsi.value > 70.0 then Some(Sell)
    else None
  }

  /** The MACD side: buy when the MACD line is above the signal line, sell
      when below, no opinion when equal or missing. */
  function MacdSide(macd: Option<real>, signal: Option<real>): (z: Option<Signal>)
    ensures z != Some(Hold)
    ensures z == Some(Buy) <==> Exceeds(macd, signal)
    ensures z == Some(Sell) <==> Exceeds(signal, macd)
  {
    if Exceeds(macd, signal) then Some(Buy)
    else if Exceeds(signal, macd) then Some(Sell)
    else None
  }

  /** Buy when RSI (period 14) is below 30 and MACD is above its signal line,
      sell when RSI is above 70 and MACD below its signal line, hold
      otherwise. An empty frame raises. */
  function RsiMacdCombinedSignal(closes: seq<real>, macdLine: seq<Option<real>>, signalLine: seq<Option<real>>): (r: Result<Signal>)
    requires |macdLine| == |closes| && |signalLine| == |closes|
    ensures r.Err? <==> |closes| == 0
    ensures r == Ok(Buy) <==> |closes| > 0 && RsiDecision(RsiAt(closes, 14, |closes| - 1)) == Buy &&
                                Exceeds(macdLine[|closes| - 1], signalLine[|closes| - 1])
    ensures r == Ok(Sell) <==> |closes| > 0 && RsiDecision(RsiAt(closes, 14, |closes| - 1)) == Sell &&
                                 Exceeds(signalLine[|closes| - 1], macdLine[|closes| - 1])
    ensures |closes| < 14 ==> r != Ok(Buy) && r != Ok(Sell)
  {
    if |closes| == 0 then Err("IndexError: empty frame")
    else
      var i := |closes| - 1;
      var rsi := RsiAt(closes, 14, i);
      if RsiZone(rsi) == Some(Buy) && MacdSide(macdLine[i], signalLine[i]) == Some(Buy) then Ok(Buy)
      else if RsiZone(rsi) == Some(Sell) && MacdSide(macdLine[i], signalLine[i]) == Some(Sell) then Ok(Sell)
      else Ok(Hold)
  }

  /** The two sub-signals, each possibly None; the shared one when they agree
      (None when both are None), 'hold' when they differ. An empty frame
      raises. */
  function TwoStepRsiMacdSignal(closes: seq<real>, macdLine: seq<Option<real>>, signalLine: seq<Option<real>>): (r: Result<Option<Signal>>)
    requires |macdLine| == |closes| && |signalLine| == |closes|
    ensures r.Err? <==> |closes| == 0
    ensures r.Ok? && r.value != None && r.value != Some(Hold) ==>
              RsiZone(RsiAt(closes, 14, |closes| - 1)) == r.value &&
              MacdSide(macdLine[|closes| - 1], signalLine[|closes| - 1]) == r.value
  {
    if |closes| == 0 then Err("IndexError: empty frame")
    else
      var i := |closes| - 1;
      var rsiSignal := RsiZone(RsiAt(closes, 14, i));
      var macdSignal := MacdSide(macdLine[i], signalLine[i]);
      Ok(if rsiSignal == macdSignal then rsiSignal else Some(Hold))
  }

  /** The two combinators agree: the two-step rule buys (sells) exactly when
      the one-step rule does, and where the one-step rule holds the two-step
      rule answers 'hold' or None, None exactly when neither sub-signal has an
      opinion. */
  lemma TwoStepMatchesCombined(closes: seq<real>, macdLine: seq<Option<real>>, signalLine: seq<Option<real>>)
    requires |macdLine| == |closes| && |signalLine| == |closes| && |closes| > 0
    ensures TwoStepRsiMacdSignal(closes, macdLine, signalLine) == Ok(Some(Buy)) <==>
              RsiMacdCombinedSignal(closes, macdLine, signalLine) == Ok(Buy)
    ensures TwoStepRsiMacdSignal(closes, macdLine, signalLine) == Ok(Some(Sell)) <==>
              RsiMacdCombinedSignal(closes, macdLine, signalLine) == Ok(Sell)
    ensures RsiMacdCombinedSignal(closes, macdLine, signalLine) == Ok(Hold) <==>
              TwoStepRsiMacdSignal(closes, macdLine, signalLine) in {Ok(Some(Hold)), Ok(None)}
    ensures var i := |closes| - 1;
            TwoStepRsiMacdSignal(closes, macdLine, signalLine) == Ok(None) <==>
              RsiZone(RsiAt(closes, 14, i)) == None && MacdSide(macdLine[i], signalLine[i]) == None
  {
  }
}
