/** The bot's main loop. Each iteration:
    - buys when the TRY balance covers 100;
    - skips an empty price frame;
    - trains the model once;
    - puts four weighted votes into the signal pool;
    - trades the combined decision when it differs from the last one;
    - resets the pool.
    An exception inside the loop ends it.

    The world is the loop's input: each iteration's balance list, the price
    frame it fetched and the model's answer on that frame. Orders are recorded
    in a log instead of being sent; sleeping and logging are not modelled. */
module Trader {
  import opened Common
  import opened Utils
  import opened Indicators
  import opened Pool

  /** The pair traded. */
  const Symbol: string := "BTCTRY"
  /** The asset whose balance gates the purchase, and the amount required. */
  const GateAsset: string := "TRY"
  const TlQuantity: Float := Float(100.0, 100.0)
  /** The order size of a combined-signal trade. */
  const Quantity: Float := OrderSize
  /** The momentum threshold of the MACD rule. */
  const MomentumThreshold: real := 0.001
  /** The weights of the votes: each indicator counts once, the model twice. */
  const IndicatorWeight: int := 1
  const MlWeight: int := 2

  /** A market order as `place_order` receives it: the pair, the side and the
      size as the float the caller passed. */
  datatype Order = Order(symbol: string, side: Direction, quantity: Float)

  /** The size the exchange is sent: `format_quantity(quantity, 8)` cuts the
      float's exact binary value to 8 decimals. */
  function Amount(o: Order): (a: real)
    ensures OnGrid(a, 8)
    ensures Abs(a) <= Abs(o.quantity.exact)
  {
    FormatFloatAsWritten(o.quantity, 8)
  }

  /** The size the caller wrote, cut to 8 decimals: what the bot means to send. */
  function IntendedAmount(o: Order): (a: real)
    ensures OnGrid(a, 8)
    ensures OnGrid(o.quantity.text, 8) ==> a == o.quantity.text
  {
    FormatFloat(o.quantity, 8)
  }

  /** One bar of the frame, with the derived columns the indicators read: the
      20-bar rolling standard deviation, the MACD and signal lines, and the
      volatility behind the dynamic RSI period. */
  datatype Bar = Bar(close: real, std: Option<real>, macd: Option<real>, signalLine: Option<real>, volatility: Option<real>)

  function Closes(frame: seq<Bar>): (c: seq<real>)
    ensures |c| == |frame|
  {
    seq(|frame|, i requires 0 <= i < |frame| => frame[i].close)
  }

  function Stds(frame: seq<Bar>): (c: seq<Option<real>>)
    ensures |c| == |frame|
  {
    seq(|frame|, i requires 0 <= i < |frame| => frame[i].std)
  }

  function MacdLine(frame: seq<Bar>): (c: seq<Option<real>>)
    ensures |c| == |frame|
  {
    seq(|frame|, i requires 0 <= i < |frame| => frame[i].macd)
  }

  function SignalLine(frame: seq<Bar>): (c: seq<Option<real>>)
    ensures |c| == |frame|
  {
    seq(|frame|, i requires 0 <= i < |frame| => frame[i].signalLine)
  }

  function Volatility(frame: seq<Bar>): (c: seq<Option<real>>)
    ensures |c| == |frame|
  {
    seq(|frame|, i requires 0 <= i < |frame| => frame[i].volatility)
  }

  /** What one iteration reads from the world: the balance list, the frame
      fetched (empty when the request failed), and the model's answer. */
  datatype CycleInput = CycleInput(balances: seq<Balance>, frame: seq<Bar>, ml: Direction)

  /** The loop's variables: the last combined decision (None before the
      first), whether the model has been trained, and the pool's votes. */
  datatype BotState = BotState(previous: Option<Signal>, trained: bool, votes: map<string, Vote>)

  /** The state before the first iteration. */
  const Initial: BotState := BotState(None, false, map[])

  datatype Outcome = Skipped | Completed | Raised

  /** What one iteration does:
      - `purchase` is the order of the balance gate;
      - `trade` is the order of the combined decision;
      - `combined` is that decision, when one was reached;
      - `trainedNow` says whether the model was trained in this iteration. */
  datatype StepResult = StepResult(
    state: BotState, purchase: seq<Order>, trade: seq<Order>,
    combined: Option<Signal>, trainedNow: bool, outcome: Outcome)

  /** The pool after the four votes of an iteration are added. */
  function FourVotes(votes: map<string, Vote>, bollinger: Signal, macd: Signal, rsi: Signal, ml: Direction): map<string, Vote>
  {
    votes["bollinger" := Vote(Some(bollinger), IndicatorWeight)]["macd" := Vote(Some(macd), IndicatorWeight)]
         ["rsi" := Vote(Some(rsi), IndicatorWeight)]["ml" := Vote(Some(ml), MlWeight)]
  }

  /** The balance gate's order. */
  function Purchase(balances: seq<Balance>): seq<Order>
  {
    if HasFunds(GateAsset, TlQuantity.text, balances) then [Order(Symbol, Buy, TlQuantity)] else []
  }

  /** The three indicator answers on a non-empty frame: Bollinger and MACD
      always answer, the RSI rule may raise. */
  datatype Readings = Readings(bollinger: Signal, macd: Signal, rsi: Result<Signal>)

  function Read(frame: seq<Bar>): Readings
    requires |frame| > 0
  {
    var closes := Closes(frame);
    Readings(BollingerTradeSignal(closes, Stds(frame)).value,
             MacdTradeSignal(MacdLine(frame), SignalLine(frame), MomentumThreshold).value,
             RsiTradeOutcome(closes, Volatility(frame)))
  }

  /** An iteration that raised in the RSI rule: the Bollinger and MACD votes
      are already in the pool, the model is trained, nothing is traded. */
  function RaisedStep(s: BotState, purchase: seq<Order>, bollinger: Signal, macd: Signal): StepResult
  {
    var partial := s.votes["bollinger" := Vote(Some(bollinger), IndicatorWeight)]["macd" := Vote(Some(macd), IndicatorWeight)];
    StepResult(BotState(s.previous, true, partial), purchase, [], None, !s.trained, Raised)
  }

  /** An iteration that reached `combined`: trade it if it is buy or sell and
      new, remember it, and empty the pool. */
  function CompletedStep(s: BotState, purchase: seq<Order>, combined: Signal): StepResult
  {
    var trade := if Some(combined) == s.previous || combined == Hold then []
                 else [Order(Symbol, combined, Quantity)];
    StepResult(BotState(Some(combined), true, map[]), purchase, trade, Some(combined), !s.trained, Completed)
  }

  /** The part of an iteration after a non-empty frame arrived. */
  ghost function Analysis(s: BotState, purchase: seq<Order>, readings: Readings, ml: Direction): StepResult
  {
    match readings.rsi
    case Err(_) => RaisedStep(s, purchase, readings.bollinger, readings.macd)
    case Ok(rsi) => CompletedStep(s, purchase, Combined(FourVotes(s.votes, readings.bollinger, readings.macd, rsi, ml)))
  }

  /** One iteration of the loop. */
  ghost function Step(s: BotState, c: CycleInput): StepResult
  {
    var purchase := Purchase(c.balances);
    if |c.frame| == 0 then StepResult(s, purchase, [], None, false, Skipped)
    else Analysis(s, purchase, Read(c.frame), c.ml)
  }

  /** The orders of a run, the trade orders among them, how many times the
      model was trained, the final state, and whether the run ended by an
      exception. */
  datatype RunResult = RunResult(state: BotState, sent: seq<Order>, trades: seq<Order>, trainings: nat, raised: bool)

  /** The loop over a finite sequence of iterations, stopping at the first
      exception. */
  ghost function RunSpec(s: BotState, cycles: seq<CycleInput>): RunResult
    decreases |cycles|
  {
    if cycles == [] then RunResult(s, [], [], 0, false)
    else
      var r := Step(s, cycles[0]);
      var trained := if r.trainedNow then 1 else 0;
      if r.outcome == Raised then RunResult(r.state, r.purchase + r.trade, r.trade, trained, true)
      else
        var rest := RunSpec(r.state, cycles[1..]);
        RunResult(rest.state, r.purchase + r.trade + rest.sent, r.trade + rest.trades, trained + rest.trainings, rest.raised)
  }

  /** The part of a run the bot object keeps: final state, orders sent, and
      whether it raised. */
  datatype Trace = Trace(state: BotState, sent: seq<Order>, raised: bool)

  function Observed(r: RunResult): Trace
  {
    Trace(r.state, r.sent, r.raised)
  }

  /** All the orders of a sequence of iterations, in order. */
  function Sent(steps: seq<StepResult>): seq<Order>
  {
    if steps == [] then [] else steps[0].purchase + steps[0].trade + Sent(steps[1..])
  }

  lemma {:induction false} SentAppend(steps: seq<StepResult>, last: StepResult)
    ensures Sent(steps + [last]) == Sent(steps) + last.purchase + last.trade
  {
    if steps != [] {
      assert (steps + [last])[1..] == steps[1..] + [last];
      SentAppend(steps[1..], last);
    }
  }

  /** Iteration `k` of a recorded run started in `states[k]`, did `steps[k]`
      and ended in `states[k + 1]`; only the last recorded iteration may have
      raised. */
  ghost predicate Iteration(states: seq<BotState>, steps: seq<StepResult>, cycles: seq<CycleInput>, k: nat)
    requires k < |steps| <= |cycles| && |states| == |steps| + 1
  {
    steps[k] == Step(states[k], cycles[k]) && steps[k].state == states[k + 1] &&
    (k + 1 < |steps| ==> steps[k].outcome != Raised)
  }

  /** A chain of iterations over the first `|steps|` inputs. */
  ghost predicate Chain(states: seq<BotState>, steps: seq<StepResult>, cycles: seq<CycleInput>)
  {
    |steps| <= |cycles| && |states| == |steps| + 1 &&
    forall k :: 0 <= k < |steps| ==> Iteration(states, steps, cycles, k)
  }

  /** A chain whose last iteration did not raise grows by the next
      iteration. */
  lemma ChainExtend(states: seq<BotState>, steps: seq<StepResult>, cycles: seq<CycleInput>, step: StepResult)
    requires Chain(states, steps, cycles) && |steps| < |cycles|
    requires |steps| > 0 ==> steps[|steps| - 1].outcome != Raised
    requires step == Step(states[|steps|], cycles[|steps|])
    ensures Chain(states + [step.state], steps + [step], cycles)
  {
    var states', steps' := states + [step.state], steps + [step];
    forall k | 0 <= k < |steps'|
      ensures Iteration(states', steps', cycles, k)
    {
      if k < |steps| {
        assert Iteration(states, steps, cycles, k);
      }
    }
  }

  /** A recorded run: a chain of iterations that stops either after the last
      input or at the first iteration that raised. */
  ghost predicate Recorded(states: seq<BotState>, steps: seq<StepResult>, cycles: seq<CycleInput>, raised: bool)
  {
    Chain(states, steps, cycles) &&
    (raised <==> |steps| > 0 && steps[|steps| - 1].outcome == Raised) &&
    (!raised ==> |steps| == |cycles|)
  }

  /** A recorded run is the run the specification describes. */
  lemma {:induction false} RecordedIsRun(states: seq<BotState>, steps: seq<StepResult>, cycles: seq<CycleInput>, raised: bool)
    requires Recorded(states, steps, cycles, raised)
    ensures Observed(RunSpec(states[0], cycles)) == Trace(states[|steps|], Sent(steps), raised)
    decreases |cycles|
  {
    if cycles != [] && steps != [] {
      assert Iteration(states, steps, cycles, 0);
      var r := steps[0];
      if r.outcome != Raised {
        var tailStates, tailSteps := states[1..], steps[1..];
        forall k | 0 <= k < |tailSteps|
          ensures Iteration(tailStates, tailSteps, cycles[1..], k)
        {
          assert Iteration(states, steps, cycles, k + 1);
        }
        RecordedIsRun(tailStates, tailSteps, cycles[1..], raised);
      } else {
        assert |steps| == 1;
        assert Sent(steps) == r.purchase + r.trade;
      }
    }
  }

  // ------------------------------------------------------- one iteration

  /** The purchase is placed exactly when some TRY entry covers 100, in every
      iteration, before the frame is even looked at. */
  lemma PurchaseGate(s: BotState, c: CycleInput)
    ensures Step(s, c).purchase != [] <==> HasFunds(GateAsset, 100.0, c.balances)
    ensures Step(s, c).purchase != [] ==>
              Step(s, c).purchase == [Order(Symbol, Buy, TlQuantity)] && Amount(Step(s, c).purchase[0]) == 100.0
  {
    if HasFunds(GateAsset, 100.0, c.balances) {
      assert Pow10(8) == 100000000;
      assert OnGrid(100.0, 8);
      FormatKeepsGridValues(100.0, 8);
    }
  }

  /** An empty frame skips the iteration: no trade, no training, nothing in
      the state changes. */
  lemma SkipLeavesStateAlone(s: BotState, c: CycleInput)
    requires |c.frame| == 0
    ensures Step(s, c).state == s && Step(s, c).trade == [] && !Step(s, c).trainedNow
    ensures Step(s, c).outcome == Skipped
  {
  }

  /** A data-bearing iteration either raises or completes, trains the model if
      it was not trained yet, and, once completed, empties the pool and
      remembers its decision. */
  lemma DataIteration(s: BotState, c: CycleInput)
    requires |c.frame| > 0
    ensures Step(s, c).outcome != Skipped && Step(s, c).state.trained
    ensures Step(s, c).trainedNow <==> !s.trained
    ensures Step(s, c).outcome == Completed ==>
              Step(s, c).combined.Some? && Step(s, c).state == BotState(Step(s, c).combined, true, map[])
    ensures Step(s, c).outcome == Raised <==> RsiTradeOutcome(Closes(c.frame), Volatility(c.frame)).Err?
  {
  }

  /** A trade is placed exactly when the decision is buy or sell and differs
      from the previous decision. It is an order of 0.000047 on the decided
      side, which reaches the exchange as 0.00004699. */
  lemma TradeOnChange(s: BotState, c: CycleInput)
    requires Step(s, c).outcome == Completed
    ensures var r := Step(s, c);
            r.trade != [] <==> r.combined.value != Hold && r.combined != s.previous
    ensures var r := Step(s, c);
            r.trade != [] ==> r.trade == [Order(Symbol, r.combined.value, Quantity)] &&
                              Amount(r.trade[0]) == 0.00004699 && IntendedAmount(r.trade[0]) == 0.000047
  {
    OrderSizeCutAsWritten();
    OrderSizeKept();
  }

  // -------------------------------------------------------- the four votes

  /** How many of the three indicator decisions are `side`. */
  function Count(bollinger: Signal, macd: Signal, rsi: Signal, side: Signal): (n: nat)
    ensures n <= 3
  {
    (if bollinger == side then 1 else 0) + (if macd == side then 1 else 0) + (if rsi == side then 1 else 0)
  }

  /** On an empty pool the weight the three indicator votes put on a side is
      how many of them are for it. */
  lemma IndicatorTally(bollinger: Signal, macd: Signal, rsi: Signal, side: Signal)
    ensures var empty: map<string, Vote> := map[];
            Tally(empty["bollinger" := Vote(Some(bollinger), IndicatorWeight)]["macd" := Vote(Some(macd), IndicatorWeight)]
                       ["rsi" := Vote(Some(rsi), IndicatorWeight)], side) == Count(bollinger, macd, rsi, side)
  {
    var empty: map<string, Vote> := map[];
    var v1 := empty["bollinger" := Vote(Some(bollinger), IndicatorWeight)];
    var v2 := v1["macd" := Vote(Some(macd), IndicatorWeight)];
    assert v2 - {"rsi"} == v2 && v1 - {"macd"} == v1 && empty - {"bollinger"} == empty;
    TallyUpsert(empty, "bollinger", Vote(Some(bollinger), IndicatorWeight), side);
    TallyUpsert(v1, "macd", Vote(Some(macd), IndicatorWeight), side);
    TallyUpsert(v2, "rsi", Vote(Some(rsi), IndicatorWeight), side);
  }

  /** On an empty pool the weight for each side is the sum of the four votes'
      contributions. */
  lemma FourVotesTally(bollinger: Signal, macd: Signal, rsi: Signal, ml: Direction, side: Signal)
    ensures Tally(FourVotes(map[], bollinger, macd, rsi, ml), side) ==
              Count(bollinger, macd, rsi, side) + (if ml == side then MlWeight else 0)
  {
    var empty: map<string, Vote> := map[];
    var v3 := empty["bollinger" := Vote(Some(bollinger), IndicatorWeight)]["macd" := Vote(Some(macd), IndicatorWeight)]
                   ["rsi" := Vote(Some(rsi), IndicatorWeight)];
    IndicatorTally(bollinger, macd, rsi, side);
    assert v3 - {"ml"} == v3;
    TallyUpsert(v3, "ml", Vote(Some(ml), MlWeight), side);
  }

  /** The model's double weight: it decides unless at least two indicators
      vote against it; two against and the third not with it tie and hold;
      three against overrule it. */
  lemma MlDominance(bollinger: Signal, macd: Signal, rsi: Signal, ml: Direction)
    ensures var against := Count(bollinger, macd, rsi, Opposite(ml));
            var with := Count(bollinger, macd, rsi, ml);
            Combined(FourVotes(map[], bollinger, macd, rsi, ml)) ==
              if against <= 1 then ml
              else if against == 3 then Opposite(ml)
              else if with == 1 then ml
              else Hold
  {
    FourVotesTally(bollinger, macd, rsi, ml, Buy);
    FourVotesTally(bollinger, macd, rsi, ml, Sell);
    CountSplit(bollinger, macd, rsi);
  }

  /** Buy and sell votes among the three indicators number at most three. */
  lemma CountSplit(bollinger: Signal, macd: Signal, rsi: Signal)
    ensures Count(bollinger, macd, rsi, Buy) + Count(bollinger, macd, rsi, Sell) <= 3
  {
  }

  /** The combined decision is never 'hold' when the three indicators agree
      with each other: the model either joins them or is outvoted. */
  lemma UnanimousIndicatorsDecide(d: Direction, ml: Direction)
    ensures Combined(FourVotes(map[], d, d, d, ml)) == d
  {
    MlDominance(d, d, d, ml);
  }

  // ------------------------------------------------------------- the run

  /** A run that starts with an empty pool leaves an empty pool, unless it
      ends by an exception. */
  lemma {:induction false} RunKeepsPoolEmpty(s: BotState, cycles: seq<CycleInput>)
    requires s.votes == map[]
    ensures !RunSpec(s, cycles).raised ==> RunSpec(s, cycles).state.votes == map[]
    decreases |cycles|
  {
    if cycles != [] {
      var r := Step(s, cycles[0]);
      if r.outcome != Raised {
        RunKeepsPoolEmpty(r.state, cycles[1..]);
      }
    }
  }

  /** The model is trained at most once in a run, and never when it already
      was; once trained it stays trained. */
  lemma {:induction false} TrainedOnce(s: BotState, cycles: seq<CycleInput>)
    ensures RunSpec(s, cycles).trainings <= 1
    ensures s.trained ==> RunSpec(s, cycles).trainings == 0 && RunSpec(s, cycles).state.trained
    ensures RunSpec(s, cycles).trainings == 1 ==> RunSpec(s, cycles).state.trained
    decreases |cycles|
  {
    if cycles != [] {
      var r := Step(s, cycles[0]);
      if |cycles[0].frame| > 0 {
        DataIteration(s, cycles[0]);
      }
      if r.outcome != Raised {
        TrainedOnce(r.state, cycles[1..]);
      }
    }
  }

  /** An exception ends the run: nothing after the raising iteration
      happens. */
  lemma RaiseStopsRun(s: BotState, cycles: seq<CycleInput>)
    requires |cycles| > 0 && Step(s, cycles[0]).outcome == Raised
    ensures RunSpec(s, cycles) == RunSpec(s, cycles[..1])
    ensures RunSpec(s, cycles).raised
  {
  }

  /** The decision an iteration reaches on an empty pool, if any. */
  ghost function FreshDecision(c: CycleInput): Option<Signal>
  {
    Step(Initial, c).combined
  }

  /** If every iteration that reaches a decision reaches the same one, the run
      trades at most once, and not at all when that decision was already the
      previous one. */
  lemma {:induction false} ConstantDecisionTradesOnce(s: BotState, cycles: seq<CycleInput>, d: Signal)
    requires s.votes == map[]
    requires forall i :: 0 <= i < |cycles| ==> FreshDecision(cycles[i]) in {None, Some(d)}
    ensures |RunSpec(s, cycles).trades| <= 1
    ensures s.previous == Some(d) ==> RunSpec(s, cycles).trades == []
    decreases |cycles|
  {
    if cycles != [] {
      var c := cycles[0];
      var r := Step(s, c);
      SameDecisionOnFreshPool(s, c);
      if r.outcome != Raised {
        ConstantDecisionTradesOnce(r.state, cycles[1..], d);
        if r.outcome == Completed {
          assert r.state.previous == Some(d);
        }
      }
    }
  }

  /** On an empty pool an iteration's decision depends only on its input,
      not on the previous decision or the training flag. */
  lemma SameDecisionOnFreshPool(s: BotState, c: CycleInput)
    requires s.votes == map[]
    ensures Step(s, c).combined == FreshDecision(c)
    ensures Step(s, c).outcome == Step(Initial, c).outcome
  {
  }

  /** An iteration that decides `d` on an empty pool completes, trades `d`
      exactly when it is buy or sell and new, and leaves `d` as the previous
      decision over an empty pool. */
  lemma DecidingIteration(s: BotState, c: CycleInput, d: Signal)
    requires s.votes == map[] && FreshDecision(c) == Some(d)
    ensures Step(s, c).outcome == Completed && Step(s, c).state == BotState(Some(d), true, map[])
    ensures Step(s, c).trade == if d == Hold || s.previous == Some(d) then [] else [Order(Symbol, d, Quantity)]
  {
    SameDecisionOnFreshPool(s, c);
  }

  /** The edge-triggered dispatch over a sequence of decisions: an order for
      each buy or sell that differs from the decision before it. */
  function EdgeTrades(previous: Option<Signal>, decisions: seq<Signal>): seq<Order>
    decreases |decisions|
  {
    if decisions == [] then []
    else
      var d := decisions[0];
      (if d == Hold || previous == Some(d) then [] else [Order(Symbol, d, Quantity)]) +
      EdgeTrades(Some(d), decisions[1..])
  }

  /** When every iteration reaches a decision, the run's trades are the edges
      of the sequence of decisions. */
  lemma {:induction false} RunTradesAreEdges(s: BotState, cycles: seq<CycleInput>, decisions: seq<Signal>)
    requires s.votes == map[] && |decisions| == |cycles|
    requires forall i :: 0 <= i < |cycles| ==> FreshDecision(cycles[i]) == Some(decisions[i])
    ensures RunSpec(s, cycles).trades == EdgeTrades(s.previous, decisions)
    ensures !RunSpec(s, cycles).raised
    decreases |cycles|
  {
    if cycles != [] {
      assert FreshDecision(cycles[0]) == Some(decisions[0]);
      DecidingIteration(s, cycles[0], decisions[0]);
      RunTradesAreEdges(Step(s, cycles[0]).state, cycles[1..], decisions[1..]);
    }
  }

  /** Buy, then hold, then buy again, from an empty pool and no previous
      decision, places two buy orders: a 'hold' in between re-arms the
      trade. */
  lemma BuyHoldBuyTradesTwice(s: BotState, cycles: seq<CycleInput>)
    requires s.votes == map[] && s.previous == None
    requires |cycles| == 3 && forall i :: 0 <= i < 3 ==> FreshDecision(cycles[i]) == Some([Buy, Hold, Buy][i])
    ensures RunSpec(s, cycles).trades == [Order(Symbol, Buy, Quantity), Order(Symbol, Buy, Quantity)]
  {
    RunTradesAreEdges(s, cycles, [Buy, Hold, Buy]);
    assert [Buy, Hold, Buy][1..] == [Hold, Buy] && [Hold, Buy][1..] == [Buy];
  }

  // -------------------------------------------------------- the bot object

  /** The running bot: the signal pool, the loop's variables, and the log of
      orders sent. */
  class Bot {
    var pool: SignalPool
    var previous: Option<Signal>
    var modelTrained: bool
    var sent: seq<Order>

    /** The loop's state as the specification sees it. */
    ghost function State(): BotState
      reads this, pool
    {
      BotState(previous, modelTrained, pool.signals)
    }

    /** A bot before its first iteration. */
    constructor ()
      ensures State() == Initial && sent == []
    {
      pool := new SignalPool();
      previous := None;
      modelTrained := false;
      sent := [];
    }

    /** One iteration of the loop. */
    method Cycle(c: CycleInput) returns (outcome: Outcome)
      modifies this, pool
      ensures pool == old(pool)
      ensures var r := Step(old(State()), c);
              outcome == r.outcome && State() == r.state && sent == old(sent) + r.purchase + r.trade
    {
      BuyIfFunded(c.balances);
      if |c.frame| == 0 {
        return Skipped;
      }
      var bollinger, macd, rsi := ReadSignals(c.frame);
      outcome := Analyse(Readings(bollinger, macd, rsi), c.ml);
    }

    /** The balance gate: buy for 100 TRY when the TRY balance covers it. */
    method BuyIfFunded(balances: seq<Balance>)
      modifies this
      ensures previous == old(previous) && modelTrained == old(modelTrained) && pool == old(pool)
      ensures sent == old(sent) + Purchase(balances)
    {
      var enough := CheckBalance(GateAsset, TlQuantity.text, balances);
      if enough {
        sent := sent + [Order(Symbol, Buy, TlQuantity)];
      }
    }

    /** The iteration once the indicators have answered on a non-empty
        frame: train, vote, decide, trade, reset. */
    method Analyse(readings: Readings, ml: Direction) returns (outcome: Outcome)
      modifies this, pool
      ensures pool == old(pool)
      ensures var r := Analysis(old(State()), [], readings, ml);
              outcome == r.outcome && State() == r.state && sent == old(sent) + r.trade
    {
      ghost var start := State();
      if !modelTrained {
        modelTrained := true;
      }
      var bollinger, macd, rsi := readings.bollinger, readings.macd, readings.rsi;
      pool.AddSignal("bollinger", Some(bollinger), IndicatorWeight);
      pool.AddSignal("macd", Some(macd), IndicatorWeight);
      if rsi.Err? {
        return Raised;
      }
      pool.AddSignal("rsi", Some(rsi.value), IndicatorWeight);
      pool.AddSignal("ml", Some(ml), MlWeight);
      assert pool.signals == FourVotes(start.votes, bollinger, macd, rsi.value, ml);
      var combined := pool.GetCombinedSignal();
      Dispatch(combined);
      return Completed;
    }

    /** The end of a completed iteration: trade the decision if it is buy or
        sell and differs from the previous one, remember it, empty the pool. */
    method Dispatch(combined: Signal)
      requires modelTrained
      modifies this, pool
      ensures pool == old(pool)
      ensures var r := CompletedStep(old(State()), [], combined);
              State() == r.state && sent == old(sent) + r.trade
    {
      if Some(combined) != previous {
        if combined == Buy {
          sent := sent + [Order(Symbol, Buy, Quantity)];
        } else if combined == Sell {
          sent := sent + [Order(Symbol, Sell, Quantity)];
        }
        previous := Some(combined);
      }
      pool.Reset();
    }

    /** The three indicator rules on the frame. Python evaluates the RSI rule
        after the first two votes are stored; no state changes in between
        depend on it, so reading all three first is the same. */
    static method ReadSignals(frame: seq<Bar>) returns (bollinger: Signal, macd: Signal, rsi: Result<Signal>)
      requires |frame| > 0
      ensures Readings(bollinger, macd, rsi) == Read(frame)
    {
      var closes := Closes(frame);
      var b := BollingerTradeSignal(closes, Stds(frame));
      var m := MacdTradeSignal(MacdLine(frame), SignalLine(frame), MomentumThreshold);
      bollinger, macd := b.value, m.value;
      rsi := RsiTradeSignal(closes, Volatility(frame));
    }

    /** One iteration of the loop appended to a recorded chain. */
    method Advance(cycles: seq<CycleInput>, i: nat, ghost states: seq<BotState>, ghost steps: seq<StepResult>)
        returns (outcome: Outcome, ghost step: StepResult)
      modifies this, pool
      requires i == |steps| < |cycles| && Chain(states, steps, cycles) && states[i] == State()
      requires |steps| > 0 ==> steps[|steps| - 1].outcome != Raised
      ensures pool == old(pool)
      ensures Chain(states + [State()], steps + [step], cycles)
      ensures outcome == step.outcome && sent == old(sent) + step.purchase + step.trade
    {
      step := Step(State(), cycles[i]);
      outcome := Cycle(cycles[i]);
      ChainExtend(states, steps, cycles, step);
    }

    /** The loop over the given iterations, ending at the first exception.
        Returns the states it went through and what each iteration did, which
        `RecordedIsRun` ties to `RunSpec`. */
    method Run(cycles: seq<CycleInput>) returns (raised: bool, ghost states: seq<BotState>, ghost steps: seq<StepResult>)
      modifies this, pool
      ensures pool == old(pool)
      ensures Recorded(states, steps, cycles, raised)
      ensures states[0] == old(State()) && states[|steps|] == State() && sent == old(sent) + Sent(steps)
    {
      states, steps := [State()], [];
      raised := false;
      var i := 0;
      while i < |cycles| && !raised
        invariant i == |steps| && Chain(states, steps, cycles)
        invariant pool == old(pool) && states[0] == old(State()) && states[i] == State()
        invariant sent == old(sent) + Sent(steps)
        invariant raised <==> i > 0 && steps[i - 1].outcome == Raised
        decreases |cycles| - i
      {
        var outcome, step := Advance(cycles, i, states, steps);
        SentAppend(steps, step);
        steps := steps + [step];
        states := states + [State()];
        raised := outcome == Raised;
        i := i + 1;
      }
    }
  }
}
