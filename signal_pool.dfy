/** The signal pool: a map from strategy name to its latest vote, reduced by
    weighted majority into one decision. */
module Pool {
  import opened Common

  /** What the pool stores under a strategy name. `value` is the decision the
      strategy reported; None stands for any value that is neither 'buy',
      'sell' nor 'hold' (Python's None, for instance). Weights are not
      validated, so any integer may be stored. */
  datatype Vote = Vote(value: Option<Signal>, weight: int)

  /** The weight a vote adds to the sum for `side`: its weight when its value is
      exactly that side, nothing otherwise. */
  function Contribution(v: Vote, side: Signal): (w: int)
    ensures w == 0 || w == v.weight
    ensures w != 0 ==> v.value == Some(side)
  {
    if v.value == Some(side) then v.weight else 0
  }

  /** Some name of a non-empty pool. */
  ghost function Pick(votes: map<string, Vote>): (name: string)
    requires votes != map[]
    ensures name in votes
  {
    var name :| name in votes; name
  }

  /** The sum of the weights of the votes for `side`, in no particular order. */
  ghost function Tally(votes: map<string, Vote>, side: Signal): int
    decreases |votes|
  {
    if votes == map[] then 0
    else
      var name := Pick(votes);
      assert |votes - {name}| == |votes| - 1 by {
        assert (votes - {name}).Keys == votes.Keys - {name};
      }
      Contribution(votes[name], side) + Tally(votes - {name}, side)
  }

  /** The weighted-majority rule: buy on a strictly larger buy weight, sell on
      a strictly larger sell weight, hold on a tie. */
  function Decide(buyWeight: int, sellWeight: int): (s: Signal)
    ensures s == Buy <==> buyWeight > sellWeight
    ensures s == Sell <==> sellWeight > buyWeight
    ensures s == Hold <==> buyWeight == sellWeight
  {
    if buyWeight > sellWeight then Buy
    else if sellWeight > buyWeight then Sell
    else Hold
  }

  /** The decision the pool's current contents reduce to. */
  ghost function Combined(votes: map<string, Vote>): Signal
  {
    Decide(Tally(votes, Buy), Tally(votes, Sell))
  }

  /** Any name can be taken out of the sum first: the sum does not depend on the
      order in which the pool is traversed. */
  lemma {:induction false} TallyRemove(votes: map<string, Vote>, name: string, side: Signal)
    requires name in votes
    ensures Tally(votes, side) == Contribution(votes[name], side) + Tally(votes - {name}, side)
    decreases |votes|
  {
    var first := Pick(votes);
    if first != name {
      var rest := votes - {first};
      assert |rest| == |votes| - 1 by { assert rest.Keys == votes.Keys - {first}; }
      TallyRemove(rest, name, side);
      var without := votes - {name};
      assert |without| == |votes| - 1 by { assert without.Keys == votes.Keys - {name}; }
      TallyRemove(without, first, side);
      assert rest - {name} == without - {first};
    }
  }

  /** Upserting a vote replaces the old vote's contribution by the new one's. */
  lemma TallyUpsert(votes: map<string, Vote>, name: string, v: Vote, side: Signal)
    ensures Tally(votes[name := v], side) == Contribution(v, side) + Tally(votes - {name}, side)
  {
    var updated := votes[name := v];
    TallyRemove(updated, name, side);
    assert updated - {name} == votes - {name};
  }

  /** A vote that is not for `side`, or that weighs zero, leaves the sum for
      `side` as it is without that name. */
  lemma TallyNeutralVote(votes: map<string, Vote>, name: string, v: Vote, side: Signal)
    requires v.value != Some(side) || v.weight == 0
    ensures Tally(votes[name := v], side) == Tally(votes - {name}, side)
  {
    TallyUpsert(votes, name, v, side);
  }

  /** Votes that are 'hold', not a decision at all, or of weight zero never
      change the combined decision: the pool decides as if they were absent. */
  lemma NeutralVoteNeverDecides(votes: map<string, Vote>, name: string, v: Vote)
    requires v.value !in {Some(Buy), Some(Sell)} || v.weight == 0
    ensures Combined(votes[name := v]) == Combined(votes - {name})
  {
    TallyNeutralVote(votes, name, v, Buy);
    TallyNeutralVote(votes, name, v, Sell);
  }

  /** The empty pool holds. */
  lemma EmptyPoolHolds()
    ensures Combined(map[]) == Hold
  {
  }

  /** Re-adding a name overwrites its vote: 'x' buy with weight 1 followed by
      'x' sell with weight 5 counts the weight 5 once, for sell. */
  lemma OverwriteNotAccumulate()
    ensures var votes := map[]["x" := Vote(Some(Buy), 1)]["x" := Vote(Some(Sell), 5)];
            Tally(votes, Sell) == 5 && Tally(votes, Buy) == 0 && Combined(votes) == Sell
  {
    var empty: map<string, Vote> := map[];
    var votes := empty["x" := Vote(Some(Buy), 1)]["x" := Vote(Some(Sell), 5)];
    assert votes == empty["x" := Vote(Some(Sell), 5)];
    TallyUpsert(empty, "x", Vote(Some(Sell), 5), Sell);
    TallyUpsert(empty, "x", Vote(Some(Sell), 5), Buy);
    assert empty - {"x"} == empty;
  }

  /** Buy 3 against sell 1 with hold 5 buys: hold weight never counts. */
  lemma HoldWeightIgnored()
    ensures Combined(map["a" := Vote(Some(Buy), 3), "b" := Vote(Some(Sell), 1), "c" := Vote(Some(Hold), 5)]) == Buy
  {
    var votes := map["a" := Vote(Some(Buy), 3), "b" := Vote(Some(Sell), 1), "c" := Vote(Some(Hold), 5)];
    var ab := map["a" := Vote(Some(Buy), 3), "b" := Vote(Some(Sell), 1)];
    var a := map["a" := Vote(Some(Buy), 3)];
    assert votes == ab["c" := Vote(Some(Hold), 5)];
    assert ab == a["b" := Vote(Some(Sell), 1)];
    assert ab - {"c"} == ab && a - {"b"} == a;
    var empty: map<string, Vote> := map[];
    assert a == empty["a" := Vote(Some(Buy), 3)] && empty - {"a"} == empty;
    forall side | side in {Buy, Sell}
      ensures Tally(votes, side) == Tally(ab, side) + Contribution(Vote(Some(Hold), 5), side)
      ensures Tally(ab, side) == Tally(a, side) + Contribution(Vote(Some(Sell), 1), side)
      ensures Tally(a, side) == Contribution(Vote(Some(Buy), 3), side)
    {
      TallyUpsert(ab, "c", Vote(Some(Hold), 5), side);
      TallyUpsert(a, "b", Vote(Some(Sell), 1), side);
      TallyUpsert(empty, "a", Vote(Some(Buy), 3), side);
    }
  }

  /** Equal buy and sell weights hold. */
  lemma TieHolds()
    ensures Combined(map["a" := Vote(Some(Buy), 1), "b" := Vote(Some(Sell), 1)]) == Hold
  {
    var a := map["a" := Vote(Some(Buy), 1)];
    var votes := a["b" := Vote(Some(Sell), 1)];
    assert votes == map["a" := Vote(Some(Buy), 1), "b" := Vote(Some(Sell), 1)];
    assert a - {"b"} == a;
    var empty: map<string, Vote> := map[];
    assert a == empty["a" := Vote(Some(Buy), 1)] && empty - {"a"} == empty;
    forall side | side in {Buy, Sell}
      ensures Tally(votes, side) == Tally(a, side) + Contribution(Vote(Some(Sell), 1), side)
      ensures Tally(a, side) == Contribution(Vote(Some(Buy), 1), side)
    {
      TallyUpsert(a, "b", Vote(Some(Sell), 1), side);
      TallyUpsert(empty, "a", Vote(Some(Buy), 1), side);
    }
  }

  /** The pool object: its only state is the map from name to vote. */
  class SignalPool {
    var signals: map<string, Vote>

    /** A new pool is empty. */
    constructor ()
      ensures signals == map[]
    {
      signals := map[];
    }

    /** Inserts or overwrites the vote under `name`; every other name keeps its
        vote. */
    method AddSignal(name: string, value: Option<Signal>, weight: int)
      modifies this
      ensures signals == old(signals)[name := Vote(value, weight)]
    {
      signals := signals[name := Vote(value, weight)];
    }

    /** Deletes the vote under `name`, if there is one; an absent name leaves
        the pool unchanged and is not an error. */
    method RemoveSignal(name: string)
      modifies this
      ensures signals == old(signals) - {name}
      ensures name !in old(signals) ==> signals == old(signals)
    {
      if name in signals {
        signals := signals - {name};
      }
    }

    /** Sums the buy weights and the sell weights over the pool and applies
        the weighted-majority rule; the pool is not modified. */
    method GetCombinedSignal() returns (s: Signal)
      ensures s == Combined(signals)
      ensures s == Buy <==> Tally(signals, Buy) > Tally(signals, Sell)
      ensures s == Sell <==> Tally(signals, Sell) > Tally(signals, Buy)
      ensures s == Hold <==> Tally(signals, Buy) == Tally(signals, Sell)
    {
      var buyWeight, sellWeight := 0, 0;
      var rest := signals;
      while rest != map[]
        invariant buyWeight + Tally(rest, Buy) == Tally(signals, Buy)
        invariant sellWeight + Tally(rest, Sell) == Tally(signals, Sell)
        decreases |rest|
      {
        var name :| name in rest;
        TallyRemove(rest, name, Buy);
        TallyRemove(rest, name, Sell);
        buyWeight := buyWeight + Contribution(rest[name], Buy);
        sellWeight := sellWeight + Contribution(rest[name], Sell);
        assert (rest - {name}).Keys == rest.Keys - {name};
        rest := rest - {name};
      }
      s := Decide(buyWeight, sellWeight);
    }

    /** Removes every vote; harmless on an empty pool. */
    method Reset()
      modifies this
      ensures signals == map[]
    {
      signals := map[];
    }
  }
}
