/** The risk the sizer plans for is the loss the executor and the paper run take at the stop. */
module PlannedRisk {
  import opened Wrappers
  import opened Costs
  import opened Series
  import opened Strategies
  import opened Executor
  import opened TradeLaws
  import opened Sizing
  import opened Paper
  import opened PaperStory
  import opened PaperLaws

  // ----- products -----

  /** A price cut twice and taken so many times is the amount cut by both at once. */
  lemma {:induction false} CutTwice(price: real, a: real, b: real, q: real)
    ensures price * a * b * q == (price * q) * (a * b)
  {
    assert price * a * b * q == price * (a * b) * q;
    assert price * (a * b) * q == price * q * (a * b);
  }

  /** What a share brings that is sold at the stop level of its price, after slippage. */
  function StopPriceOf(price: real, stop: real, slippageBps: real): real { price * (1.0 - stop) * (1.0 - slippageBps / 10000.0) }

  /** What is left of an amount sold at the stop: that price, so many times. */
  lemma {:induction false} StopValueIs(o: Order, q: int)
    ensures o.StopValue(q) == Worth(StopPriceOf(o.price, o.stop, o.settings.slippageBps), q)
    ensures o.Buy(q) == Worth(o.price, q)
  {
    CutTwice(o.price, 1.0 - o.stop, 1.0 - o.settings.slippageBps / 10000.0, q as real);
  }

  // ----- the executor -----

  /** A position of q shares entered at the order's price, for its fee. */
  predicate HeldFor(o: Order, q: int, b: Book) {
    b.position.Some? && b.position.value.entry == o.price && b.position.value.fee == BuyCost(o.costs, Worth(o.price, q))
  }

  /** The planned loss of a size is exactly what a sale at its stop level loses in the executor, both fees and the
      slippage of the sale included. */
  lemma {:induction false} PlannedIsStopLoss(o: Order, q: int, target: real, bar: Candle, b: Book)
    requires HeldFor(o, q, b)
    requires
      var r := RulesOf(o.settings.(quantity := q), o.costs, o.stop, target);
      Exit(r, bar, o.price * (1.0 - o.stop), STOP, b).Ok?
    ensures
      var r := RulesOf(o.settings.(quantity := q), o.costs, o.stop, target);
      var after := Exit(r, bar, o.price * (1.0 - o.stop), STOP, b).value;
      |after.trades| == |b.trades| + 1 && after.trades[|b.trades|].net == -o.Planned(q)
  {
    hide *;
    var r := RulesOf(o.settings.(quantity := q), o.costs, o.stop, target);
    HeldParts(o, q, b);
    ExitTold(r, bar, o.price * (1.0 - o.stop), STOP, b);
    StopRules(o, q, target);
    StopValueIs(o, q);
    var t := Exit(r, bar, o.price * (1.0 - o.stop), STOP, b).value.trades[|b.trades|];
    SameAmount(r, t.exit);
    SameAmount(r, t.entry);
    PlannedParts(o, q);
    assert t.exit == StopPriceOf(o.price, o.stop, o.settings.slippageBps);
    assert Amount(r, t.exit) == o.StopValue(q) && Amount(r, t.entry) == o.Buy(q);
    assert t.fees == BuyCost(o.costs, o.Buy(q)) + SellCost(o.costs, o.StopValue(q), o.Buy(q));
  }

  lemma {:induction false} StopRules(o: Order, q: int, target: real)
    ensures
      var r := RulesOf(o.settings.(quantity := q), o.costs, o.stop, target);
      && r.costs == o.costs && r.settings.quantity == q
      && o.price * (1.0 - o.stop) * (1.0 - r.settings.slippageBps / 10000.0) == StopPriceOf(o.price, o.stop, o.settings.slippageBps)
  {
  }

  lemma {:induction false} HeldParts(o: Order, q: int, b: Book)
    requires HeldFor(o, q, b)
    ensures b.position.Some? && b.position.value.entry == o.price && b.position.value.fee == BuyCost(o.costs, Worth(o.price, q))
  {
  }

  lemma {:induction false} SameAmount(r: Rules, price: real)
    ensures Amount(r, price) == Worth(price, r.settings.quantity)
  {
  }

  lemma {:induction false} PlannedParts(o: Order, q: int)
    ensures o.Planned(q) == o.Buy(q) - o.StopValue(q) + BuyCost(o.costs, o.Buy(q)) + SellCost(o.costs, o.StopValue(q), o.Buy(q))
  {
    hide BuyCost, SellCost, Order.Buy, Order.StopValue;
  }

  // ----- the paper run -----

  /** The candidate of a closed trade. */
  function CandidateOf(t: Trade): Candidate {
    Candidate(t.entryAt, Some(Held(t.signalAt, t.entry, t.exitAt, Some(t.exit), t.reason)))
  }

  lemma {:induction false} StopExit(r: Rules, ticks: seq<Tick>, m: nat, x: nat, t: Trade)
    requires TradeOn(r, ticks, m, x, t) && t.reason == STOP && ticks[x].bar.open >= t.entry * (1.0 - r.stop)
    ensures t.exit == StopPriceOf(t.entry, r.stop, r.settings.slippageBps)
  {
    hide EnteredOn, LeftOn, Amount, BuyCost, SellCost;
  }

  /** What a taken position that leaves changes the cash by. */
  lemma {:induction false} TakenCash(p: Plan, cs: seq<Candidate>, n: nat)
    requires !p.risk.HasGaps() && n < |cs| && Taken(p, cs, n)
    ensures
      var h, q, cash := cs[n].held.value, Sized(Question(p, cs, n)), At(p, cs, n).cash;
      At(p, cs, n + 1).cash == Sold(p.settings, p.costs, h, q, p.ExitVolume(h), Bought(p.costs, h.entry, q, cash))
  {
    hide Denied, Bought, Sold, Plan.ExitVolume, Plan.OrderOf, Sized, Leaves;
    GoesOn(p, cs, n + 1);
    hide Story;
  }

  lemma {:induction false} LossOf(p: Plan, o: Order, h: Held, q: int, cash: real, volume: int)
    requires o.costs == p.costs && o.settings == p.settings && o.price == h.entry && o.stop == p.d.stop
    requires Leaves(p.settings, h, q, volume)
    requires h.exit.value == StopPriceOf(o.price, o.stop, o.settings.slippageBps)
    ensures Sold(p.settings, p.costs, h, q, volume, Bought(p.costs, h.entry, q, cash)) == cash - o.Planned(q)
  {
    StopValueIs(o, q);
    PlannedParts(o, q);
    hide BuyCost, SellCost, Order.StopValue, Order.Buy, Order.Planned, Worth, StopPriceOf;
  }

  /** Every position of a paper run that is stopped on a candle that opens at or above its stop level costs exactly the
      loss planned for its size, which is at most the risk per trade. */
  lemma {:induction false} StopsLoseThePlan(p: Plan, e: Execution, t: Trade, m: nat, x: nat, cs: seq<Candidate>, n: nat)
    requires Sensible(p) && p.series.Valid() && Executed(p.series, p.d, UnitSettings(p.settings), p.costs) == Ok(e) && t in e.trades
    requires n < |cs| && cs[n] == CandidateOf(t) && Grounded(p.series, p.costs, cs[n]) && Taken(p, cs, n)
    requires TradeOn(RulesOf(UnitSettings(p.settings), p.costs, p.d.stop, p.d.target), AllTicks(p.series), m, x, t)
    requires t.reason == STOP && AllTicks(p.series)[x].bar.open >= t.entry * (1.0 - p.d.stop)
    requires !At(p, cs, n + 1).halted
    ensures
      var loss := Question(p, cs, n).Planned(Sized(Question(p, cs, n)));
      At(p, cs, n + 1).cash == At(p, cs, n).cash - loss && loss <= p.risk.riskPerTrade.value
  {
    hide *;
    SensibleParts(p);
    CandidateParts(t);
    TakenParts(p, cs, n);
    var o, q, h := Question(p, cs, n), Sized(Question(p, cs, n)), cs[n].held.value;
    UnitRules(p);
    StopExit(RulesOf(UnitSettings(p.settings), p.costs, p.d.stop, p.d.target), AllTicks(p.series), m, x, t);
    QuestionParts(p, cs, n);
    TakenExactly(p, cs, n);
    WithinRisk(o, q);
    TakenCash(p, cs, n);
    LossOf(p, o, h, q, At(p, cs, n).cash, p.ExitVolume(h));
  }

  lemma {:induction false} CandidateParts(t: Trade)
    ensures CandidateOf(t).held.Some? && CandidateOf(t).held.value.entry == t.entry && CandidateOf(t).held.value.exit == Some(t.exit)
  {
  }

  lemma {:induction false} SensibleParts(p: Plan)
    requires Sensible(p)
    ensures p.settings.Valid() && p.costs.Valid() && p.d.Valid() && p.risk.Valid() && !p.risk.HasGaps() && p.risk.riskPerTrade.Some?
  {
  }

  lemma {:induction false} UnitRules(p: Plan)
    ensures
      var r := RulesOf(UnitSettings(p.settings), p.costs, p.d.stop, p.d.target);
      r.stop == p.d.stop && r.settings.slippageBps == p.settings.slippageBps
  {
  }

  lemma {:induction false} QuestionParts(p: Plan, cs: seq<Candidate>, n: nat)
    requires n < |cs| && cs[n].held.Some? && !p.risk.HasGaps()
    ensures
      var o := Question(p, cs, n);
      o.costs == p.costs && o.settings == p.settings && o.price == cs[n].held.value.entry && o.stop == p.d.stop && o.risk == p.risk
  {
    hide Story;
  }

  /** A taken position that does not halt the run was left. */
  lemma {:induction false} TakenParts(p: Plan, cs: seq<Candidate>, n: nat)
    requires !p.risk.HasGaps() && n < |cs| && Taken(p, cs, n)
    ensures cs[n].held.Some? && !At(p, cs, n).halted
    ensures !At(p, cs, n + 1).halted ==> Leaves(p.settings, cs[n].held.value, Sized(Question(p, cs, n)), p.ExitVolume(cs[n].held.value))
  {
    hide Denied, Bought, Sold, Plan.ExitVolume, Plan.OrderOf, Sized, Leaves;
    GoesOn(p, cs, n + 1);
    hide Story;
  }

  lemma {:induction false} WithinRisk(o: Order, q: int)
    requires !o.risk.HasGaps() && Greatest(o, q)
    ensures o.Planned(q) <= o.risk.riskPerTrade.value
  {
    hide Order.Planned, Order.Outlay, Order.Ceiling, Order.Buy;
  }
}
