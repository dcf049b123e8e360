/** With which error a run of the one-minute engine ends, and why, told from the bars. */
module RunEnds {
  import opened Wrappers
  import opened Clock
  import opened Costs
  import opened Backtest
  import opened BacktestLaws
  import opened FillLaws
  import opened DecisionLaws
  import BacktestCausality

  // ----- refused before the first bar -----

  /** A trading day that is not yet open at the start of the entry window, or closed by the forced exit. */
  predicate Unfit(c: Config, d: Day) { d.Trading? && (c.entryStart < d.open || d.close <= c.forcedExit) }

  /** A bar on whose date, or as of whose fixed date, the tariff is not in force. */
  predicate Unpriced(c: Config, b: Bar) {
    c.costs.Tariff? &&
    var s := c.costs.schedule;
    var date := if s.asOf.Some? then s.asOf.value else DateOf(b.start);
    date < s.effectiveFrom || s.effectiveTo <= date
  }

  /** A run is refused exactly for a trading day that does not fit its policy, or else for a bar without a tariff. */
  lemma {:induction false} RefusedExactly(m: Market, c: Config, s: Strategy)
    requires m.Valid() && c.Valid()
    ensures Ran(m, c, s) == Err("SESSION_POLICY_OUTSIDE_SESSION") <==> exists d :: d in m.days && Unfit(c, d)
    ensures Ran(m, c, s) == Err("COST_SCHEDULE_NOT_EFFECTIVE") <==>
      (forall d :: d in m.days ==> !Unfit(c, d)) && exists b :: b in m.bars && Unpriced(c, b)
  {
    FitsUnless(m, c);
    CoversUnless(m, c);
    hide RunTo, Finish, PolicyFits, TariffCovers, Unfit, Unpriced, Market.Valid, Config.Valid;
    if PolicyFits(m, c) && TariffCovers(m, c) { LaterErrors(m, c, s); }
  }

  lemma {:induction false} FitsUnless(m: Market, c: Config)
    ensures PolicyFits(m, c) <==> forall d :: d in m.days ==> !Unfit(c, d)
  {
  }

  lemma {:induction false} CoversUnless(m: Market, c: Config)
    ensures TariffCovers(m, c) <==> forall b :: b in m.bars ==> !Unpriced(c, b)
  {
    hide DateOf;
  }

  lemma {:induction false} LaterErrors(m: Market, c: Config, s: Strategy)
    requires m.Valid() && c.Valid() && PolicyFits(m, c) && TariffCovers(m, c)
    ensures Ran(m, c, s).Err? ==> Admitted(Ran(m, c, s).error)
  {
    if Ran(m, c, s).Err? { RunErrs(m, c, s); }
  }

  // ----- stopped at a bar -----

  /** Before or at bar n: what has been filled so far is told from the bars. */
  ghost predicate ToldSoFar(m: Market, c: Config, n: nat, fills: seq<Fill>)
    requires n < |m.bars|
  {
    && (forall i :: 0 <= i < |fills| ==> FillTold(m, c, fills, i)) && (forall f :: f in fills ==> f.time <= m.bars[n].start)
  }

  /** The strategy failed on the decision it was shown when bar n completed. */
  ghost predicate FailedOn(m: Market, c: Config, s: Strategy, n: nat, fills: seq<Fill>, trades: seq<Trade>) {
    exists d :: DecisionOn(m, c, fills, trades, n, d) && Fails(s(d))
  }

  /** At the forced-exit minute a position is held that bar n cannot take, or whose sale would not pay its fee. */
  ghost predicate TrappedOn(m: Market, c: Config, n: nat, fills: seq<Fill>)
    requires n < |m.bars|
  {
    var bar := m.bars[n];
    var held := HeldBy(fills, bar.start);
    && TimeOfDay(bar.start) == c.forcedExit && held.Some?
    && var notional := Gross(Paid(c, SELL, bar.open), held.value.quantity);
       bar.volume == 0 || CashBy(c.initialCash, fills, bar.start) + notional < CostOf(c, SELL, notional, held.value.notional)
  }

  lemma {:induction false} FirstError(m: Market, c: Config, s: Strategy, k: nat) returns (n: nat)
    requires 1 <= m.lotSize && k <= |m.bars| && RunTo(m, c, s, k).Err?
    ensures n < k && RunTo(m, c, s, n).Ok?
    ensures Step(m, c, s, n, RunTo(m, c, s, n).value) == Err(RunTo(m, c, s, k).error)
  {
    hide Step;
    if RunTo(m, c, s, k - 1).Err? { n := FirstError(m, c, s, k - 1); } else { n := k - 1; }
  }

  lemma {:induction false} StrategyFailed(m: Market, c: Config, s: Strategy, n: nat, desk: Desk)
    requires n < |m.bars| && MarkToMarket(c, m.bars[n], desk).Ok? && AfterOpen(m, c, s, n, desk) == Err("STRATEGY_FAILURE")
    requires Booked(c, desk, m.bars[n].start + 1) && Netted(desk, m.bars[n].start + 1)
    ensures FailedOn(m, c, s, n, desk.fills, desk.trades)
  {
    var d := Context(m, n, SessionStart(m, n), desk);
    ContextTold(m, c, n, desk);
    MarkKeepsDesk(c, m.bars[n], desk);
    var marked := MarkToMarket(c, m.bars[n], desk).value;
    CurveUnseen(m, n, SessionStart(m, n), desk, marked.curve);
    assert marked == desk.(curve := marked.curve);
    hide Context, SessionStart, DecisionOn, MarkToMarket, SessionEnds;
    assert Fails(s(d));
  }

  lemma {:induction false} Trapped(m: Market, c: Config, n: nat, desk: Desk)
    requires c.Valid() && 1 <= m.lotSize && n < |m.bars| && m.bars[n].Valid() && Balanced(c, desk) && Filed(m, desk)
    requires c.costs.Tariff? ==> c.costs.schedule.Effective(c.costs.schedule.PricingDate(m.bars[n].start))
    requires Booked(c, desk, m.bars[n].start) && AtOpen(m, c, m.bars[n], desk).Err?
    ensures TrappedOn(m, c, n, desk.fills)
  {
    var bar := m.bars[n];
    ForceBalanced(c, bar, desk);
    var ready := Force(c, bar, desk);
    ResolveErrors(m, c, bar, Forced(c, bar, desk), ready);
    assert Forced(c, bar, desk);
    ForcedExitFailsExactly(m, c, bar, desk);
    BookedFacts(c, desk, bar.start);
    var quantity := desk.entry.value.quantity;
    SameAmounts(c, SELL, bar.open, quantity);
    SameCost(c, SELL, Value(Adverse(c, SELL, bar.open), quantity), bar.start, desk.entry);
    hide Booked, Balanced, Filed, Resolve, ChargeFor, Value, Adverse, Paid, Gross, CostOf, HeldBy, CashBy, Config.Valid;
  }

  /** Every other end of a run has its bar: the first at which the strategy fails on what it is shown, or at which a forced exit
      cannot be made; the fills until then are told from the bars. And a run that is neither refused nor stopped completes. */
  lemma {:induction false} StoppedWhere(m: Market, c: Config, s: Strategy) returns (n: nat, fills: seq<Fill>, trades: seq<Trade>)
    requires m.Valid() && c.Valid() && Ran(m, c, s).Err?
    requires (forall d :: d in m.days ==> !Unfit(c, d)) && forall b :: b in m.bars ==> !Unpriced(c, b)
    ensures n < |m.bars| && ToldSoFar(m, c, n, fills)
    ensures Ran(m, c, s) == Err("STRATEGY_FAILURE") || Ran(m, c, s) == Err("FORCED_EXIT_UNAVAILABLE")
    ensures Ran(m, c, s) == Err("STRATEGY_FAILURE") ==> FailedOn(m, c, s, n, fills, trades)
    ensures Ran(m, c, s) == Err("FORCED_EXIT_UNAVAILABLE") ==> TrappedOn(m, c, n, fills)
  {
    hide *;
    FitsUnless(m, c);
    CoversUnless(m, c);
    BacktestCausality.LotsPositive(m);
    RunErrs(m, c, s);
    n := FirstError(m, c, s, |m.bars|);
    var desk := RunTo(m, c, s, n).value;
    RunKept(m, c, s, n);
    BarFacts(m, c, n);
    BarShape(m, c, n);
    if n > 0 { BarShape(m, c, n - 1); BacktestCausality.BarsAdvance(m, n - 1, n); }
    KeptAtOpen(m, c, n, desk);
    OpenKept(m, c, m.bars[n], desk);
    StepSplits(m, c, s, n, desk);
    RunTold(m, c, s, n, m.bars[n].start);
    RunListens(m, c, s, n, m.bars[n].start);
    if AtOpen(m, c, m.bars[n], desk).Err? {
      Trapped(m, c, n, desk);
      fills, trades := desk.fills, desk.trades;
      SoFar(m, c, n, desk, m.bars[n].start);
    } else {
      var settled := AtOpen(m, c, m.bars[n], desk).value;
      CloseKept(m, c, s, n, settled);
      OpenTold(m, c, n, desk);
      OpenListens(m, c, s, n, desk);
      MidDayMarks(m, c, n, settled);
      StrategyFailed(m, c, s, n, settled);
      fills, trades := settled.fills, settled.trades;
      SoFar(m, c, n, settled, m.bars[n].start + 1);
    }
  }

  lemma {:induction false} RunErrs(m: Market, c: Config, s: Strategy)
    requires m.Valid() && c.Valid() && PolicyFits(m, c) && TariffCovers(m, c) && Ran(m, c, s).Err?
    ensures |m.bars| > 0 && RunTo(m, c, s, |m.bars|).Err? && Ran(m, c, s) == Err(RunTo(m, c, s, |m.bars|).error)
    ensures Admitted(RunTo(m, c, s, |m.bars|).error)
  {
    RunKept(m, c, s, |m.bars|);
    if RunTo(m, c, s, |m.bars|).Ok? { KeptFinishes(m, c, RunTo(m, c, s, |m.bars|).value); }
    hide RunTo, PolicyFits, TariffCovers, Finish, Kept;
  }

  lemma {:induction false} SoFar(m: Market, c: Config, n: nat, desk: Desk, at: int)
    requires 1 <= m.lotSize && n < |m.bars| && AllTold(m, c, desk) && Booked(c, desk, at) && at <= m.bars[n].start + 1
    ensures ToldSoFar(m, c, n, desk.fills)
  {
    hide FillTold, HeldBy, CashBy, OutcomeTold;
  }

  lemma {:induction false} MidDayMarks(m: Market, c: Config, n: nat, desk: Desk)
    requires n < |m.bars| && MidDay(m, c, m.bars[n], desk)
    ensures MarkToMarket(c, m.bars[n], desk).Ok?
  {
    hide Balanced, Filed;
    MarkBalanced(c, m.bars[n], desk);
  }
}
