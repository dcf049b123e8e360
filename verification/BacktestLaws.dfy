/** What every run of the one-minute engine keeps: a sound ledger, intents resolved exactly once,
    and no position overnight. */
module BacktestLaws {
  import opened Wrappers
  import opened Clock
  import opened RealFacts
  import opened Costs
  import opened Backtest

  // ----- the ledger -----

  /** Cash, realised profit and fees account for one another, and cash is never negative. */
  ghost predicate Balanced(c: Config, desk: Desk) {
    && desk.cash == c.initialCash + desk.realized - (if desk.entry.Some? then desk.entry.value.notional + desk.entry.value.costs else 0.0)
    && 0.0 <= desk.cash
    && desk.realized == SumGross(desk.trades) - SumCosts(desk.fills) + HeldCosts(desk)
    && (desk.entry.Some? ==> Sensible(desk.entry.value))
    && (desk.pending.Some? ==> 1 <= desk.pending.value.intent.quantity)
    && (forall p :: p in desk.curve ==> 0.0 <= p.cash)
  }

  /** A bought position, at its notional. */
  ghost predicate Sensible(f: Fill) {
    f.side == BUY && 1 <= f.quantity && f.notional == Value(f.price, f.quantity) && 0.0 < f.notional
  }

  lemma {:induction false} PricePositive(c: Config, side: Side, reference: real, quantity: int)
    requires c.Valid() && 0.0 < reference && 1 <= quantity
    ensures 0.0 < Value(Adverse(c, side, reference), quantity)
  {
    AdversePositive(c, side, reference);
    hide Adverse, Config.Valid;
    MulPositive(Adverse(c, side, reference), quantity as real);
  }

  lemma {:induction false} AdversePositive(c: Config, side: Side, reference: real)
    requires c.Valid() && 0.0 < reference
    ensures 0.0 < Adverse(c, side, reference)
  {
    var adjustment := c.slippageBps / 10000.0;
    assert 0.0 <= adjustment < 1.0;
    var factor := if side == BUY then 1.0 + adjustment else 1.0 - adjustment;
    MulPositive(reference, factor);
  }

  lemma {:induction false} ForceBalanced(c: Config, bar: Bar, desk: Desk)
    requires Balanced(c, desk)
    ensures Balanced(c, Force(c, bar, desk))
  {
    hide SumGross, SumCosts, Value;
  }

  /** A quotation the engine asks for succeeds on covered dates. */
  lemma {:induction false} ChargeSucceeds(c: Config, side: Side, notional: real, at: int, entry: Option<Fill>, rejected: bool)
    requires 0.0 < notional
    requires c.costs.Tariff? ==> c.costs.schedule.Effective(c.costs.schedule.PricingDate(at))
    requires side == SELL && !rejected ==> entry.Some? && 0.0 < entry.value.notional
    ensures ChargeFor(c, side, notional, at, entry, rejected).Ok?
  {
  }

  lemma {:induction false} ResolveBalanced(m: Market, c: Config, bar: Bar, forced: bool, desk: Desk)
    requires c.Valid() && 1 <= m.lotSize && desk.pending.Some? && Balanced(c, desk)
    requires Resolve(m, c, bar, forced, desk).Ok? && bar.Valid()
    ensures Balanced(c, Resolve(m, c, bar, forced, desk).value)
  {
    hide SumGross, SumCosts, Value, Adverse, ChargeFor;
    var intent := desk.pending.value.intent;
    PricePositive(c, intent.side, bar.open, intent.quantity);
    var after := Resolve(m, c, bar, forced, desk).value;
    if after.fills != desk.fills { CostsAppend(desk.fills, after.fills[|desk.fills|]); }
    if after.trades != desk.trades { GrossAppend(desk.trades, after.trades[|desk.trades|]); }
  }

  lemma {:induction false} CostsAppend(fills: seq<Fill>, f: Fill)
    ensures SumCosts(fills + [f]) == SumCosts(fills) + f.costs
  {
    assert (fills + [f])[..|fills|] == fills;
  }

  lemma {:induction false} GrossAppend(trades: seq<Trade>, t: Trade)
    ensures SumGross(trades + [t]) == SumGross(trades) + t.gross
  {
    assert (trades + [t])[..|trades|] == trades;
  }

  lemma {:induction false} ValueSub(a: real, b: real, quantity: int)
    ensures Value(a - b, quantity) == Value(a, quantity) - Value(b, quantity)
  {
    MulSub(a, b, quantity as real);
  }

  /** The equity check always passes: LEDGER_INCONSISTENT is unreachable. */
  lemma {:induction false} MarkBalanced(c: Config, bar: Bar, desk: Desk)
    requires Balanced(c, desk)
    ensures MarkToMarket(c, bar, desk).Ok? && Balanced(c, MarkToMarket(c, bar, desk).value)
  {
    ValueSub(bar.close, HeldPrice(desk), Held(desk));
    assert desk.entry.None? ==> Value(HeldPrice(desk), Held(desk)) == 0.0;
    hide SumGross, SumCosts, Value;
  }

  lemma {:induction false} ProposeBalanced(c: Config, s: Strategy, context: Decision, at: int, desk: Desk)
    requires Balanced(c, desk) && Propose(s, context, at, desk).Ok?
    ensures Balanced(c, Propose(s, context, at, desk).value)
  {
    hide SumGross, SumCosts, Value;
  }

  // ----- intents and their outcomes -----

  datatype Receipt = Receipt(id: int, side: Side, quantity: int, time: int)

  /** The filled outcomes, in order. */
  function FilledReceipts(os: seq<Outcome>): seq<Receipt> {
    if os == [] then []
    else
      var o := os[|os| - 1];
      FilledReceipts(os[..|os| - 1]) +
      if o.status == FILLED then [Receipt(o.id, o.intent.side, o.intent.quantity, o.resolved)] else []
  }

  function FillReceipts(fills: seq<Fill>): seq<Receipt> {
    if fills == [] then []
    else
      var f := fills[|fills| - 1];
      FillReceipts(fills[..|fills| - 1]) + [Receipt(f.id, f.side, f.quantity, f.time)]
  }

  /** The fills that trades consist of: entry, exit, entry, exit, ... */
  function Legs(trades: seq<Trade>): seq<Fill> {
    if trades == [] then [] else Legs(trades[..|trades| - 1]) + [trades[|trades| - 1].entry, trades[|trades| - 1].exit]
  }

  /** A bought and later sold quantity of one day. */
  ghost predicate Paired(t: Trade) {
    && t.entry.side == BUY && t.exit.side == SELL && t.entry.quantity == t.exit.quantity
    && DateOf(t.entry.time) == DateOf(t.exit.time)
  }

  /** Every issued id has exactly one outcome, in order, or is waiting; filled outcomes are the fills,
      in order; fills pair into trades, the open position last. */
  ghost predicate Filed(m: Market, desk: Desk) {
    && desk.nextId == |desk.outcomes| + (if desk.pending.Some? then 1 else 0) + 1
    && (forall i :: 0 <= i < |desk.outcomes| ==> desk.outcomes[i].id == i + 1)
    && (desk.pending.Some? ==> desk.pending.value.id == desk.nextId - 1)
    && FilledReceipts(desk.outcomes) == FillReceipts(desk.fills)
    && desk.fills == Legs(desk.trades) + (if desk.entry.Some? then [desk.entry.value] else [])
    && (forall t :: t in desk.trades ==> Paired(t))
    && (desk.entry.Some? ==> desk.entry.value.side == BUY && m.lotSize != 0 && desk.entry.value.quantity % m.lotSize == 0)
  }

  lemma {:induction false} ReceiptAppend(os: seq<Outcome>, o: Outcome, fills: seq<Fill>, f: Fill)
    ensures FilledReceipts(os + [o]) ==
      FilledReceipts(os) + if o.status == FILLED then [Receipt(o.id, o.intent.side, o.intent.quantity, o.resolved)] else []
    ensures FillReceipts(fills + [f]) == FillReceipts(fills) + [Receipt(f.id, f.side, f.quantity, f.time)]
  {
    assert (os + [o])[..|os|] == os && (fills + [f])[..|fills|] == fills;
  }

  lemma {:induction false} LegsAppend(trades: seq<Trade>, t: Trade)
    ensures Legs(trades + [t]) == Legs(trades) + [t.entry, t.exit]
  {
    assert (trades + [t])[..|trades|] == trades;
  }

  lemma {:induction false} ForceFiled(m: Market, c: Config, bar: Bar, desk: Desk)
    requires Filed(m, desk)
    ensures Filed(m, Force(c, bar, desk))
  {
    hide FillReceipts, FilledReceipts, Legs, Paired;
    if Forced(c, bar, desk) && desk.pending.Some? {
      ReceiptAppend(desk.outcomes, Resolved(desk.pending.value, bar.start, SUPERSEDED_BY_FORCED_EXIT), [], desk.entry.value);
    }
  }

  lemma {:induction false} ResolveFiled(m: Market, c: Config, bar: Bar, forced: bool, desk: Desk)
    requires 1 <= m.lotSize && desk.pending.Some? && Filed(m, desk)
    requires desk.entry.Some? ==> DateOf(desk.entry.value.time) == DateOf(bar.start)
    requires Resolve(m, c, bar, forced, desk).Ok?
    ensures Filed(m, Resolve(m, c, bar, forced, desk).value)
  {
    hide FillReceipts, FilledReceipts, Legs, Value, Adverse, ChargeFor;
    var after := Resolve(m, c, bar, forced, desk).value;
    var o := after.outcomes[|desk.outcomes|];
    if after.fills != desk.fills {
      var f := after.fills[|desk.fills|];
      ReceiptAppend(desk.outcomes, o, desk.fills, f);
      if after.trades != desk.trades { LegsAppend(desk.trades, after.trades[|desk.trades|]); }
    } else {
      ReceiptAppend(desk.outcomes, o, [], Fill(0, BUY, 0, 0, 0.0, 0.0, 0.0, 0.0, false));
    }
  }

  lemma {:induction false} CloseFiled(m: Market, n: nat, desk: Desk)
    requires n < |m.bars| && Filed(m, desk) && CloseSession(m, n, desk).Ok?
    ensures Filed(m, CloseSession(m, n, desk).value)
  {
    hide FillReceipts, FilledReceipts, Legs, Paired;
    var after := CloseSession(m, n, desk).value;
    if after.outcomes != desk.outcomes {
      ReceiptAppend(desk.outcomes, after.outcomes[|desk.outcomes|], [], Fill(0, BUY, 0, 0, 0.0, 0.0, 0.0, 0.0, false));
    }
  }

  /** A forced exit fails exactly when the bar has no volume or the fees exceed cash and proceeds:
      never for its lot, its size, or for selling what is not held. */
  lemma {:induction false} ForcedExitFailsExactly(m: Market, c: Config, bar: Bar, desk: Desk)
    requires c.Valid() && 1 <= m.lotSize && bar.Valid() && Balanced(c, desk) && Filed(m, desk) && Forced(c, bar, desk)
    requires c.costs.Tariff? ==> c.costs.schedule.Effective(c.costs.schedule.PricingDate(bar.start))
    ensures
      var notional := Value(Adverse(c, SELL, bar.open), desk.entry.value.quantity);
      var fee := ChargeFor(c, SELL, notional, bar.start, desk.entry, false);
      fee.Ok? &&
      (Resolve(m, c, bar, true, Force(c, bar, desk)).Err? <==> bar.volume == 0 || Unaffordable(SELL, desk.cash, notional, fee.value)) &&
      (Resolve(m, c, bar, true, Force(c, bar, desk)).Err? ==>
         Resolve(m, c, bar, true, Force(c, bar, desk)).error == "FORCED_EXIT_UNAVAILABLE")
  {
    hide FillReceipts, FilledReceipts, Legs, Paired, SumCosts, SumGross, Value, Adverse;
    var quantity := desk.entry.value.quantity;
    PricePositive(c, SELL, bar.open, quantity);
    ChargeSucceeds(c, SELL, Value(Adverse(c, SELL, bar.open), quantity), bar.start, desk.entry, false);
    ChargeSucceeds(c, SELL, Value(Adverse(c, SELL, bar.open), quantity), bar.start, desk.entry, true);
    hide ChargeFor;
  }

  // ----- the shape of complete sessions -----

  lemma {:induction false} WallClock(date: int, time: int)
    requires 0 <= time < MINUTES_PER_DAY
    ensures DateOf(Combine(date, time)) == date && TimeOfDay(Combine(date, time)) == time
  {
  }

  /** Minute i of the calendar is minute j of the session of day k. */
  ghost predicate Slot(days: seq<Day>, first: int, last: int, i: nat, k: nat, j: nat)
    requires i < |Minutes(days, first, last)|
  {
    && k < |days| && days[k].Trading? && j < days[k].close - days[k].open
    && Minutes(days, first, last)[i] == Combine(days[k].date, days[k].open + j)
    && (j == 0 || (i > 0 && Minutes(days, first, last)[i - 1] == Combine(days[k].date, days[k].open + j - 1)))
    && (j < days[k].close - days[k].open - 1 ==> i + 1 < |Minutes(days, first, last)|)
    && (i + 1 < |Minutes(days, first, last)| ==>
          if j < days[k].close - days[k].open - 1 then Minutes(days, first, last)[i + 1] == Combine(days[k].date, days[k].open + j + 1)
          else OpensLater(days, k, Minutes(days, first, last)[i + 1]))
  }

  /** Some session after day k opens at a minute. */
  ghost predicate OpensLater(days: seq<Day>, k: nat, at: int) {
    exists l :: k < l < |days| && OpensAt(days, l, at)
  }

  ghost predicate OpensAt(days: seq<Day>, l: int, at: int)
    requires 0 <= l < |days|
  {
    days[l].Trading? && days[l].open < days[l].close && at == Combine(days[l].date, days[l].open)
  }

  lemma {:induction false} SlotExists(days: seq<Day>, first: int, last: int, i: nat) returns (k: nat, j: nat)
    requires i < |Minutes(days, first, last)|
    ensures Slot(days, first, last, i, k, j)
  {
    hide Combine;
    var d, rest := days[|days| - 1], days[..|days| - 1];
    var before := Minutes(rest, first, last);
    var here := d.Trading? && first <= d.date <= last && d.open < d.close;
    var mine := if here then Session(d, d.close - d.open) else [];
    var all := Minutes(days, first, last);
    assert all == before + mine;
    if i < |before| {
      k, j := SlotExists(rest, first, last, i);
      assert all[i] == before[i] && (i > 0 ==> all[i - 1] == before[i - 1]);
      if i + 1 < |before| {
        assert all[i + 1] == before[i + 1];
        if j == days[k].close - days[k].open - 1 {
          var l :| k < l < |rest| && OpensAt(rest, l, before[i + 1]);
          assert OpensAt(days, l, all[i + 1]);
        }
      } else if i + 1 < |all| {
        assert all[i + 1] == mine[0] && OpensAt(days, |days| - 1, all[i + 1]);
      }
    } else {
      k, j := |days| - 1, i - |before|;
      assert all[i] == mine[j];
      if j > 0 { assert all[i - 1] == mine[j - 1]; }
      if i + 1 < |all| { assert all[i + 1] == mine[j + 1]; }
    }
  }

  /** Within a day bars advance minute by minute; a session's first bar is at its opening, its last just
      before its close. */
  lemma {:induction false} BarShape(m: Market, c: Config, n: nat)
    requires m.Valid() && PolicyFits(m, c) && c.Valid() && n < |m.bars|
    ensures SessionEnds(m, n) ==> TimeOfDay(m.bars[n].start) >= c.forcedExit
    ensures n + 1 < |m.bars| && !SessionEnds(m, n) ==> TimeOfDay(m.bars[n + 1].start) == TimeOfDay(m.bars[n].start) + 1
    ensures n + 1 < |m.bars| && SessionEnds(m, n) ==> DateOf(m.bars[n].start) != DateOf(m.bars[n + 1].start)
  {
    var k, j := SlotExists(m.days, m.first, m.last, n);
    var d := m.days[k];
    assert d in m.days && d.Valid();
    var minutes := Minutes(m.days, m.first, m.last);
    WallClock(d.date, d.open + j);
    if j < d.close - d.open - 1 {
      WallClock(d.date, d.open + j + 1);
    } else if n + 1 < |m.bars| {
      var l :| k < l < |m.days| && OpensAt(m.days, l, minutes[n + 1]);
      assert m.days[l] in m.days && m.days[l].Valid();
      WallClock(m.days[l].date, m.days[l].open);
      assert m.days[k].date < m.days[l].date;
    }
  }

  // ----- whole runs -----

  /** An open position was bought today, before the forced-exit minute, and today is not over. */
  ghost predicate Intraday(m: Market, c: Config, n: nat, desk: Desk)
    requires n <= |m.bars|
  {
    desk.entry.Some? ==>
      && n > 0 && !SessionEnds(m, n - 1)
      && TimeOfDay(m.bars[n - 1].start) < c.forcedExit
      && DateOf(desk.entry.value.time) == DateOf(m.bars[n - 1].start)
  }

  /** What a desk keeps from bar to bar. */
  ghost predicate Kept(m: Market, c: Config, n: nat, desk: Desk)
    requires n <= |m.bars|
  {
    && Balanced(c, desk) && Filed(m, desk) && Intraday(m, c, n, desk)
    && (n == 0 || SessionEnds(m, n - 1) ==> desk.pending.None?)
  }

  /** The only ways a bar can stop a run. */
  ghost predicate Admitted(error: string) {
    error == "FORCED_EXIT_UNAVAILABLE" || error == "STRATEGY_FAILURE"
  }

  /** The position after the open: bought now inside the entry window, or held and not due to be forced. */
  lemma {:induction false} ResolveTiming(m: Market, c: Config, bar: Bar, forced: bool, desk: Desk)
    requires 1 <= m.lotSize && desk.pending.Some? && c.Valid()
    requires Resolve(m, c, bar, forced, desk).Ok?
    requires forced ==> desk.pending.value.intent.side == SELL
    ensures
      var after := Resolve(m, c, bar, forced, desk).value;
      && after.pending.None?
      && (forced ==> after.entry.None? || desk.entry.None?)
      && (after.entry.Some? ==>
            after.entry == desk.entry ||
            (after.entry.value.time == bar.start && TimeOfDay(bar.start) <= c.lastEntry))
  {
    hide Value, Adverse, ChargeFor;
  }

  lemma {:induction false} BarFacts(m: Market, c: Config, n: nat)
    requires m.Valid() && TariffCovers(m, c) && n < |m.bars|
    ensures 1 <= m.lotSize && m.bars[n].Valid()
    ensures c.costs.Tariff? ==> c.costs.schedule.Effective(c.costs.schedule.PricingDate(m.bars[n].start))
  {
    assert m.bars[n] in m.bars;
  }

  /** The pending intent can stop the run only as a forced exit that is unavailable. */
  lemma {:induction false} ResolveErrors(m: Market, c: Config, bar: Bar, forced: bool, desk: Desk)
    requires c.Valid() && 1 <= m.lotSize && bar.Valid() && desk.pending.Some? && Balanced(c, desk)
    requires c.costs.Tariff? ==> c.costs.schedule.Effective(c.costs.schedule.PricingDate(bar.start))
    ensures Resolve(m, c, bar, forced, desk).Err? ==> forced && Resolve(m, c, bar, forced, desk).error == "FORCED_EXIT_UNAVAILABLE"
  {
    hide SumCosts, SumGross, Value, Adverse;
    var intent := desk.pending.value.intent;
    PricePositive(c, intent.side, bar.open, intent.quantity);
    ChargeSucceeds(c, intent.side, Value(Adverse(c, intent.side, bar.open), intent.quantity), bar.start, desk.entry,
                   Rejection(m, c, bar, desk.entry, intent).Some?);
    hide ChargeFor;
  }

  /** The desk between a bar's open and its close. */
  ghost predicate MidDay(m: Market, c: Config, bar: Bar, desk: Desk) {
    && Balanced(c, desk) && Filed(m, desk) && desk.pending.None?
    && (desk.entry.Some? ==> TimeOfDay(bar.start) < c.forcedExit && DateOf(desk.entry.value.time) == DateOf(bar.start))
  }

  function AtOpen(m: Market, c: Config, bar: Bar, desk: Desk): Result<Desk>
    requires 1 <= m.lotSize
  {
    var ready := Force(c, bar, desk);
    if ready.pending.Some? then Resolve(m, c, bar, Forced(c, bar, desk), ready) else Ok(ready)
  }

  lemma {:induction false} OpenKept(m: Market, c: Config, bar: Bar, desk: Desk)
    requires c.Valid() && 1 <= m.lotSize && bar.Valid() && Balanced(c, desk) && Filed(m, desk)
    requires c.costs.Tariff? ==> c.costs.schedule.Effective(c.costs.schedule.PricingDate(bar.start))
    requires desk.entry.Some? ==> TimeOfDay(bar.start) <= c.forcedExit && DateOf(desk.entry.value.time) == DateOf(bar.start)
    ensures AtOpen(m, c, bar, desk).Err? ==> AtOpen(m, c, bar, desk).error == "FORCED_EXIT_UNAVAILABLE"
    ensures AtOpen(m, c, bar, desk).Ok? ==> MidDay(m, c, bar, AtOpen(m, c, bar, desk).value)
  {
    var ready := Force(c, bar, desk);
    ForceBalanced(c, bar, desk);
    ForceFiled(m, c, bar, desk);
    assert ready.entry == desk.entry && (Forced(c, bar, desk) ==> ready.pending.Some? && ready.pending.value.intent.side == SELL);
    assert c.lastEntry < c.forcedExit;
    hide Balanced, Filed, Resolve, Rejection, Force, Config.Valid;
    if ready.pending.Some? {
      ResolveErrors(m, c, bar, Forced(c, bar, desk), ready);
      if Resolve(m, c, bar, Forced(c, bar, desk), ready).Ok? {
        ResolveBalanced(m, c, bar, Forced(c, bar, desk), ready);
        ResolveFiled(m, c, bar, Forced(c, bar, desk), ready);
        ResolveTiming(m, c, bar, Forced(c, bar, desk), ready);
      }
    }
  }

  lemma {:induction false} MarkKeepsDesk(c: Config, bar: Bar, desk: Desk)
    requires MarkToMarket(c, bar, desk).Ok?
    ensures exists curve :: MarkToMarket(c, bar, desk).value == desk.(curve := curve)
  {
    hide Value;
  }

  lemma {:induction false} MarkFiled(m: Market, c: Config, bar: Bar, desk: Desk)
    requires Filed(m, desk) && MarkToMarket(c, bar, desk).Ok?
    ensures Filed(m, MarkToMarket(c, bar, desk).value)
    ensures MarkToMarket(c, bar, desk).value.entry == desk.entry && MarkToMarket(c, bar, desk).value.pending == desk.pending
  {
    hide Value, MarkToMarket;
    MarkKeepsDesk(c, bar, desk);
  }

  lemma {:induction false} ProposeFiled(m: Market, s: Strategy, context: Decision, at: int, desk: Desk)
    requires Filed(m, desk) && desk.pending.None?
    ensures Propose(s, context, at, desk).Err? ==> Propose(s, context, at, desk).error == "STRATEGY_FAILURE"
    ensures Propose(s, context, at, desk).Ok? ==>
      Filed(m, Propose(s, context, at, desk).value) && Propose(s, context, at, desk).value.entry == desk.entry
  {
    hide FillReceipts, FilledReceipts, Legs, Paired;
  }

  /** After the open: mark, decide, and close the session if it ends. */
  function AfterOpen(m: Market, c: Config, s: Strategy, n: nat, desk: Desk): Result<Desk>
    requires n < |m.bars|
  {
    var marked :- MarkToMarket(c, m.bars[n], desk);
    var proposed :- Propose(s, Context(m, n, SessionStart(m, n), marked), m.bars[n].End(), marked);
    CloseSession(m, n, proposed)
  }

  lemma {:induction false} CloseKept(m: Market, c: Config, s: Strategy, n: nat, desk: Desk)
    requires n < |m.bars| && MidDay(m, c, m.bars[n], desk)
    requires SessionEnds(m, n) ==> TimeOfDay(m.bars[n].start) >= c.forcedExit
    ensures AfterOpen(m, c, s, n, desk).Err? ==> AfterOpen(m, c, s, n, desk).error == "STRATEGY_FAILURE"
    ensures AfterOpen(m, c, s, n, desk).Ok? ==> Kept(m, c, n + 1, AfterOpen(m, c, s, n, desk).value)
  {
    hide Balanced, Filed, MarkToMarket, Propose, Context, SessionStart;
    var bar := m.bars[n];
    MarkBalanced(c, bar, desk);
    MarkFiled(m, c, bar, desk);
    var marked := MarkToMarket(c, bar, desk).value;
    var context := Context(m, n, SessionStart(m, n), marked);
    ProposeFiled(m, s, context, bar.End(), marked);
    if Propose(s, context, bar.End(), marked).Ok? {
      var proposed := Propose(s, context, bar.End(), marked).value;
      ProposeBalanced(c, s, context, bar.End(), marked);
      CloseFiled(m, n, proposed);
      CloseBalanced(m, c, n, proposed);
    }
  }

  lemma {:induction false} CloseBalanced(m: Market, c: Config, n: nat, desk: Desk)
    requires n < |m.bars| && Balanced(c, desk) && CloseSession(m, n, desk).Ok?
    ensures Balanced(c, CloseSession(m, n, desk).value)
  {
    hide SumCosts, SumGross, Value;
  }

  lemma {:induction false} StepSplits(m: Market, c: Config, s: Strategy, n: nat, desk: Desk)
    requires n < |m.bars| && 1 <= m.lotSize
    ensures
      var opening := AtOpen(m, c, m.bars[n], desk);
      Step(m, c, s, n, desk) == if opening.Err? then Err(opening.error) else AfterOpen(m, c, s, n, opening.value)
  {
    hide Force, Forced, Resolve, MarkToMarket, Propose, CloseSession, Context, SessionStart;
  }

  lemma {:induction false} KeptAtOpen(m: Market, c: Config, n: nat, desk: Desk)
    requires n < |m.bars| && Kept(m, c, n, desk)
    requires n > 0 && !SessionEnds(m, n - 1) ==> TimeOfDay(m.bars[n].start) == TimeOfDay(m.bars[n - 1].start) + 1
    ensures Balanced(c, desk) && Filed(m, desk)
    ensures desk.entry.Some? ==> TimeOfDay(m.bars[n].start) <= c.forcedExit && DateOf(desk.entry.value.time) == DateOf(m.bars[n].start)
  {
    hide Balanced, Filed;
  }

  /** One bar keeps everything, or stops for one of the two admitted reasons. */
  lemma {:induction false} StepKept(m: Market, c: Config, s: Strategy, n: nat, desk: Desk)
    requires m.Valid() && c.Valid() && PolicyFits(m, c) && TariffCovers(m, c) && n < |m.bars|
    requires Kept(m, c, n, desk)
    ensures 1 <= m.lotSize
    ensures Step(m, c, s, n, desk).Err? ==> Admitted(Step(m, c, s, n, desk).error)
    ensures Step(m, c, s, n, desk).Ok? ==> Kept(m, c, n + 1, Step(m, c, s, n, desk).value)
  {
    hide *;
    BarFacts(m, c, n);
    BarShape(m, c, n);
    if n > 0 { BarShape(m, c, n - 1); }
    KeptAtOpen(m, c, n, desk);
    OpenKept(m, c, m.bars[n], desk);
    var opening := AtOpen(m, c, m.bars[n], desk);
    StepSplits(m, c, s, n, desk);
    if opening.Ok? { CloseKept(m, c, s, n, opening.value); }
    AdmittedErrors();
  }

  lemma {:induction false} AdmittedErrors()
    ensures Admitted("FORCED_EXIT_UNAVAILABLE") && Admitted("STRATEGY_FAILURE")
  {
  }

  lemma {:induction false} OpeningKept(m: Market, c: Config)
    requires c.Valid()
    ensures Kept(m, c, 0, Opening(c))
  {
  }

  lemma {:induction false} RunKept(m: Market, c: Config, s: Strategy, n: nat)
    requires m.Valid() && c.Valid() && PolicyFits(m, c) && TariffCovers(m, c) && n <= |m.bars|
    ensures RunTo(m, c, s, n).Err? ==> Admitted(RunTo(m, c, s, n).error)
    ensures RunTo(m, c, s, n).Ok? ==> Kept(m, c, n, RunTo(m, c, s, n).value)
  {
    hide Step, Kept, TariffCovers, PolicyFits, Config.Valid;
    if n == 0 {
      OpeningKept(m, c);
    } else {
      RunKept(m, c, s, n - 1);
      if RunTo(m, c, s, n - 1).Ok? { StepKept(m, c, s, n - 1, RunTo(m, c, s, n - 1).value); }
    }
  }

  // ----- results -----

  /** The errors a run on valid data can end in. */
  const POSSIBLE: set<string> := {"SESSION_POLICY_OUTSIDE_SESSION", "COST_SCHEDULE_NOT_EFFECTIVE",
                                  "FORCED_EXIT_UNAVAILABLE", "STRATEGY_FAILURE"}

  /** For every dataset, configuration and callback a run is refused for its policy or tariff, stops
      for an unavailable forced exit or a failing callback, or completes: the overnight, ledger and final
      ledger errors are unreachable. */
  lemma {:induction false} GuardsAreUnreachable(m: Market, c: Config, s: Strategy)
    requires m.Valid() && c.Valid()
    ensures Ran(m, c, s).Err? ==>
      Ran(m, c, s).error in POSSIBLE
  {
    if PolicyFits(m, c) && TariffCovers(m, c) {
      RunKept(m, c, s, |m.bars|);
      if RunTo(m, c, s, |m.bars|).Ok? { KeptFinishes(m, c, RunTo(m, c, s, |m.bars|).value); }
    }
    hide RunTo, PolicyFits, TariffCovers, Finish, Kept;
  }

  lemma {:induction false} KeptFinishes(m: Market, c: Config, desk: Desk)
    requires m.bars != [] && Kept(m, c, |m.bars|, desk)
    ensures Finish(c, desk).Ok? && desk.entry.None? && desk.pending.None?
  {
    hide Filed, SumCosts, SumGross, Drawdown;
  }

  /** The ledger of a completed run: final cash is the initial cash plus the trades' gross less every
      fill's costs, and cash was never negative. */
  lemma {:induction false} LedgerIsSound(m: Market, c: Config, s: Strategy)
    requires m.Valid() && c.Valid() && Ran(m, c, s).Ok?
    ensures
      var r := Ran(m, c, s).value;
      && r.finalCash == c.initialCash + SumGross(r.trades) - SumCosts(r.fills)
      && r.net == r.finalCash - c.initialCash
      && 0.0 <= r.finalCash
      && forall p :: p in r.curve ==> 0.0 <= p.cash
  {
    hide SumCosts, SumGross, Drawdown, RunTo, Filed;
    RunKept(m, c, s, |m.bars|);
    KeptFinishes(m, c, RunTo(m, c, s, |m.bars|).value);
  }

  /** Intents of a completed run are resolved exactly once: outcome i carries id i + 1, the filled outcomes
      are the fills in order, and the fills pair into trades of equal quantity, each opened and closed
      on one date. */
  lemma {:induction false} IntentsResolvedOnce(m: Market, c: Config, s: Strategy)
    requires m.Valid() && c.Valid() && Ran(m, c, s).Ok?
    ensures
      var r := Ran(m, c, s).value;
      && (forall i :: 0 <= i < |r.outcomes| ==> r.outcomes[i].id == i + 1)
      && RunTo(m, c, s, |m.bars|).value.nextId == |r.outcomes| + 1
      && FilledReceipts(r.outcomes) == FillReceipts(r.fills)
      && r.fills == Legs(r.trades)
      && (forall t :: t in r.trades ==> Paired(t))
  {
    hide SumCosts, SumGross, Drawdown, RunTo, Balanced, FilledReceipts, FillReceipts, Legs, Paired;
    RunKept(m, c, s, |m.bars|);
    KeptFinishes(m, c, RunTo(m, c, s, |m.bars|).value);
  }
}
