/** The engine's loop over bars, proved equal to the desk function. */
module BacktestLoop {
  import opened Wrappers
  import opened Clock
  import opened RealFacts
  import opened Costs
  import opened Backtest

  /** Execute or reject the pending intent. */
  method ExecutePending(m: Market, c: Config, bar: Bar, forced: bool, desk: Desk) returns (out: Result<Desk>)
    requires 1 <= m.lotSize && desk.pending.Some?
    ensures out == Resolve(m, c, bar, forced, desk)
  {
    hide Adverse, Value, Fee;
    var cash, realized, entry := desk.cash, desk.realized, desk.entry;
    var outcomes, fills, trades := desk.outcomes, desk.fills, desk.trades;
    var p := desk.pending.value;
    var intent := p.intent;
    var rejection: Option<Status> := None;
    if intent.quantity % m.lotSize != 0 {
      rejection := Some(LOT_SIZE_VIOLATION);
    } else if bar.volume == 0 {
      rejection := Some(NO_EXECUTABLE_VOLUME);
    } else if intent.side == BUY {
      if entry.Some? {
        rejection := Some(ALREADY_LONG);
      } else if !(c.entryStart <= TimeOfDay(bar.start) <= c.lastEntry) {
        rejection := Some(OUTSIDE_ENTRY_WINDOW);
      }
    } else if entry.None? || intent.quantity > entry.value.quantity {
      rejection := Some(OVERSELL);
    } else if intent.quantity != entry.value.quantity {
      rejection := Some(PARTIAL_EXIT_UNSUPPORTED);
    }
    assert rejection == Rejection(m, c, bar, entry, intent);
    var price := Adverse(c, intent.side, bar.open);
    var notional := Value(price, intent.quantity);
    var quoted := ChargeFor(c, intent.side, notional, bar.start, entry, rejection.Some?);
    if quoted.Err? { return Err(quoted.error); }
    var fee := quoted.value;
    if rejection.None? && Unaffordable(intent.side, cash, notional, fee) {
      rejection := Some(INSUFFICIENT_CASH);
    }
    if rejection.Some? {
      if forced { return Err("FORCED_EXIT_UNAVAILABLE"); }
      outcomes := outcomes + [Resolved(p, bar.start, rejection.value)];
    } else {
      var fill := Fill(p.id, intent.side, intent.quantity, bar.start, bar.open, price, notional, fee, forced);
      fills := fills + [fill];
      outcomes := outcomes + [Resolved(p, bar.start, FILLED)];
      if intent.side == BUY {
        cash := cash - (notional + fee);
        entry := Some(fill);
      } else {
        var bought := entry.value;
        cash := cash + (notional - fee);
        var gross, costs := notional - bought.notional, bought.costs + fee;
        trades := trades + [Trade(bought, fill, gross, costs, gross - costs)];
        realized := realized + (gross - costs);
        entry := None;
      }
    }
    out := Ok(desk.(cash := cash, realized := realized, entry := entry, pending := None, outcomes := outcomes,
                    fills := fills, trades := trades));
  }

  /** One pass of the bar loop. */
  method RunBar(m: Market, c: Config, s: Strategy, n: nat, sessionStart: nat, before: Desk) returns (out: Result<Desk>)
    requires n < |m.bars| && 1 <= m.lotSize && sessionStart == SessionStart(m, n)
    ensures out == Step(m, c, s, n, before)
  {
    hide Resolve, Value;
    var bar, desk := m.bars[n], before;
    var forced := TimeOfDay(bar.start) == c.forcedExit && desk.entry.Some?;
    if forced {
      if desk.pending.Some? {
        desk := desk.(outcomes := desk.outcomes + [Resolved(desk.pending.value, bar.start, SUPERSEDED_BY_FORCED_EXIT)]);
      }
      var exit := Pending(desk.nextId, bar.start, Intent(SELL, desk.entry.value.quantity, "FORCED_EXIT"));
      desk := desk.(pending := Some(exit), nextId := desk.nextId + 1);
    }
    assert desk == Force(c, bar, before) && forced == Forced(c, bar, before);
    hide Force, Forced;
    if desk.pending.Some? {
      desk :- ExecutePending(m, c, bar, forced, desk);
    }
    desk :- MarkToMarket(c, bar, desk);
    var proposed := Propose(s, Context(m, n, sessionStart, desk), bar.End(), desk);
    if proposed.Err? { return Err(proposed.error); }
    desk := proposed.value;
    out := CloseSession(m, n, desk);
  }

  lemma {:induction false} StepsOn(m: Market, c: Config, s: Strategy, n: nat, before: Desk)
    requires n < |m.bars| && 1 <= m.lotSize && RunTo(m, c, s, n) == Ok(before)
    ensures RunTo(m, c, s, n + 1) == Step(m, c, s, n, before)
    ensures Step(m, c, s, n, before).Err? ==> RunTo(m, c, s, |m.bars|) == Err(Step(m, c, s, n, before).error)
  {
    hide Step;
    if Step(m, c, s, n, before).Err? { Failed(m, c, s, n + 1, |m.bars|); }
  }

  lemma {:induction false} Failed(m: Market, c: Config, s: Strategy, n: nat, k: nat)
    requires n <= k <= |m.bars| && 1 <= m.lotSize && RunTo(m, c, s, n).Err?
    ensures RunTo(m, c, s, k) == RunTo(m, c, s, n)
  {
    hide Step;
    if n < k { Failed(m, c, s, n, k - 1); }
  }

  /** The engine. */
  method Run(m: Market, c: Config, s: Strategy) returns (out: Result<Report>)
    requires m.Valid() && c.Valid()
    ensures out == Ran(m, c, s)
  {
    hide Step, RunTo;
    if !PolicyFits(m, c) { return Err("SESSION_POLICY_OUTSIDE_SESSION"); }
    if !TariffCovers(m, c) { return Err("COST_SCHEDULE_NOT_EFFECTIVE"); }
    var desk := Opening(c);
    Starts(m, c, s);
    var sessionStart := 0;
    for n := 0 to |m.bars|
      invariant RunTo(m, c, s, n) == Ok(desk)
      invariant n > 0 ==> sessionStart == SessionStart(m, n - 1)
      invariant n == 0 ==> sessionStart == 0
    {
      if n > 0 && DateOf(m.bars[n - 1].start) != DateOf(m.bars[n].start) {
        sessionStart := n;
      }
      StepsOn(m, c, s, n, desk);
      desk :- RunBar(m, c, s, n, sessionStart, desk);
    }
    out := FinalPass(c, desk);
  }

  lemma {:induction false} Starts(m: Market, c: Config, s: Strategy)
    requires 1 <= m.lotSize
    ensures RunTo(m, c, s, 0) == Ok(Opening(c))
  {
  }

  /** The pass over the equity curve and the final ledger check. */
  method FinalPass(c: Config, desk: Desk) returns (out: Result<Report>)
    ensures out == Finish(c, desk)
  {
    var peak, drawdown := c.initialCash, 0.0;
    for i := 0 to |desk.curve|
      invariant peak == PeakEquity(desk.curve[..i], c.initialCash)
      invariant drawdown == Drawdown(desk.curve[..i], c.initialCash)
    {
      assert desk.curve[..i + 1][..i] == desk.curve[..i];
      peak := Max(peak, desk.curve[i].equity);
      drawdown := Max(drawdown, peak - desk.curve[i].equity);
    }
    assert desk.curve[..|desk.curve|] == desk.curve;
    var costs, gross := SumCosts(desk.fills), SumGross(desk.trades);
    if desk.entry.Some? || desk.cash != c.initialCash + desk.realized || desk.realized != gross - costs {
      return Err("FINAL_LEDGER_INCONSISTENT");
    }
    out := Ok(Report(desk.outcomes, desk.fills, desk.trades, desk.curve, desk.cash, gross, costs, desk.realized,
                     Wins(desk.trades), Losses(desk.trades), drawdown));
  }
}
