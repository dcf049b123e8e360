/** The one-minute, next-open, flat/long/flat research engine (backtest/engine.py). */
module Backtest {
  import opened Wrappers
  import opened Clock
  import opened RealFacts
  import opened Costs

  // ----- market data -----

  datatype Bar = Bar(start: int, open: real, high: real, low: real, close: real, volume: int)
  {
    function End(): int { start + 1 }

    ghost predicate Valid() {
      0.0 < low <= Min(open, close) && Max(open, close) <= high && 0 <= volume
    }
  }

  /** A calendar day; a trading day has one session, from its opening to its closing minute. */
  datatype Day = Closed(date: int) | Trading(date: int, open: int, close: int)
  {
    ghost predicate Valid() {
      Trading? ==> 0 <= open < close < MINUTES_PER_DAY
    }
  }

  /** The minutes a calendar owes between two dates, in order. */
  function Minutes(days: seq<Day>, first: int, last: int): (r: seq<int>) {
    if days == [] then []
    else
      var d := days[|days| - 1];
      Minutes(days[..|days| - 1], first, last) +
      (if d.Trading? && first <= d.date <= last && d.open < d.close then Session(d, d.close - d.open) else [])
  }

  function Session(d: Day, n: nat): (r: seq<int>)
    requires d.Trading?
    ensures |r| == n
    ensures forall i :: 0 <= i < n ==> r[i] == Combine(d.date, d.open + i)
  {
    if n == 0 then [] else Session(d, n - 1) + [Combine(d.date, d.open + n - 1)]
  }

  /** A dataset or corpus, as its validator leaves it: one complete session for every trading day. */
  datatype Market = Market(lotSize: int, days: seq<Day>, first: int, last: int, bars: seq<Bar>, sessionView: bool)
  {
    ghost predicate Valid() {
      && 1 <= lotSize
      && (forall d :: d in days ==> d.Valid())
      && (forall i, j :: 0 <= i < j < |days| ==> days[i].date < days[j].date)
      && (forall b :: b in bars ==> b.Valid())
      && |bars| == |Minutes(days, first, last)|
      && (forall i :: 0 <= i < |bars| ==> bars[i].start == Minutes(days, first, last)[i])
      && bars != []
    }
  }

  // ----- configuration, callbacks and records -----

  datatype CostModel = Configured(fixedPerFill: real, notionalBps: real) | Tariff(schedule: Schedule)

  datatype Config = Config(
    initialCash: real, entryStart: int, lastEntry: int, forcedExit: int, slippageBps: real, costs: CostModel)
  {
    ghost predicate Valid() {
      && 0.0 < initialCash
      && entryStart <= lastEntry < forcedExit
      && 0.0 <= slippageBps < 10000.0
      && match costs
         case Configured(fixed, bps) => 0.0 <= fixed && 0.0 <= bps < 10000.0
         case Tariff(s) => s.Valid()
    }
  }

  datatype Intent = Intent(side: Side, quantity: int, reason: string)

  const MAX_QUANTITY := 2147483647

  /** What a strategy sees when a bar completes; `day` holds the session's opening and close. */
  datatype Decision = Decision(
    time: int, day: Option<Day>, completed: seq<Bar>, quantity: int, entryPrice: real, entryCosts: real, unrealized: real,
    cash: real, realized: real)

  /** A strategy proposes at most one intent, or raises. */
  type Strategy = Decision -> Result<Option<Intent>>

  datatype Status =
    | FILLED | SUPERSEDED_BY_FORCED_EXIT | LOT_SIZE_VIOLATION | NO_EXECUTABLE_VOLUME | ALREADY_LONG
    | OUTSIDE_ENTRY_WINDOW | OVERSELL | PARTIAL_EXIT_UNSUPPORTED | INSUFFICIENT_CASH
    | UNFILLED_END_OF_DATA | UNFILLED_SESSION_END

  datatype Outcome = Outcome(id: int, created: int, resolved: int, intent: Intent, status: Status)

  datatype Fill = Fill(
    id: int, side: Side, quantity: int, time: int, reference: real, price: real, notional: real, costs: real, forced: bool)

  datatype Trade = Trade(entry: Fill, exit: Fill, gross: real, costs: real, net: real)

  datatype Point = Point(time: int, cash: real, quantity: int, mark: real, unrealized: real, realized: real, equity: real)

  datatype Pending = Pending(id: int, created: int, intent: Intent)

  datatype Desk = Desk(
    cash: real, realized: real, entry: Option<Fill>, pending: Option<Pending>, nextId: int,
    outcomes: seq<Outcome>, fills: seq<Fill>, trades: seq<Trade>, curve: seq<Point>)

  datatype Report = Report(
    outcomes: seq<Outcome>, fills: seq<Fill>, trades: seq<Trade>, curve: seq<Point>, finalCash: real,
    gross: real, costs: real, net: real, wins: nat, losses: nat, drawdown: real)

  // ----- prices and costs -----

  function Value(price: real, quantity: int): real { price * quantity as real }

  function Adverse(c: Config, side: Side, reference: real): real {
    if side == BUY then reference * (1.0 + c.slippageBps / 10000.0) else reference * (1.0 - c.slippageBps / 10000.0)
  }

  /** The fee of an order; a tariff is not consulted for an order already rejected. */
  function ChargeFor(c: Config, side: Side, notional: real, at: int, entry: Option<Fill>, rejected: bool): Result<real> {
    match c.costs
    case Configured(fixed, bps) => Ok(fixed + notional * bps / 10000.0)
    case Tariff(s) =>
      if rejected then Ok(0.0)
      else Fee(s, side, notional, at, if entry.Some? then Some(entry.value.notional) else None)
  }

  /** Why an intent cannot be executed on a bar, cash apart. */
  function Rejection(m: Market, c: Config, bar: Bar, entry: Option<Fill>, intent: Intent): Option<Status>
    requires 1 <= m.lotSize
  {
    if intent.quantity % m.lotSize != 0 then Some(LOT_SIZE_VIOLATION)
    else if bar.volume == 0 then Some(NO_EXECUTABLE_VOLUME)
    else if intent.side == BUY then
      if entry.Some? then Some(ALREADY_LONG)
      else if !(c.entryStart <= TimeOfDay(bar.start) <= c.lastEntry) then Some(OUTSIDE_ENTRY_WINDOW)
      else None
    else if entry.None? || intent.quantity > entry.value.quantity then Some(OVERSELL)
    else if intent.quantity != entry.value.quantity then Some(PARTIAL_EXIT_UNSUPPORTED)
    else None
  }

  predicate Unaffordable(side: Side, cash: real, notional: real, fee: real) {
    if side == BUY then cash < notional + fee else cash + notional < fee
  }

  // ----- one bar -----

  predicate Forced(c: Config, bar: Bar, desk: Desk) {
    TimeOfDay(bar.start) == c.forcedExit && desk.entry.Some?
  }

  function Resolved(p: Pending, at: int, status: Status): Outcome {
    Outcome(p.id, p.created, at, p.intent, status)
  }

  /** At the forced-exit minute an open position takes over the pending slot. */
  function Force(c: Config, bar: Bar, desk: Desk): Desk {
    if !Forced(c, bar, desk) then desk
    else
      desk.(outcomes := if desk.pending.Some? then desk.outcomes + [Resolved(desk.pending.value, bar.start, SUPERSEDED_BY_FORCED_EXIT)]
                        else desk.outcomes,
            pending := Some(Pending(desk.nextId, bar.start, Intent(SELL, desk.entry.value.quantity, "FORCED_EXIT"))),
            nextId := desk.nextId + 1)
  }

  /** Execute or reject the pending intent at the bar's open. */
  function Resolve(m: Market, c: Config, bar: Bar, forced: bool, desk: Desk): Result<Desk>
    requires 1 <= m.lotSize && desk.pending.Some?
  {
    var p := desk.pending.value;
    var intent := p.intent;
    var early := Rejection(m, c, bar, desk.entry, intent);
    var price := Adverse(c, intent.side, bar.open);
    var notional := Value(price, intent.quantity);
    var fee :- ChargeFor(c, intent.side, notional, bar.start, desk.entry, early.Some?);
    var rejection := if early.None? && Unaffordable(intent.side, desk.cash, notional, fee) then Some(INSUFFICIENT_CASH) else early;
    if rejection.Some? then
      if forced then Err("FORCED_EXIT_UNAVAILABLE")
      else Ok(desk.(outcomes := desk.outcomes + [Resolved(p, bar.start, rejection.value)], pending := None))
    else
      var fill := Fill(p.id, intent.side, intent.quantity, bar.start, bar.open, price, notional, fee, forced);
      var filled := desk.(fills := desk.fills + [fill], outcomes := desk.outcomes + [Resolved(p, bar.start, FILLED)], pending := None);
      if intent.side == BUY then Ok(filled.(cash := desk.cash - (notional + fee), entry := Some(fill)))
      else if desk.entry.None? then Ok(filled)
      else
        var gross, costs := notional - desk.entry.value.notional, desk.entry.value.costs + fee;
        Ok(filled.(cash := desk.cash + (notional - fee),
                   trades := desk.trades + [Trade(desk.entry.value, fill, gross, costs, gross - costs)],
                   realized := desk.realized + (gross - costs), entry := None))
  }

  function Held(desk: Desk): int { if desk.entry.Some? then desk.entry.value.quantity else 0 }

  function HeldPrice(desk: Desk): real { if desk.entry.Some? then desk.entry.value.price else 0.0 }

  function HeldCosts(desk: Desk): real { if desk.entry.Some? then desk.entry.value.costs else 0.0 }

  /** Mark at the close, and insist that the two ways of computing equity agree. */
  function MarkToMarket(c: Config, bar: Bar, desk: Desk): Result<Desk> {
    var unrealized := Value(bar.close - HeldPrice(desk), Held(desk));
    var equity := desk.cash + Value(bar.close, Held(desk));
    if equity != c.initialCash + desk.realized + unrealized - HeldCosts(desk) then Err("LEDGER_INCONSISTENT")
    else Ok(desk.(curve := desk.curve + [Point(bar.End(), desk.cash, Held(desk), bar.close, unrealized, desk.realized, equity)]))
  }

  /** The calendar's day for a date. */
  function DayFor(days: seq<Day>, date: int): Option<Day> {
    if days == [] then None
    else if days[|days| - 1].date == date then Some(days[|days| - 1])
    else DayFor(days[..|days| - 1], date)
  }

  function Context(m: Market, n: nat, sessionStart: nat, desk: Desk): Decision
    requires n < |m.bars|
  {
    var from := if m.sessionView && sessionStart <= n then sessionStart else 0;
    Decision(m.bars[n].End(), DayFor(m.days, DateOf(m.bars[n].start)), m.bars[from..n + 1], Held(desk), HeldPrice(desk), HeldCosts(desk),
             Value(m.bars[n].close - HeldPrice(desk), Held(desk)), desk.cash, desk.realized)
  }

  /** Ask the strategy; a raise or an out-of-range quantity stops the run. */
  function Propose(s: Strategy, context: Decision, at: int, desk: Desk): Result<Desk> {
    match s(context)
    case Err(_) => Err("STRATEGY_FAILURE")
    case Ok(None) => Ok(desk)
    case Ok(Some(intent)) =>
      if !(1 <= intent.quantity <= MAX_QUANTITY) then Err("STRATEGY_FAILURE")
      else Ok(desk.(pending := Some(Pending(desk.nextId, at, intent)), nextId := desk.nextId + 1))
  }

  predicate SessionEnds(m: Market, n: nat)
    requires n < |m.bars|
  {
    n == |m.bars| - 1 || DateOf(m.bars[n + 1].start) != DateOf(m.bars[n].start)
  }

  /** At a session's last bar no position may remain, and a waiting intent lapses. */
  function CloseSession(m: Market, n: nat, desk: Desk): Result<Desk>
    requires n < |m.bars|
  {
    if !SessionEnds(m, n) then Ok(desk)
    else if desk.entry.Some? then Err("OVERNIGHT_POSITION_FORBIDDEN")
    else if desk.pending.None? then Ok(desk)
    else
      var status := if n == |m.bars| - 1 then UNFILLED_END_OF_DATA else UNFILLED_SESSION_END;
      Ok(desk.(outcomes := desk.outcomes + [Resolved(desk.pending.value, m.bars[n].End(), status)], pending := None))
  }

  /** The index at which the session of bar n starts. */
  function SessionStart(m: Market, n: nat): (k: nat)
    requires n < |m.bars|
    ensures k <= n
  {
    if n == 0 then 0
    else if DateOf(m.bars[n - 1].start) != DateOf(m.bars[n].start) then n
    else SessionStart(m, n - 1)
  }

  function Step(m: Market, c: Config, s: Strategy, n: nat, desk: Desk): Result<Desk>
    requires n < |m.bars| && 1 <= m.lotSize
  {
    var bar := m.bars[n];
    var ready := Force(c, bar, desk);
    var settled :- if ready.pending.Some? then Resolve(m, c, bar, Forced(c, bar, desk), ready) else Ok(ready);
    var marked :- MarkToMarket(c, bar, settled);
    var proposed :- Propose(s, Context(m, n, SessionStart(m, n), marked), bar.End(), marked);
    CloseSession(m, n, proposed)
  }

  function Opening(c: Config): Desk {
    Desk(c.initialCash, 0.0, None, None, 1, [], [], [], [])
  }

  /** The desk after the first n bars. */
  function RunTo(m: Market, c: Config, s: Strategy, n: nat): Result<Desk>
    requires n <= |m.bars| && 1 <= m.lotSize
  {
    if n == 0 then Ok(Opening(c))
    else
      var before :- RunTo(m, c, s, n - 1);
      Step(m, c, s, n - 1, before)
  }

  // ----- the final pass -----

  function PeakEquity(curve: seq<Point>, initial: real): real {
    if curve == [] then initial
    else Max(PeakEquity(curve[..|curve| - 1], initial), curve[|curve| - 1].equity)
  }

  function Drawdown(curve: seq<Point>, initial: real): real {
    if curve == [] then 0.0
    else Max(Drawdown(curve[..|curve| - 1], initial), PeakEquity(curve, initial) - curve[|curve| - 1].equity)
  }

  function SumCosts(fills: seq<Fill>): real {
    if fills == [] then 0.0 else SumCosts(fills[..|fills| - 1]) + fills[|fills| - 1].costs
  }

  function SumGross(trades: seq<Trade>): real {
    if trades == [] then 0.0 else SumGross(trades[..|trades| - 1]) + trades[|trades| - 1].gross
  }

  function Wins(trades: seq<Trade>): nat {
    if trades == [] then 0 else Wins(trades[..|trades| - 1]) + if trades[|trades| - 1].net > 0.0 then 1 else 0
  }

  function Losses(trades: seq<Trade>): nat {
    if trades == [] then 0 else Losses(trades[..|trades| - 1]) + if trades[|trades| - 1].net < 0.0 then 1 else 0
  }

  function Finish(c: Config, desk: Desk): Result<Report> {
    var costs, gross := SumCosts(desk.fills), SumGross(desk.trades);
    if desk.entry.Some? || desk.cash != c.initialCash + desk.realized || desk.realized != gross - costs then
      Err("FINAL_LEDGER_INCONSISTENT")
    else
      Ok(Report(desk.outcomes, desk.fills, desk.trades, desk.curve, desk.cash, gross, costs, desk.realized,
                Wins(desk.trades), Losses(desk.trades), Drawdown(desk.curve, c.initialCash)))
  }

  /** Every session leaves room for entry and for the forced exit. */
  predicate PolicyFits(m: Market, c: Config) {
    forall d :: d in m.days && d.Trading? ==> d.open <= c.entryStart && c.forcedExit < d.close
  }

  predicate TariffCovers(m: Market, c: Config) {
    c.costs.Tariff? ==> forall b :: b in m.bars ==> c.costs.schedule.Effective(c.costs.schedule.PricingDate(b.start))
  }

  /** The engine as a function of its arguments. */
  function Ran(m: Market, c: Config, s: Strategy): Result<Report>
    requires m.Valid() && c.Valid()
  {
    if !PolicyFits(m, c) then Err("SESSION_POLICY_OUTSIDE_SESSION")
    else if !TariffCovers(m, c) then Err("COST_SCHEDULE_NOT_EFFECTIVE")
    else
      var desk :- RunTo(m, c, s, |m.bars|);
      Finish(c, desk)
  }
}
