/** What a paper run records, as a function of its candidates: which are refused and why, at what quantity the
    others are opened, and how each position ends. */
module PaperStory {
  import opened Wrappers
  import opened Clock
  import opened Costs
  import opened Series
  import opened Strategies
  import opened Executor
  import opened ExecutorLoops
  import opened Sizing
  import opened Audit
  import opened Paper

  // ----- rows without their seals -----

  /** What a row says; the log adds its binding, keys and hashes. */
  datatype Entry = Entry(signal: string, state: Phase, at: int, values: map<Column, Value>)

  function Noted(signal: string, state: Phase, at: int, values: map<Column, Value>): Entry {
    Entry(signal, state, at, DEFAULTS + values)
  }

  function EntryOf(row: Row): Entry {
    match row
    case Malformed(_) => Entry("", SIGNAL_RECEIVED, 0, map[])
    case Row(body, _) => Entry(body.columns.signal, body.columns.state, body.columns.timestamp, body.values)
  }

  /** What a log says, row by row. */
  function Told(events: seq<Row>): (es: seq<Entry>)
    ensures |es| == |events| && forall i :: 0 <= i < |es| ==> es[i] == EntryOf(events[i])
  {
    seq(|events|, i requires 0 <= i < |events| => EntryOf(events[i]))
  }

  // ----- the entries of one candidate -----

  function Worth(price: real, quantity: int): real { price * quantity as real }

  function Refusal(signal: string, received: int, at: int, reason: string, cash: real): seq<Entry> {
    [Noted(signal, SIGNAL_RECEIVED, received, map[]),
     Noted(signal, ELIGIBILITY_CHECKED, at, map[]),
     Noted(signal, PAPER_ORDER_REJECTED, at, map[REJECTION := Text(reason), CASH := Amount(cash)])]
  }

  /** An order of some quantity: approved, created and accepted. */
  function Ordering(signal: string, at: int, quantity: int, liquidityStart: int): seq<Entry> {
    var values := map[QUANTITY := Number(quantity), TIMING := Audit.Timing(at, liquidityStart)];
    [Noted(signal, RISK_APPROVED, at, values),
     Noted(signal, PAPER_ORDER_CREATED, at, values),
     Noted(signal, PAPER_ORDER_ACCEPTED, at, values)]
  }

  function Bought(costs: Schedule, entry: real, quantity: int, cash: real): real {
    cash - (Worth(entry, quantity) + BuyCost(costs, Worth(entry, quantity)))
  }

  function Filling(signal: string, at: int, entry: real, quantity: int, liquidityStart: int, costs: Schedule, cash: real): seq<Entry> {
    var after := Bought(costs, entry, quantity, cash);
    [Noted(signal, PAPER_FILLED, at,
           map[TIMING := Audit.Timing(at, liquidityStart), PRICE := Amount(entry), QUANTITY := Number(quantity),
               FEES := Amount(BuyCost(costs, Worth(entry, quantity))), CASH := Amount(after), POSITION := Number(quantity)]),
     Noted(signal, PAPER_POSITION_OPEN, at, map[QUANTITY := Number(quantity), CASH := Amount(after), POSITION := Number(quantity)])]
  }

  function ReasonText(r: Reason): Value {
    Audit.Text(match r case STOP => "STOP" case TARGET => "TARGET" case EOD => "EOD")
  }

  /** Can the exit candle absorb the quantity? A position the execution could not leave has no exit price. */
  predicate Leaves(settings: Settings, h: Held, quantity: int, exitVolume: int) {
    h.exit.Some? && exitVolume as real * settings.participation >= quantity as real
  }

  function Sold(settings: Settings, costs: Schedule, h: Held, quantity: int, exitVolume: int, cash: real): real {
    if !Leaves(settings, h, quantity, exitVolume) then cash
    else cash + (Worth(h.exit.value, quantity) - SellCost(costs, Worth(h.exit.value, quantity), Worth(h.entry, quantity)))
  }

  function Leaving(signal: string, h: Held, quantity: int, exitVolume: int, settings: Settings, costs: Schedule, cash: real): seq<Entry> {
    var after := Sold(settings, costs, h, quantity, exitVolume, cash);
    [Noted(signal, PAPER_EXIT_PENDING, h.exitAt,
           map[QUANTITY := Number(quantity), REJECTION := ReasonText(h.reason), POSITION := Number(quantity)]),
     if !Leaves(settings, h, quantity, exitVolume) then
       Noted(signal, PAPER_HALTED, h.exitAt,
             map[REJECTION := Audit.Text("EXIT_LIQUIDITY_UNVALUED"), CASH := Amount(after), POSITION := Number(quantity), QUANTITY := Number(quantity)])
     else
       Noted(signal, PAPER_POSITION_CLOSED, h.exitAt,
             map[PRICE := Amount(h.exit.value), QUANTITY := Number(quantity),
                 FEES := Amount(SellCost(costs, Worth(h.exit.value, quantity), Worth(h.entry, quantity))),
                 CASH := Amount(after), REJECTION := ReasonText(h.reason)])]
  }

  // ----- candidates in turn -----

  /** What a run trades by. */
  datatype Plan = Plan(series: PriceSeries, d: Definition, settings: Settings, costs: Schedule, risk: Risk, keyOf: Candle -> string)
  {
    /** The identity of a candidate's signal: its candle is the one before. */
    function Signal(c: Candidate): string { keyOf(BarAt(series, c.at - FIVE)) }

    function Liquidity(c: Candidate): Candle {
      match LiquidityBar(series, c.at) case Ok(bar) => bar case Err(_) => Candle(c.at, 0.0, 0.0, 0.0, 0.0, 0)
    }

    /** The sizing question asked when a position is due. */
    function OrderOf(c: Candidate, cash: real): Order
      requires c.held.Some?
    {
      Order(risk, settings, costs, c.held.value.entry, cash, Liquidity(c).volume, d.stop)
    }

    function ExitVolume(h: Held): int { BarAt(series, h.exitAt - FIVE).volume }
  }

  /** Where a run stands: its cash, the date of the last position due, the cash when that date began, and whether
      a position could not be left. */
  datatype Standing = Standing(cash: real, day: Option<int>, dayStartCash: real, halted: bool)

  /** A position due on a new date starts that date at the present cash. */
  function Dawned(c: Candidate, at: Standing): Standing {
    if at.day == Some(DateOf(c.at)) then at else at.(day := Some(DateOf(c.at)), dayStartCash := at.cash)
  }

  /** Has the date lost as much as the policy allows? */
  predicate DayLost(p: Plan, c: Candidate, at: Standing)
    requires !p.risk.HasGaps()
  {
    Dawned(c, at).dayStartCash - at.cash >= p.risk.dailyLoss.value
  }

  function Denied(p: Plan, c: Candidate, at: Standing): Option<string>
    requires c.held.Some? && !p.risk.HasGaps()
  {
    if DayLost(p, c, at) then Some("DAILY_LOSS_GUARD")
    else if Sized(p.OrderOf(c, at.cash)) < 1 then Some("POSITION_SIZE_OR_EXPOSURE_OR_LIQUIDITY")
    else None
  }

  /** Nine entries: received, checked, ordered, filled and left. */
  function Trading(p: Plan, c: Candidate, quantity: int, cash: real): seq<Entry>
    requires c.held.Some?
  {
    var h, signal, liquidity := c.held.value, p.Signal(c), p.Liquidity(c).start;
    [Noted(signal, SIGNAL_RECEIVED, h.signalAt, map[]), Noted(signal, ELIGIBILITY_CHECKED, c.at, map[])]
    + Ordering(signal, c.at, quantity, liquidity)
    + Filling(signal, c.at, h.entry, quantity, liquidity, p.costs, cash)
    + Leaving(signal, h, quantity, p.ExitVolume(h), p.settings, p.costs, Bought(p.costs, h.entry, quantity, cash))
  }

  /** Is a position opened for the candidate? */
  predicate Opens(p: Plan, c: Candidate, at: Standing)
    requires !p.risk.HasGaps()
  {
    c.held.Some? && Denied(p, c, at).None?
  }

  function EntriesFor(p: Plan, c: Candidate, at: Standing): seq<Entry>
    requires !p.risk.HasGaps()
  {
    if c.held.None? then Refusal(p.Signal(c), c.at, c.at, "ENTRY_LIMIT_OR_LIQUIDITY", at.cash)
    else if Denied(p, c, at).Some? then Refusal(p.Signal(c), c.held.value.signalAt, c.at, Denied(p, c, at).value, at.cash)
    else Trading(p, c, Sized(p.OrderOf(c, at.cash)), at.cash)
  }

  function Next(p: Plan, c: Candidate, at: Standing): Standing
    requires !p.risk.HasGaps()
  {
    if c.held.None? then at
    else if !Opens(p, c, at) then Dawned(c, at)
    else
      var h, quantity := c.held.value, Sized(p.OrderOf(c, at.cash));
      Dawned(c, at).(cash := Sold(p.settings, p.costs, h, quantity, p.ExitVolume(h), Bought(p.costs, h.entry, quantity, at.cash)),
                     halted := !Leaves(p.settings, h, quantity, p.ExitVolume(h)))
  }

  datatype Tale = Tale(entries: seq<Entry>, standing: Standing)

  /** The first n candidates; a position that cannot be left ends the story. */
  function Story(p: Plan, cs: seq<Candidate>, n: nat): Tale
    requires n <= |cs| && !p.risk.HasGaps()
  {
    if n == 0 then Tale([], Standing(p.settings.capital, None, p.settings.capital, false))
    else
      var before := Story(p, cs, n - 1);
      if before.standing.halted then before
      else Tale(before.entries + EntriesFor(p, cs[n - 1], before.standing), Next(p, cs[n - 1], before.standing))
  }

  lemma {:induction false} StoryEnds(p: Plan, cs: seq<Candidate>, k: nat, n: nat)
    requires k <= n <= |cs| && !p.risk.HasGaps() && Story(p, cs, k).standing.halted
    ensures Story(p, cs, n) == Story(p, cs, k)
  {
    hide EntriesFor, Next;
    if k < n { StoryEnds(p, cs, k, n - 1); }
  }

  // ----- the whole run -----

  function Semicolons(reasons: seq<string>): string {
    if reasons == [] then "" else if |reasons| == 1 then reasons[0] else reasons[0] + ";" + Semicolons(reasons[1..])
  }

  /** A run that is not admitted. */
  function Inadmissible(signal: string, at: int, halt: bool, reasons: string, cash: real): seq<Entry> {
    [Noted(signal, SIGNAL_RECEIVED, at, map[]),
     Noted(signal, ELIGIBILITY_CHECKED, at, map[]),
     Noted(signal, if halt then PAPER_HALTED else PAPER_ORDER_REJECTED, at,
           map[REJECTION := Audit.Text(if halt then "PAPER_HALT" else reasons), CASH := Amount(cash)])]
  }

  /** A run whose series cannot be executed. */
  function Unexecuted(signal: string, at: int, error: string, cash: real): seq<Entry> {
    [Noted(signal, SIGNAL_RECEIVED, at, map[]),
     Noted(signal, PAPER_HALTED, at, map[REJECTION := Audit.Text(error), CASH := Amount(cash)])]
  }

  /** Everything a run records, and the cash it ends with. */
  function Recorded(b: Binding, p: Plan, refusals: seq<string>, halt: bool): (r: (seq<Entry>, real))
    requires p.series.Valid() && p.settings.Valid() && (refusals == [] ==> !p.risk.HasGaps())
  {
    var cash, start := p.settings.capital, p.series.fromInclusive;
    if refusals != [] || halt then (Inadmissible(b.digest(b.runId + "admission"), start, halt, Semicolons(refusals), cash), cash)
    else
      match Executed(p.series, p.d, UnitSettings(p.settings), p.costs)
      case Err(error) => (Unexecuted(b.digest(b.runId + "quality"), start, error, cash), cash)
      case Ok(e) =>
        var cs := SortedByTime(Candidates(e));
        (Story(p, cs, |cs|).entries, Story(p, cs, |cs|).standing.cash)
  }
}
