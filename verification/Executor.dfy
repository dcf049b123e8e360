/** The two five-minute executors: the causal session executor (phase1415/execution.py)
    and its predecessor (phase14/engine.py), each a loop proved against a step function. */
module Executor {
  import opened Wrappers
  import opened Clock
  import opened RealFacts
  import opened Costs
  import opened Series
  import opened Strategies

  // ----- configuration and results -----

  datatype Settings = Settings(
    capital: real, orderCeiling: real, priceBuffer: real, quantity: int,
    slippageBps: real, participation: real, allowLong: bool)
  {
    ghost predicate Valid() {
      && 0.0 < orderCeiling <= 10000.0
      && 0.0 < capital
      && 1.0 <= priceBuffer
      && 1 <= quantity
      && 0.0 <= slippageBps <= 1000.0
      && 0.0 < participation <= 1.0
    }
  }

  /** What both executors trade by. */
  datatype Rules = Rules(settings: Settings, costs: Schedule, stop: real, target: real)
  {
    ghost predicate Valid() {
      settings.Valid() && costs.Valid() && 0.0 < stop < 1.0 && 0.0 < target < 1.0
    }

    function Slip(): real { settings.slippageBps / 10000.0 }

    function Size(): real { settings.quantity as real }

    /** What a purchase at the candle's open pays per share, and what a sale receives. */
    function BuyPrice(reference: real): real { reference * (1.0 + Slip()) }

    function SalePrice(reference: real): real { reference * (1.0 - Slip()) }

    function Worth(price: real): real { price * Size() }

    function StopPrice(entry: real): real { entry * (1.0 - stop) }

    function TargetPrice(entry: real): real { entry * (1.0 + target) }

    predicate Liquid(volume: int) {
      volume as real * settings.participation >= Size()
    }
  }

  datatype Reason = STOP | TARGET | EOD

  datatype Trade = Trade(
    signalAt: int, entryAt: int, exitAt: int, entry: real, exit: real, quantity: int,
    reason: Reason, gross: real, fees: real, net: real)

  datatype Unresolved = Unresolved(
    signalAt: int, entryAt: int, entry: real, quantity: int, exitAt: int, reason: Reason)

  /** The timing record of one order: which completed candle measured liquidity, and the verdict. */
  datatype EntryDecision = EntryDecision(
    at: int, liquidityStart: int, liquidityVolume: int, quantity: int, filled: bool)

  datatype Position = Position(decided: int, entered: int, entry: real, fee: real)

  /** The running account of an executor. */
  datatype Book = Book(
    cash: real, peak: real, drawdown: real, position: Option<Position>, pending: Option<int>,
    trades: seq<Trade>, noFills: seq<int>, exposure: int)

  datatype Metrics = Metrics(
    trades: nat, wins: nat, losses: nat, breakeven: nat, winRate: real, expectancy: real,
    net: real, netReturn: real, costs: real, drawdown: real)

  datatype Execution = Execution(
    unresolved: seq<Unresolved>, decisions: seq<EntryDecision>, trades: seq<Trade>,
    metrics: Metrics, noFills: seq<int>, exposure: int, drawdown: real)

  datatype Simulation = Simulation(
    trades: seq<Trade>, metrics: Metrics, noFills: seq<int>, exposure: int, drawdown: real)

  // ----- closed-trade metrics -----

  function NetOf(trades: seq<Trade>): real {
    if trades == [] then 0.0 else NetOf(trades[..|trades| - 1]) + trades[|trades| - 1].net
  }

  function FeesOf(trades: seq<Trade>): real {
    if trades == [] then 0.0 else FeesOf(trades[..|trades| - 1]) + trades[|trades| - 1].fees
  }

  function WinsOf(trades: seq<Trade>): (n: nat)
    ensures n <= |trades|
  {
    if trades == [] then 0
    else WinsOf(trades[..|trades| - 1]) + if trades[|trades| - 1].net > 0.0 then 1 else 0
  }

  function LossesOf(trades: seq<Trade>): (n: nat)
    ensures n + WinsOf(trades) <= |trades|
  {
    if trades == [] then 0
    else LossesOf(trades[..|trades| - 1]) + if trades[|trades| - 1].net < 0.0 then 1 else 0
  }

  /** Highest closed equity so far, the starting capital included. */
  function ClosedPeak(trades: seq<Trade>, capital: real): (p: real)
    ensures capital <= p
  {
    if trades == [] then capital
    else Max(ClosedPeak(trades[..|trades| - 1], capital), capital + NetOf(trades))
  }

  /** Worst fall of closed equity, as a share of its peak. */
  function ClosedDrawdown(trades: seq<Trade>, capital: real): real
    requires 0.0 < capital
  {
    if trades == [] then 0.0
    else
      var peak := ClosedPeak(trades, capital);
      Max(ClosedDrawdown(trades[..|trades| - 1], capital), (peak - (capital + NetOf(trades))) / peak)
  }

  function MetricsOf(trades: seq<Trade>, capital: real): Metrics
    requires 0.0 < capital
  {
    var count := |trades|;
    Metrics(count, WinsOf(trades), LossesOf(trades), count - WinsOf(trades) - LossesOf(trades),
            if count == 0 then 0.0 else WinsOf(trades) as real / count as real,
            if count == 0 then 0.0 else NetOf(trades) / count as real,
            NetOf(trades), NetOf(trades) / capital, FeesOf(trades), ClosedDrawdown(trades, capital))
  }

  method ComputeMetrics(trades: seq<Trade>, capital: real) returns (m: Metrics)
    requires 0.0 < capital
    ensures m == MetricsOf(trades, capital)
  {
    var count := |trades|;
    var wins, losses, breakeven, net, fees := 0, 0, 0, 0.0, 0.0;
    var equity, peak, drawdown := capital, capital, 0.0;
    for i := 0 to |trades|
      invariant wins == WinsOf(trades[..i]) && losses == LossesOf(trades[..i])
      invariant breakeven == i - wins - losses
      invariant net == NetOf(trades[..i]) && fees == FeesOf(trades[..i])
      invariant equity == capital + NetOf(trades[..i])
      invariant peak == ClosedPeak(trades[..i], capital)
      invariant drawdown == ClosedDrawdown(trades[..i], capital)
    {
      assert trades[..i + 1][..i] == trades[..i];
      var t := trades[i];
      if t.net > 0.0 { wins := wins + 1; } else if t.net < 0.0 { losses := losses + 1; } else { breakeven := breakeven + 1; }
      net, fees := net + t.net, fees + t.fees;
      equity := equity + t.net;
      peak := Max(peak, equity);
      drawdown := Max(drawdown, (peak - equity) / peak);
    }
    assert trades[..|trades|] == trades;
    m := Metrics(count, wins, losses, breakeven,
                 if count == 0 then 0.0 else wins as real / count as real,
                 if count == 0 then 0.0 else net / count as real,
                 net, net / capital, fees, drawdown);
  }

  // ----- one candle: entry, mark, exit, close of the candle -----

  /** Fill or refuse the pending order at the candle's open. */
  function Enter(r: Rules, bar: Candle, last: bool, liquid: bool, b: Book): Result<Book>
    requires b.pending.Some?
  {
    var entry := r.BuyPrice(bar.open);
    var value := r.Worth(entry);
    var fee :- Fee(r.costs, BUY, value, bar.start, None);
    if !r.settings.allowLong || last || !liquid || b.cash < value + fee
       || value * r.settings.priceBuffer > r.settings.orderCeiling
    then Ok(b.(noFills := b.noFills + [bar.start], pending := None))
    else Ok(b.(position := Some(Position(b.pending.value, bar.start, entry, fee)),
               cash := b.cash - (value + fee), pending := None))
  }

  /** Completed-candle price decision: stop first, then target, then the session's end. */
  function ExitReference(bar: Candle, entry: real, r: Rules, last: bool): (real, Option<Reason>) {
    var stop, target := r.StopPrice(entry), r.TargetPrice(entry);
    if bar.low <= stop then (Min(stop, bar.open), Some(STOP))
    else if bar.high >= target then (target, Some(TARGET))
    else (bar.close, if last then Some(EOD) else None)
  }

  /** Mark the open position at the candle's low. */
  function MarkDown(r: Rules, bar: Candle, b: Book): Result<Book>
    requires b.position.Some?
  {
    var mark := r.Worth(r.SalePrice(bar.low));
    var fee :- Fee(r.costs, SELL, mark, bar.start, Some(r.Worth(b.position.value.entry)));
    Ok(b.(drawdown := Max(b.drawdown, Ratio(b.peak - b.cash - mark + fee, b.peak))))
  }

  /** Sell the position at the reference price. */
  function Exit(r: Rules, bar: Candle, reference: real, reason: Reason, b: Book): Result<Book>
    requires b.position.Some?
  {
    var p := b.position.value;
    var exit := r.SalePrice(reference);
    var buy, sell := r.Worth(p.entry), r.Worth(exit);
    var sellFee :- Fee(r.costs, SELL, sell, bar.start, Some(buy));
    var fee := p.fee + sellFee;
    Ok(b.(trades := b.trades + [Trade(p.decided, p.entered, bar.End(), p.entry, exit, r.settings.quantity,
                                      reason, sell - buy, fee, sell - buy - fee)],
          cash := b.cash + (sell - sellFee),
          exposure := b.exposure + (bar.End() - p.entered) * 60,
          position := None))
  }

  /** What managing an open position over one candle leads to. */
  datatype Managed = Going(book: Book) | Stuck(book: Book, reason: Reason)

  function Manage(r: Rules, bar: Candle, last: bool, b: Book): (m: Result<Managed>)
    ensures m.Ok? && m.value.Stuck? ==> b.position.Some? && m.value.book.position == b.position
  {
    if b.position.None? then Ok(Going(b))
    else
      var marked :- MarkDown(r, bar, b);
      var (reference, reason) := ExitReference(bar, b.position.value.entry, r, last);
      if reason.None? then Ok(Going(marked))
      else if !r.Liquid(bar.volume) then Ok(Stuck(marked, reason.value))
      else
        var sold :- Exit(r, bar, reference, reason.value, marked);
        Ok(Going(sold))
  }

  /** After the candle: raise the peak, and arm an order if the entry rule fires while flat. */
  function Finish(r: Rules, bar: Candle, last: bool, fires: bool, b: Book): Book {
    var equity := if b.position.None? then b.cash else b.cash + r.Worth(bar.close);
    b.(peak := Max(b.peak, equity),
       pending := if b.position.None? && !last && fires then Some(bar.End()) else b.pending)
  }

  /** The book once a pending order is filled or refused at the open. */
  function AtOpen(r: Rules, bar: Candle, last: bool, liquid: bool, b: Book): Result<Book> {
    if b.pending.Some? then Enter(r, bar, last, liquid, b) else Ok(b)
  }

  /** The book after a candle: managed, and closed unless the exit is stuck. */
  function Closed(r: Rules, bar: Candle, last: bool, fires: bool, m: Managed): Book {
    if m.Stuck? then m.book else Finish(r, bar, last, fires, m.book)
  }

  function Opening(r: Rules): Book {
    Book(r.settings.capital, r.settings.capital, 0.0, None, None, [], [], 0)
  }

  // ----- the causal executor -----

  datatype Run = Run(book: Book, unresolved: seq<Unresolved>, decisions: seq<EntryDecision>)

  /** Checks made when a session opens, which also starts flat and without an order. */
  function OpenSession(d: Definition, first: Candle, sessionEnd: int, run: Run): Result<Run> {
    if (sessionEnd - first.start) / FIVE > 288 then Err("SESSION_RESOURCE_LIMIT")
    else if d.identifier == S06 && (TimeOfDay(first.start) != 555 || sessionEnd - first.start < 4 * FIVE) then
      Err("OPENING_RANGE_REQUIRES_REGULAR_SESSION")
    else Ok(run.(book := run.book.(position := None, pending := None)))
  }

  /** Decide the pending order on the volume of the candle just completed. */
  function Decide(r: Rules, bar: Candle, last: bool, previous: Candle, run: Run): Result<Run>
    requires run.book.pending.Some?
  {
    var b :- Enter(r, bar, last, r.Liquid(previous.volume), run.book);
    Ok(run.(book := b,
            decisions := run.decisions + [EntryDecision(bar.start, previous.start, previous.volume,
                                                        r.settings.quantity, |b.noFills| == |run.book.noFills|)]))
  }

  function Decided(r: Rules, bar: Candle, last: bool, previous: Candle, run: Run): Result<Run> {
    if run.book.pending.Some? then Decide(r, bar, last, previous, run) else Ok(run)
  }

  function UnresolvedOf(r: Rules, bar: Candle, p: Position, reason: Reason): Unresolved {
    Unresolved(p.decided, p.entered, p.entry, r.settings.quantity, bar.End(), reason)
  }

  /** One candle of the causal executor, its session being open: decide a pending order, manage
      the position, and look for an entry while flat. */
  function CandleStep(r: Rules, d: Definition, bar: Candle, last: bool, previous: Candle,
                  history: seq<Candle>, run: Run): Result<Run>
  {
    var decided :- Decided(r, bar, last, previous, run);
    var managed :- Manage(r, bar, last, decided.book);
    match managed
    case Stuck(b, reason) =>
      Ok(decided.(book := b,
                  unresolved := decided.unresolved + [UnresolvedOf(r, bar, b.position.value, reason)]))
    case Going(b) =>
      Ok(decided.(book := Finish(r, bar, last, EntrySignal(history, d), b)))
  }

  /** One tick: open the session on its first candle, then run the candle. */
  function Step(r: Rules, d: Definition, ticks: seq<Tick>, n: nat, run: Run): Result<Run>
    requires n < |ticks|
  {
    var t := ticks[n];
    var ready :- if t.origin == n then OpenSession(d, t.bar, t.sessionEnd, run) else Ok(run);
    CandleStep(r, d, t.bar, t.Last(), if n > 0 then ticks[n - 1].bar else t.bar, History(ticks, n), ready)
  }

  /** The executor's state after the first n candles; an unresolved exit halts it for good. */
  function RunTo(r: Rules, d: Definition, ticks: seq<Tick>, n: nat): (result: Result<Run>)
    requires n <= |ticks|
  {
    if n == 0 then Ok(Run(Opening(r), [], []))
    else
      var before :- RunTo(r, d, ticks, n - 1);
      if before.unresolved != [] then Ok(before) else Step(r, d, ticks, n - 1, before)
  }

  // ----- the phase14 executor -----

  /** One candle of the phase14 executor: entry liquidity is the current candle's own volume. */
  function OldCandleStep(r: Rules, s: Strategy, bar: Candle, last: bool, closes: seq<real>, book: Book): Result<Book>
    requires s.Valid()
  {
    var decided :-
      if book.pending.Some? && book.position.None? then Enter(r, bar, last, r.Liquid(bar.volume), book) else Ok(book);
    var managed :- Manage(r, bar, last, decided);
    match managed
    case Stuck(_, _) => Err("EXIT_NO_FILL_UNVALUED_POSITION")
    case Going(b) => Ok(Finish(r, bar, last, Signal(closes, s.conditions), b))
  }

  function OldStep(r: Rules, s: Strategy, ticks: seq<Tick>, n: nat, book: Book): Result<Book>
    requires n < |ticks| && s.Valid()
  {
    var t := ticks[n];
    OldCandleStep(r, s, t.bar, t.Last(), Closes(History(ticks, n)),
              if t.origin == n then book.(position := None, pending := None) else book)
  }

  function OldRunTo(r: Rules, s: Strategy, ticks: seq<Tick>, n: nat): (result: Result<Book>)
    requires n <= |ticks| && s.Valid()
  {
    if n == 0 then Ok(Opening(r))
    else
      var before :- OldRunTo(r, s, ticks, n - 1);
      OldStep(r, s, ticks, n - 1, before)
  }

  // ----- acceptance and whole runs -----


  function AllTicks(series: PriceSeries): seq<Tick> {
    Ticks(series, |series.sessions|)
  }

  function ExecutionOf(r: Rules, run: Run): Execution
    requires 0.0 < r.settings.capital
  {
    Execution(run.unresolved, run.decisions, run.book.trades, MetricsOf(run.book.trades, r.settings.capital),
              run.book.noFills, run.book.exposure, run.book.drawdown)
  }

  function RulesOf(settings: Settings, costs: Schedule, stop: real, target: real): Rules {
    Rules(settings, costs, stop, target)
  }

  /** The causal executor as a function of its arguments. */
  function Executed(series: PriceSeries, d: Definition, settings: Settings, costs: Schedule): Result<Execution>
    requires series.Valid() && settings.Valid()
  {
    if Owed(series.sessions) != Starts(series.bars) || series.sessions == [] then Err("INCOMPLETE_OR_OUT_OF_SESSION_DATA")
    else if |series.bars| > 30000 then Err("SERIES_RESOURCE_LIMIT")
    else if !series.reviewed then Err("CORPORATE_ACTION_REVIEW_REQUIRED")
    else
      var r := RulesOf(settings, costs, d.stop, d.target);
      var ticks := AllTicks(series);
      var run :- RunTo(r, d, ticks, |ticks|);
      Ok(ExecutionOf(r, run))
  }

  /** The phase14 executor as a function of its arguments. */
  function Simulated(series: PriceSeries, s: Strategy, settings: Settings, costs: Schedule): Result<Simulation>
    requires series.Valid() && settings.Valid() && s.Valid()
  {
    if Owed(series.sessions) != Starts(series.bars) || series.sessions == [] then Err("INCOMPLETE_OR_OUT_OF_SESSION_DATA")
    else if !series.reviewed then Err("CORPORATE_ACTION_REVIEW_REQUIRED")
    else if !s.Permitted() then Err("UNCONFIRMED_OR_UNSUPPORTED_STRATEGY")
    else
      var r := RulesOf(settings, costs, s.stop, s.target);
      var ticks := AllTicks(series);
      var book :- OldRunTo(r, s, ticks, |ticks|);
      Ok(Simulation(book.trades, MetricsOf(book.trades, settings.capital), book.noFills, book.exposure, book.drawdown))
  }
}
