/** The loops of the executors over sessions and candles, which update local accounts, proved equal
    to the step functions. */
module ExecutorLoops {
  import opened Wrappers
  import opened Clock
  import opened RealFacts
  import opened Costs
  import opened Series
  import opened Strategies
  import opened Executor

  // ----- liquidity of the candle just completed -----

  function EndingAt(bars: seq<Candle>, at: int): Option<Candle> {
    if bars == [] then None
    else if bars[0].End() == at then Some(bars[0])
    else EndingAt(bars[1..], at)
  }

  function LiquidityBar(series: PriceSeries, at: int): Result<Candle> {
    if !(exists s :: s in series.sessions && s.start < at < s.end) then Err("CAUSAL_LIQUIDITY_SESSION")
    else
      var previous := EndingAt(series.bars, at);
      if previous.None? then Err("CAUSAL_LIQUIDITY_MISSING") else Ok(previous.value)
  }

  lemma {:induction false} EndingAtFinds(bars: seq<Candle>, b: Candle)
    requires b in bars
    requires Increasing(bars)
    ensures EndingAt(bars, b.End()) == Some(b)
  {
    if bars[0] != b {
      assert b in bars[1..];
      EndingAtFinds(bars[1..], b);
      var j :| 0 <= j < |bars| && bars[j] == b;
      assert bars[0].start < bars[j].start;
    }
  }

  /** Inside a session, the liquidity candle is the one just before. */
  lemma {:induction false} LiquidityIsPrevious(series: PriceSeries, k: nat, i: nat)
    requires Usable(series) && k < |series.sessions|
    requires 0 < i < series.sessions[k].Slots()
    ensures LiquidityBar(series, series.sessions[k].Slot(i)) == Ok(BarAt(series, series.sessions[k].Slot(i - 1)))
  {
    hide *;
    var s := series.sessions[k];
    UsableParts(series, k);
    SlotHasBar(series, k, i - 1);
    SlotInside(s, i);
    EndingAtFinds(series.bars, BarAt(series, s.Slot(i - 1)));
    LiquidityFound(series, s, BarAt(series, s.Slot(i - 1)), s.Slot(i));
  }

  lemma {:induction false} UsableParts(series: PriceSeries, k: nat)
    requires Usable(series) && k < |series.sessions|
    ensures Covered(series) && Increasing(series.bars) && series.sessions[k].Aligned()
  {
    hide Covered, Increasing, Sound;
  }

  lemma {:induction false} SlotInside(s: Session, i: nat)
    requires s.Aligned() && 0 < i < s.Slots()
    ensures s.start < s.Slot(i) < s.end && s.Slot(i) == s.Slot(i - 1) + FIVE
  {
  }

  lemma {:induction false} LiquidityFound(series: PriceSeries, s: Session, b: Candle, at: int)
    requires s in series.sessions && s.start < at < s.end && b.start + FIVE == at && EndingAt(series.bars, b.End()) == Some(b)
    ensures LiquidityBar(series, at) == Ok(b)
  {
    hide EndingAt;
  }

  // ----- a run's outcome is settled early by an error or an unresolved exit -----

  lemma {:induction false} Settled(r: Rules, d: Definition, ticks: seq<Tick>, n: nat, m: nat)
    requires n <= m <= |ticks|
    requires RunTo(r, d, ticks, n).Err? || RunTo(r, d, ticks, n).value.unresolved != []
    ensures RunTo(r, d, ticks, m) == RunTo(r, d, ticks, n)
  {
    hide Step;
    if n < m { Settled(r, d, ticks, n, m - 1); }
  }

  lemma {:induction false} OldSettled(r: Rules, s: Strategy, ticks: seq<Tick>, n: nat, m: nat)
    requires n <= m <= |ticks| && s.Valid()
    requires OldRunTo(r, s, ticks, n).Err?
    ensures OldRunTo(r, s, ticks, m) == OldRunTo(r, s, ticks, n)
  {
    hide OldStep;
    if n < m { OldSettled(r, s, ticks, n, m - 1); }
  }

  /** The history a candle loop accumulates is the session's run of candles. */
  lemma {:induction false} HistoryGrows(ticks: seq<Tick>, n: nat, history: seq<Candle>)
    requires n < |ticks| && ticks[n].origin <= n
    requires history == Bars(ticks[ticks[n].origin..n])
    ensures History(ticks, n) == history + [ticks[n].bar]
  {
    assert ticks[ticks[n].origin..n + 1] == ticks[ticks[n].origin..n] + [ticks[n]];
  }

  /** Session k's candles occupy the run from |Ticks(series, k)| on. */
  lemma {:induction false} SessionSpan(series: PriceSeries, k: nat)
    requires Usable(series) && k < |series.sessions|
    ensures series.sessions[k].Slots() > 0 && series.sessions[k].Slot(series.sessions[k].Slots()) == series.sessions[k].end
    ensures |Ticks(series, k + 1)| == |Ticks(series, k)| + series.sessions[k].Slots() <= |AllTicks(series)|
    ensures AllTicks(series)[|Ticks(series, k)|..|Ticks(series, k + 1)|] ==
            SessionTicks(series, series.sessions[k], |Ticks(series, k)|, series.sessions[k].Slots())
  {
    hide Sound, Increasing, SessionTicks;
    assert series.sessions[k].Aligned();
    TicksPrefix(series, k + 1, |series.sessions|);
    var before, all := Ticks(series, k), AllTicks(series);
    var mine := SessionTicks(series, series.sessions[k], |before|, series.sessions[k].Slots());
    assert Ticks(series, k + 1) == before + mine;
    assert all[..|before + mine|] == before + mine;
    assert all[|before|..|before + mine|] == (before + mine)[|before|..];
  }

  /** Where the i-th candle of session k stands in the whole run. */
  lemma {:induction false} TickAt(series: PriceSeries, k: nat, i: nat)
    requires Usable(series) && k < |series.sessions|
    requires i < series.sessions[k].Slots()
    ensures |Ticks(series, k)| + i < |Ticks(series, k + 1)| <= |AllTicks(series)|
    ensures AllTicks(series)[|Ticks(series, k)| + i] ==
            Tick(BarAt(series, series.sessions[k].Slot(i)), |Ticks(series, k)|, series.sessions[k].end)
  {
    hide Sound, Increasing, InOrder, Ticks;
    SessionSpan(series, k);
    var lo, hi := |Ticks(series, k)|, |Ticks(series, k + 1)|;
    assert AllTicks(series)[lo + i] == AllTicks(series)[lo..hi][i];
  }

  /** Fill the pending order at the open, or refuse it. */
  method FillOrRefuse(r: Rules, bar: Candle, last: bool, liquid: bool, book: Book) returns (out: Result<Book>)
    requires book.pending.Some?
    ensures out == Enter(r, bar, last, liquid, book)
  {
    var cash, position, noFills := book.cash, book.position, book.noFills;
    var entry := r.BuyPrice(bar.open);
    var value := r.Worth(entry);
    var quoted := Fee(r.costs, BUY, value, bar.start, None);
    if quoted.Err? { return Err(quoted.error); }
    var fee := quoted.value;
    if !r.settings.allowLong || last || !liquid
       || cash < value + fee || value * r.settings.priceBuffer > r.settings.orderCeiling
    {
      noFills := noFills + [bar.start];
    } else {
      position := Some(Position(book.pending.value, bar.start, entry, fee));
      cash := cash - (value + fee);
    }
    out := Ok(book.(cash := cash, position := position, noFills := noFills, pending := None));
  }

  /** The candle loop's first part: decide the pending order and keep its timing record. */
  method TryEntry(r: Rules, bar: Candle, last: bool, previous: Candle, run: Run) returns (out: Result<Run>)
    requires run.book.pending.Some?
    ensures out == Decide(r, bar, last, previous, run)
  {
    hide Enter;
    var book :- FillOrRefuse(r, bar, last, r.Liquid(previous.volume), run.book);
    var decision := EntryDecision(bar.start, previous.start, previous.volume, r.settings.quantity,
                                  |book.noFills| == |run.book.noFills|);
    out := Ok(run.(book := book, decisions := run.decisions + [decision]));
  }

  /** Its second part: mark the position, and sell it when a stop, a target or the session's end
      says so and the candle is liquid. */
  method ManagePosition(r: Rules, bar: Candle, last: bool, book: Book) returns (out: Result<Managed>)
    requires book.position.Some?
    ensures out == Manage(r, bar, last, book)
  {
    var cash, drawdown, trades, exposure := book.cash, book.drawdown, book.trades, book.exposure;
    var Position(decided, entered, entry, entryFee) := book.position.value;
    var mark := r.Worth(r.SalePrice(bar.low));
    var marked := Fee(r.costs, SELL, mark, bar.start, Some(r.Worth(entry)));
    if marked.Err? { return Err(marked.error); }
    var markFee := marked.value;
    drawdown := Max(drawdown, Ratio(book.peak - cash - mark + markFee, book.peak));
    var (reference, reason) := ExitReference(bar, entry, r, last);
    if reason.None? { return Ok(Going(book.(drawdown := drawdown))); }
    if !r.Liquid(bar.volume) { return Ok(Stuck(book.(drawdown := drawdown), reason.value)); }
    var exitPrice := r.SalePrice(reference);
    var buy, sell := r.Worth(entry), r.Worth(exitPrice);
    var quoted := Fee(r.costs, SELL, sell, bar.start, Some(buy));
    if quoted.Err? { return Err(quoted.error); }
    var sellFee := quoted.value;
    var fee := entryFee + sellFee;
    trades := trades + [Trade(decided, entered, bar.End(), entry, exitPrice, r.settings.quantity,
                              reason.value, sell - buy, fee, sell - buy - fee)];
    cash := cash + (sell - (fee - entryFee));
    exposure := exposure + (bar.End() - entered) * 60;
    out := Ok(Going(book.(cash := cash, drawdown := drawdown, trades := trades, exposure := exposure, position := None)));
  }

  /** The body of the candle loop. */
  method RunCandle(r: Rules, d: Definition, bar: Candle, last: bool, previous: Candle,
                   history: seq<Candle>, before: Run) returns (out: Result<Run>)
    ensures out == CandleStep(r, d, bar, last, previous, history, before)
  {
    var run := before;
    if run.book.pending.Some? {
      run :- TryEntry(r, bar, last, previous, run);
    }
    if run.book.position.Some? {
      var managed :- ManagePosition(r, bar, last, run.book);
      run := run.(book := managed.book);
      if managed.Stuck? {
        var p := managed.book.position.value;
        return Ok(run.(unresolved := run.unresolved +
          [Unresolved(p.decided, p.entered, p.entry, r.settings.quantity, bar.End(), managed.reason)]));
      }
    }
    var cash, position, pending := run.book.cash, run.book.position, run.book.pending;
    var peak := Max(run.book.peak, if position.None? then cash else cash + r.Worth(bar.close));
    if position.None? && !last && EntrySignal(history, d) {
      pending := Some(bar.End());
    }
    out := Ok(run.(book := run.book.(peak := peak, pending := pending)));
  }

  /** What one tick does, from the state its session's opening leaves. */
  lemma {:induction false} StepIs(r: Rules, d: Definition, ticks: seq<Tick>, n: nat, liquidity: Candle, before: Run, ready: Run)
    requires n < |ticks|
    requires RunTo(r, d, ticks, n) == Ok(before) && before.unresolved == []
    requires Ok(ready) == if ticks[n].origin == n then OpenSession(d, ticks[n].bar, ticks[n].sessionEnd, before) else Ok(before)
    requires ready.book.pending.Some? ==> n > 0 && liquidity == ticks[n - 1].bar
    ensures RunTo(r, d, ticks, n + 1) ==
            CandleStep(r, d, ticks[n].bar, ticks[n].Last(), liquidity, History(ticks, n), ready)
  {
    hide Manage, Finish, EntrySignal;
  }

  /** The candle loop of one session, from the state its opening leaves. */
  method RunSession(r: Rules, d: Definition, series: PriceSeries, k: nat, byStart: map<int, Candle>,
                    ready: Run, ghost before: Run, ghost ticks: seq<Tick>, ghost base: nat) returns (out: Result<Run>)
    requires Usable(series) && k < |series.sessions| && byStart == ByStart(series.bars)
    requires ticks == AllTicks(series) && base == |Ticks(series, k)|
    requires base + series.sessions[k].Slots() <= |ticks| && 0 < series.sessions[k].Slots()
    requires RunTo(r, d, ticks, base) == Ok(before) && before.unresolved == []
    requires Ok(ready) == OpenSession(d, ticks[base].bar, series.sessions[k].end, before)
    requires ready.book.pending.None? && ready.unresolved == []
    ensures out.Err? || out.value.unresolved != [] ==> RunTo(r, d, ticks, |ticks|) == out
    ensures out.Ok? && out.value.unresolved == [] ==> RunTo(r, d, ticks, base + series.sessions[k].Slots()) == out
  {
    hide Usable, CandleStep, RunTo, Ticks, AllTicks, EntrySignal, LiquidityBar, History, OpenSession, SessionTicks, ByStart;
    var session := series.sessions[k];
    var run := ready;
    var history: seq<Candle> := [];
    var at := session.start;
    ghost var i := 0;
    SessionSpan(series, k);
    while at < session.end
      invariant 0 <= i <= session.Slots() && at == session.Slot(i)
      invariant history == Bars(ticks[base..base + i])
      invariant run.unresolved == []
      invariant i == 0 ==> run == ready
      invariant i > 0 ==> RunTo(r, d, ticks, base + i) == Ok(run)
      decreases session.Slots() - i
    {
      NextCandle(series, k, i, ticks, base, history);
      var bar := byStart[at];
      var liquidity := bar;
      if run.book.pending.Some? {
        liquidity := LiquidityBar(series, at).value;
      }
      history := history + [bar];
      StepIs(r, d, ticks, base + i, liquidity, if i == 0 then before else run, run);
      var next := RunCandle(r, d, bar, bar.End() == session.end, liquidity, history, run);
      if next.Err? || next.value.unresolved != [] {
        Settled(r, d, ticks, base + i + 1, |ticks|);
        return next;
      }
      run := next.value;
      at, i := at + FIVE, i + 1;
    }
    out := Ok(run);
  }

  /** What the candle loop finds at its i-th candle. */
  lemma {:induction false} NextCandle(series: PriceSeries, k: nat, i: nat, ticks: seq<Tick>, base: nat, history: seq<Candle>)
    requires Usable(series) && k < |series.sessions| && i < series.sessions[k].Slots()
    requires ticks == AllTicks(series) && base == |Ticks(series, k)|
    requires base + series.sessions[k].Slots() <= |ticks|
    requires history == Bars(ticks[base..base + i])
    ensures
      var s := series.sessions[k];
      s.Slot(i) in ByStart(series.bars) &&
      ticks[base + i] == Tick(ByStart(series.bars)[s.Slot(i)], base, s.end) &&
      History(ticks, base + i) == history + [ticks[base + i].bar]
    ensures history + [ticks[base + i].bar] == Bars(ticks[base..base + i + 1])
    ensures i > 0 ==> LiquidityBar(series, series.sessions[k].Slot(i)) == Ok(ticks[base + i - 1].bar)
  {
    hide LiquidityBar, InOrder, Sound, Increasing, Ticks, AllTicks, SessionTicks, ByStart, History;
    TickAt(series, k, i);
    SlotHasBar(series, k, i);
    HistoryGrows(ticks, base + i, history);
    if i > 0 {
      LiquidityIsPrevious(series, k, i);
      TickAt(series, k, i - 1);
    }
  }

  lemma {:induction false} TicksEnds(series: PriceSeries)
    ensures Ticks(series, 0) == [] && AllTicks(series) == Ticks(series, |series.sessions|)
  {
  }

  lemma {:induction false} RunStarts(r: Rules, d: Definition, ticks: seq<Tick>)
    ensures RunTo(r, d, ticks, 0) == Ok(Run(Opening(r), [], []))
  {
  }

  lemma {:induction false} OpeningFails(r: Rules, d: Definition, ticks: seq<Tick>, n: nat, before: Run)
    requires n < |ticks| && ticks[n].origin == n
    requires RunTo(r, d, ticks, n) == Ok(before) && before.unresolved == []
    requires OpenSession(d, ticks[n].bar, ticks[n].sessionEnd, before).Err?
    ensures RunTo(r, d, ticks, n + 1) == Err(OpenSession(d, ticks[n].bar, ticks[n].sessionEnd, before).error)
  {
    hide CandleStep;
  }

  /** The causal executor. */
  method Execute(series: PriceSeries, d: Definition, settings: Settings, costs: Schedule)
    returns (result: Result<Execution>)
    requires series.Valid() && settings.Valid()
    ensures result == Executed(series, d, settings, costs)
  {
    var missing, unexpected := Quality(series);
    if missing != {} || unexpected != {} || series.sessions == [] {
      return Err("INCOMPLETE_OR_OUT_OF_SESSION_DATA");
    }
    if |series.bars| > 30000 { return Err("SERIES_RESOURCE_LIMIT"); }
    if !series.reviewed { return Err("CORPORATE_ACTION_REVIEW_REQUIRED"); }
    CompleteCovers(series);
    var ended := RunAllSessions(RulesOf(settings, costs, d.stop, d.target), d, series);
    var run :- ended;
    var m := ComputeMetrics(run.book.trades, settings.capital);
    result := Ok(Execution(run.unresolved, run.decisions, run.book.trades, m,
                           run.book.noFills, run.book.exposure, run.book.drawdown));
  }

  /** The session loop, which an unresolved exit ends. */
  method RunAllSessions(r: Rules, d: Definition, series: PriceSeries) returns (out: Result<Run>)
    requires Usable(series)
    ensures out == RunTo(r, d, AllTicks(series), |AllTicks(series)|)
  {
    hide InOrder, Sound, Increasing, CandleStep, EntrySignal, RunTo, Ticks, AllTicks, ByStart;
    TicksEnds(series);
    var run := Run(Opening(r), [], []);
    RunStarts(r, d, AllTicks(series));
    var byStart := ByStart(series.bars);
    ghost var ticks := AllTicks(series);
    var k := 0;
    while k < |series.sessions| && run.unresolved == []
      invariant 0 <= k <= |series.sessions|
      invariant |Ticks(series, k)| <= |ticks|
      invariant RunTo(r, d, ticks, if run.unresolved == [] then |Ticks(series, k)| else |ticks|) == Ok(run)
      decreases |series.sessions| - k
    {
      var session := series.sessions[k];
      SessionSpan(series, k);
      TickAt(series, k, 0);
      SlotHasBar(series, k, 0);
      if (session.end - session.start) / FIVE > 288 {
        OpeningFails(r, d, ticks, |Ticks(series, k)|, run);
        Settled(r, d, ticks, |Ticks(series, k)| + 1, |ticks|);
        return Err("SESSION_RESOURCE_LIMIT");
      }
      if d.identifier == S06 && (TimeOfDay(session.start) != 555 || session.end - session.start < 4 * FIVE) {
        OpeningFails(r, d, ticks, |Ticks(series, k)|, run);
        Settled(r, d, ticks, |Ticks(series, k)| + 1, |ticks|);
        return Err("OPENING_RANGE_REQUIRES_REGULAR_SESSION");
      }
      ghost var before := run;
      run := run.(book := run.book.(position := None, pending := None));
      var next := RunSession(r, d, series, k, byStart, run, before, ticks, |Ticks(series, k)|);
      if next.Err? { return next; }
      run := next.value;
      k := k + 1;
    }
    out := Ok(run);
  }

  // ----- the phase14 executor -----

  method OldRunCandle(r: Rules, s: Strategy, bar: Candle, last: bool, closes: seq<real>, before: Book) returns (out: Result<Book>)
    requires s.Valid()
    ensures out == OldCandleStep(r, s, bar, last, closes, before)
  {
    hide Signal, Enter;
    var book := before;
    if book.pending.Some? && book.position.None? {
      book :- FillOrRefuse(r, bar, last, r.Liquid(bar.volume), book);
    }
    if book.position.Some? {
      var managed :- ManagePosition(r, bar, last, book);
      if managed.Stuck? { return Err("EXIT_NO_FILL_UNVALUED_POSITION"); }
      book := managed.book;
    }
    var peak, pending := book.peak, book.pending;
    if book.position.None? {
      peak := Max(peak, book.cash);
    } else {
      peak := Max(peak, book.cash + r.Worth(bar.close));
    }
    if book.position.None? && !last && Signal(closes, s.conditions) {
      pending := Some(bar.End());
    }
    out := Ok(book.(peak := peak, pending := pending));
  }

  lemma {:induction false} OldStepIs(r: Rules, s: Strategy, ticks: seq<Tick>, n: nat, before: Book, ready: Book)
    requires n < |ticks| && s.Valid()
    requires OldRunTo(r, s, ticks, n) == Ok(before)
    requires ready == if ticks[n].origin == n then before.(position := None, pending := None) else before
    ensures OldRunTo(r, s, ticks, n + 1) ==
            OldCandleStep(r, s, ticks[n].bar, ticks[n].Last(), Closes(History(ticks, n)), ready)
  {
    hide OldCandleStep;
  }

  lemma {:induction false} ClosesGrow(history: seq<Candle>, bar: Candle)
    ensures Closes(history + [bar]) == Closes(history) + [bar.close]
  {
  }

  method OldRunSession(r: Rules, s: Strategy, series: PriceSeries, k: nat, byStart: map<int, Candle>,
                       ready: Book, ghost before: Book, ghost ticks: seq<Tick>, ghost base: nat) returns (out: Result<Book>)
    requires s.Valid() && Usable(series) && k < |series.sessions| && byStart == ByStart(series.bars)
    requires ticks == AllTicks(series) && base == |Ticks(series, k)|
    requires base + series.sessions[k].Slots() <= |ticks|
    requires OldRunTo(r, s, ticks, base) == Ok(before)
    requires ready == before.(position := None, pending := None)
    ensures out.Err? ==> OldRunTo(r, s, ticks, |ticks|) == out
    ensures out.Ok? ==> OldRunTo(r, s, ticks, base + series.sessions[k].Slots()) == out
  {
    hide Usable, OldCandleStep, OldRunTo, Ticks, AllTicks, LiquidityBar, History, SessionTicks, ByStart;
    var session := series.sessions[k];
    var book := ready;
    var closes: seq<real> := [];
    ghost var history: seq<Candle> := [];
    var at := session.start;
    ghost var i := 0;
    SessionSpan(series, k);
    while at < session.end
      invariant 0 <= i <= session.Slots() && at == session.Slot(i)
      invariant history == Bars(ticks[base..base + i]) && closes == Closes(history)
      invariant i == 0 ==> book == ready
      invariant i > 0 ==> OldRunTo(r, s, ticks, base + i) == Ok(book)
      decreases session.Slots() - i
    {
      NextCandle(series, k, i, ticks, base, history);
      var bar := byStart[at];
      ClosesGrow(history, bar);
      history := history + [bar];
      closes := closes + [bar.close];
      OldStepIs(r, s, ticks, base + i, if i == 0 then before else book, book);
      var next := OldRunCandle(r, s, bar, bar.End() == session.end, closes, book);
      if next.Err? {
        OldSettled(r, s, ticks, base + i + 1, |ticks|);
        return next;
      }
      book := next.value;
      at, i := at + FIVE, i + 1;
    }
    out := Ok(book);
  }

  method OldRunAllSessions(r: Rules, s: Strategy, series: PriceSeries) returns (out: Result<Book>)
    requires s.Valid() && Usable(series)
    ensures out == OldRunTo(r, s, AllTicks(series), |AllTicks(series)|)
  {
    hide InOrder, Sound, Increasing, OldCandleStep, OldStep, Ticks, AllTicks, ByStart;
    TicksEnds(series);
    var book := Opening(r);
    var byStart := ByStart(series.bars);
    ghost var ticks := AllTicks(series);
    for k := 0 to |series.sessions|
      invariant |Ticks(series, k)| <= |ticks|
      invariant OldRunTo(r, s, ticks, |Ticks(series, k)|) == Ok(book)
    {
      SessionSpan(series, k);
      ghost var before := book;
      book := book.(position := None, pending := None);
      var next := OldRunSession(r, s, series, k, byStart, book, before, ticks, |Ticks(series, k)|);
      if next.Err? { return next; }
      book := next.value;
    }
    out := Ok(book);
  }

  /** The phase14 executor. */
  method Simulate(series: PriceSeries, s: Strategy, settings: Settings, costs: Schedule) returns (result: Result<Simulation>)
    requires series.Valid() && settings.Valid() && s.Valid()
    ensures result == Simulated(series, s, settings, costs)
  {
    var missing, unexpected := Quality(series);
    if missing != {} || unexpected != {} || series.sessions == [] {
      return Err("INCOMPLETE_OR_OUT_OF_SESSION_DATA");
    }
    if !series.reviewed { return Err("CORPORATE_ACTION_REVIEW_REQUIRED"); }
    if !s.Permitted() { return Err("UNCONFIRMED_OR_UNSUPPORTED_STRATEGY"); }
    CompleteCovers(series);
    var book :- OldRunAllSessions(RulesOf(settings, costs, s.stop, s.target), s, series);
    var m := ComputeMetrics(book.trades, settings.capital);
    result := Ok(Simulation(book.trades, m, book.noFills, book.exposure, book.drawdown));
  }
}
