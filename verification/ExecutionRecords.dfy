/** The rest of what an execution records: its decisions, its exposure, and which series it refuses. */
module ExecutionRecords {
  import opened Wrappers
  import opened Clock
  import opened Costs
  import opened Series
  import opened Strategies
  import opened Executor
  import opened TradeLaws
  import opened EntryLaws
  import ExecutionOrder

  // ----- exposure -----

  /** Seconds held, over the trades. */
  function SecondsOf(trades: seq<Trade>): int {
    if trades == [] then 0
    else SecondsOf(trades[..|trades| - 1]) + (trades[|trades| - 1].exitAt - trades[|trades| - 1].entryAt) * 60
  }

  lemma {:induction false} OneMore(trades: seq<Trade>, more: seq<Trade>)
    requires |more| == |trades| + 1 && more[..|trades|] == trades
    ensures SecondsOf(more) == SecondsOf(trades) + (more[|trades|].exitAt - more[|trades|].entryAt) * 60
  {
  }

  lemma {:induction false} ExitExposes(r: Rules, bar: Candle, reference: real, reason: Reason, b: Book)
    requires b.position.Some? && Exit(r, bar, reference, reason, b).Ok? && b.exposure == SecondsOf(b.trades)
    ensures Exit(r, bar, reference, reason, b).value.exposure == SecondsOf(Exit(r, bar, reference, reason, b).value.trades)
  {
    ExitTold(r, bar, reference, reason, b);
    ExitSeconds(r, bar, reference, reason, b);
    hide Exit, SecondsOf;
    OneMore(b.trades, Exit(r, bar, reference, reason, b).value.trades);
  }

  lemma {:induction false} ExitSeconds(r: Rules, bar: Candle, reference: real, reason: Reason, b: Book)
    requires b.position.Some? && Exit(r, bar, reference, reason, b).Ok?
    ensures Exit(r, bar, reference, reason, b).value.exposure == b.exposure + (bar.start + FIVE - b.position.value.entered) * 60
  {
    hide Fee;
  }

  /** A candle keeps the exposure that of the trades. */
  lemma {:induction false} CandleExposes(r: Rules, bar: Candle, last: bool, liquid: bool, b: Book)
    requires b.exposure == SecondsOf(b.trades) && AtOpen(r, bar, last, liquid, b).Ok?
    requires Manage(r, bar, last, AtOpen(r, bar, last, liquid, b).value).Ok?
    ensures
      var after := Manage(r, bar, last, AtOpen(r, bar, last, liquid, b).value).value.book;
      after.exposure == SecondsOf(after.trades)
  {
    EnterKeeps(r, bar, last, liquid, b);
    hide Enter, MarkDown, Exit, ExitReference, Rules.Liquid, SecondsOf;
    var entered := AtOpen(r, bar, last, liquid, b).value;
    if entered.position.Some? {
      MarkOnly(r, bar, entered);
      var marked := MarkDown(r, bar, entered).value;
      var (reference, reason) := ExitReference(bar, entered.position.value.entry, r, last);
      if reason.Some? && r.Liquid(bar.volume) { ExitExposes(r, bar, reference, reason.value, marked); }
    }
  }

  lemma {:induction false} EnterKeeps(r: Rules, bar: Candle, last: bool, liquid: bool, b: Book)
    requires AtOpen(r, bar, last, liquid, b).Ok?
    ensures AtOpen(r, bar, last, liquid, b).value.trades == b.trades && AtOpen(r, bar, last, liquid, b).value.exposure == b.exposure
  {
    hide Fee;
  }

  lemma {:induction false} FinishExposes(r: Rules, bar: Candle, last: bool, fires: bool, b: Book)
    ensures Finish(r, bar, last, fires, b).exposure == b.exposure && Finish(r, bar, last, fires, b).trades == b.trades
  {
  }

  lemma {:induction false} RunExposes(r: Rules, d: Definition, ticks: seq<Tick>, n: nat)
    requires WellFormed(ticks) && n <= |ticks| && RunTo(r, d, ticks, n).Ok?
    ensures RunTo(r, d, ticks, n).value.book.exposure == SecondsOf(RunTo(r, d, ticks, n).value.book.trades)
  {
    hide Step, SecondsOf;
    if n == 0 {
      NoSeconds();
    } else {
      RunExposes(r, d, ticks, n - 1);
      var before := RunTo(r, d, ticks, n - 1).value;
      if before.unresolved == [] {
        RunIsTold(r, d, ticks, n - 1);
        ReadyParts(r, ticks, n - 1, before.book);
        var entered, m := StepBooks(r, d, ticks, n - 1, before);
        CandleExposes(r, ticks[n - 1].bar, ticks[n - 1].Last(), FeedOf(r, d, ticks).liquid[n - 1], before.book);
        FinishExposes(r, ticks[n - 1].bar, ticks[n - 1].Last(), FeedOf(r, d, ticks).fires[n - 1], m.book);
        hide Manage, AtOpen, Finish, FeedOf;
      }
    }
  }

  lemma {:induction false} NoSeconds()
    ensures SecondsOf([]) == 0
  {
  }

  lemma {:induction false} OldRunExposes(r: Rules, s: Strategy, ticks: seq<Tick>, n: nat)
    requires s.Valid() && WellFormed(ticks) && n <= |ticks| && OldRunTo(r, s, ticks, n).Ok?
    ensures OldRunTo(r, s, ticks, n).value.exposure == SecondsOf(OldRunTo(r, s, ticks, n).value.trades)
  {
    hide OldStep, SecondsOf, Strategy.Valid;
    if n == 0 {
      NoSeconds();
    } else {
      OldRunExposes(r, s, ticks, n - 1);
      var before := OldRunTo(r, s, ticks, n - 1).value;
      OldRunIsTold(r, s, ticks, n - 1);
      ReadyParts(r, ticks, n - 1, before);
      var entered, m := OldStepBooks(r, s, ticks, n - 1, before);
      CandleExposes(r, ticks[n - 1].bar, ticks[n - 1].Last(), OldFeedOf(r, s, ticks).liquid[n - 1], before);
      FinishExposes(r, ticks[n - 1].bar, ticks[n - 1].Last(), OldFeedOf(r, s, ticks).fires[n - 1], m.book);
      hide Manage, AtOpen, Finish, OldFeedOf;
    }
  }

  /** Both executors report as exposure the seconds their trades were held. */
  lemma {:induction false} ExposureIsTimeHeld(series: PriceSeries, d: Definition, s: Strategy, settings: Settings, costs: Schedule)
    requires series.Valid() && settings.Valid() && s.Valid()
    ensures Executed(series, d, settings, costs).Ok? ==>
      Executed(series, d, settings, costs).value.exposure == SecondsOf(Executed(series, d, settings, costs).value.trades)
    ensures Simulated(series, s, settings, costs).Ok? ==>
      Simulated(series, s, settings, costs).value.exposure == SecondsOf(Simulated(series, s, settings, costs).value.trades)
  {
    hide RunTo, OldRunTo, Ticks, MetricsOf, SecondsOf, WellFormed;
    if Executed(series, d, settings, costs).Ok? {
      ExecutionOrder.SeriesTicks(series);
      RunExposes(RulesOf(settings, costs, d.stop, d.target), d, AllTicks(series), |AllTicks(series)|);
    }
    if Simulated(series, s, settings, costs).Ok? {
      ExecutionOrder.SeriesTicks(series);
      OldRunExposes(RulesOf(settings, costs, s.stop, s.target), s, AllTicks(series), |AllTicks(series)|);
    }
  }

  // ----- decisions -----

  /** The record of the decision on the order due at candle m: the candle before measures liquidity. */
  function DecisionAt(r: Rules, ticks: seq<Tick>, noFills: seq<int>, m: nat): EntryDecision
    requires 0 < m < |ticks|
  {
    EntryDecision(ticks[m].bar.start, ticks[m - 1].bar.start, ticks[m - 1].bar.volume, r.settings.quantity, ticks[m].bar.start !in noFills)
  }

  /** One decision for each candle at which an order is due, in order of time. */
  ghost predicate DecidedExactly(r: Rules, ticks: seq<Tick>, f: Feed, trades: seq<Trade>, open: Option<int>, noFills: seq<int>, ds: seq<EntryDecision>, n: nat)
    requires n <= |ticks| && f.For(ticks)
  {
    && (forall i, j :: 0 <= i < j < |ds| ==> ds[i].at < ds[j].at)
    && (forall x :: x in ds ==> DecidedOn(r, ticks, f, trades, open, noFills, x, n))
    && (forall m: nat :: 0 < m < n && Due(ticks, f, trades, open, m) ==> DecisionAt(r, ticks, noFills, m) in ds)
  }

  ghost predicate DecidedOn(r: Rules, ticks: seq<Tick>, f: Feed, trades: seq<Trade>, open: Option<int>, noFills: seq<int>, x: EntryDecision, n: nat)
    requires n <= |ticks| && f.For(ticks)
  {
    exists m: nat :: 0 < m < n && Due(ticks, f, trades, open, m) && x == DecisionAt(r, ticks, noFills, m)
  }

  /** What is due, and refused, before candle n does not change on it. */
  lemma {:induction false} DueStays(r: Rules, ticks: seq<Tick>, f: Feed, n: nat, m: nat, b: Book, after: Book)
    requires WellFormed(ticks) && 0 < m < n < |ticks| && f.For(ticks) && Past(ticks, n, b) && Changed(ticks[n].bar, b, after)
    ensures Due(ticks, f, after.trades, OpenAt(after), m) <==> Due(ticks, f, b.trades, OpenAt(b), m)
    ensures DecisionAt(r, ticks, after.noFills, m) == DecisionAt(r, ticks, b.noFills, m)
  {
    SameBefore(r, ticks, n, m, b, after);
    hide Busy, Entered, CashBy, Past, Changed;
  }

  lemma {:induction false} DecisionsStay(r: Rules, ticks: seq<Tick>, f: Feed, n: nat, b: Book, after: Book, ds: seq<EntryDecision>)
    requires WellFormed(ticks) && n < |ticks| && f.For(ticks) && Past(ticks, n, b) && Changed(ticks[n].bar, b, after)
    requires DecidedExactly(r, ticks, f, b.trades, OpenAt(b), b.noFills, ds, n)
    ensures forall x :: x in ds ==> DecidedOn(r, ticks, f, after.trades, OpenAt(after), after.noFills, x, n + 1) && x.at < ticks[n].bar.start
    ensures forall m: nat :: 0 < m < n && Due(ticks, f, after.trades, OpenAt(after), m) ==> DecisionAt(r, ticks, after.noFills, m) in ds
  {
    hide Due, Past, Changed, DecisionAt;
    forall x | x in ds ensures DecidedOn(r, ticks, f, after.trades, OpenAt(after), after.noFills, x, n + 1) && x.at < ticks[n].bar.start {
      assert DecidedOn(r, ticks, f, b.trades, OpenAt(b), b.noFills, x, n);
      var m: nat :| 0 < m < n && Due(ticks, f, b.trades, OpenAt(b), m) && x == DecisionAt(r, ticks, b.noFills, m);
      DueStays(r, ticks, f, n, m, b, after);
      EarlierTick(ticks, m, n);
      DecidedTime(r, ticks, b.noFills, m);
    }
    forall m: nat | 0 < m < n && Due(ticks, f, after.trades, OpenAt(after), m) ensures DecisionAt(r, ticks, after.noFills, m) in ds {
      DueStays(r, ticks, f, n, m, b, after);
    }
  }

  lemma {:induction false} DecidedTime(r: Rules, ticks: seq<Tick>, noFills: seq<int>, m: nat)
    requires 0 < m < |ticks|
    ensures DecisionAt(r, ticks, noFills, m).at == ticks[m].bar.start
  {
  }

  /** One candle: a decision exactly if an order waited. */
  lemma {:induction false} StepDecided(r: Rules, d: Definition, ticks: seq<Tick>, n: nat, run: Run)
    requires n < |ticks| && run.unresolved == [] && Step(r, d, ticks, n, run).Ok?
    requires ticks[n].origin == n ==> run.book.pending.None? && run.book.position.None?
    ensures
      var after, previous := Step(r, d, ticks, n, run).value, if n > 0 then ticks[n - 1].bar else ticks[n].bar;
      && (run.book.pending.None? ==> after.decisions == run.decisions && after.book.noFills == run.book.noFills)
      && (run.book.pending.Some? ==>
            after.decisions == run.decisions + [EntryDecision(ticks[n].bar.start, previous.start, previous.volume, r.settings.quantity,
                                                              |after.book.noFills| == |run.book.noFills|)])
  {
    hide Enter, EntrySignal, History, MarkDown, Exit, ExitReference, Rules.Liquid;
    var t := ticks[n];
    var previous := if n > 0 then ticks[n - 1].bar else t.bar;
    var decided := Decided(r, t.bar, t.Last(), previous, run).value;
    ManageChanges(r, t.bar, t.Last(), decided.book);
    var m := Manage(r, t.bar, t.Last(), decided.book).value;
    FinishRefuses(r, t.bar, t.Last(), EntrySignal(History(ticks, n), d), m.book);
    hide Manage, Finish;
  }

  lemma {:induction false} RunDecided(r: Rules, d: Definition, ticks: seq<Tick>, n: nat)
    requires r.Valid() && WellFormed(ticks) && n <= |ticks| && RunTo(r, d, ticks, n).Ok?
    ensures
      var run := RunTo(r, d, ticks, n).value;
      DecidedExactly(r, ticks, FeedOf(r, d, ticks), run.book.trades, OpenAt(run.book), run.book.noFills, run.decisions, n)
  {
    hide Step, DecidedExactly, Exact, WaitsExactly, FeedOf, Rules.Valid, RunTold;
    var f := FeedOf(r, d, ticks);
    if n == 0 {
      NothingDecided(r, ticks, f);
    } else {
      RunDecided(r, d, ticks, n - 1);
      RunExact(r, d, ticks, n - 1);
      var before := RunTo(r, d, ticks, n - 1).value;
      if before.unresolved == [] {
        RunIsTold(r, d, ticks, n - 1);
        NextDecided(r, d, ticks, n - 1, before);
      } else {
        HaltedDecided(r, ticks, f, n - 1, before);
      }
    }
  }

  lemma {:induction false} NothingDecided(r: Rules, ticks: seq<Tick>, f: Feed)
    requires f.For(ticks)
    ensures DecidedExactly(r, ticks, f, [], None, [], [], 0)
  {
  }

  lemma {:induction false} HaltedDecided(r: Rules, ticks: seq<Tick>, f: Feed, n: nat, run: Run)
    requires WellFormed(ticks) && n < |ticks| && f.For(ticks) && Exact(r, ticks, f, n, run.book) && run.book.position.Some?
    requires DecidedExactly(r, ticks, f, run.book.trades, OpenAt(run.book), run.book.noFills, run.decisions, n)
    ensures DecidedExactly(r, ticks, f, run.book.trades, OpenAt(run.book), run.book.noFills, run.decisions, n + 1)
  {
    NowBusy(r, ticks, n, run.book);
    hide Busy, Past, DecisionAt, EnteredExactly;
    forall x | x in run.decisions ensures DecidedOn(r, ticks, f, run.book.trades, OpenAt(run.book), run.book.noFills, x, n + 1) {
      assert DecidedOn(r, ticks, f, run.book.trades, OpenAt(run.book), run.book.noFills, x, n);
    }
  }

  lemma {:induction false} NextDecided(r: Rules, d: Definition, ticks: seq<Tick>, n: nat, run: Run)
    requires WellFormed(ticks) && n < |ticks| && RunTold(r, ticks, n, run) && run.unresolved == []
    requires Exact(r, ticks, FeedOf(r, d, ticks), n, run.book) && WaitsExactly(ticks, FeedOf(r, d, ticks), n, run.book)
    requires DecidedExactly(r, ticks, FeedOf(r, d, ticks), run.book.trades, OpenAt(run.book), run.book.noFills, run.decisions, n)
    requires Step(r, d, ticks, n, run).Ok?
    ensures
      var after := Step(r, d, ticks, n, run).value;
      DecidedExactly(r, ticks, FeedOf(r, d, ticks), after.book.trades, OpenAt(after.book), after.book.noFills, after.decisions, n + 1)
  {
    var f := FeedOf(r, d, ticks);
    ReadyParts(r, ticks, n, run.book);
    StepDecided(r, d, ticks, n, run);
    var entered, m := StepBooks(r, d, ticks, n, run);
    CandleChanges(r, ticks, f, n, run.book, entered, m);
    if m.Going? {
      FinishTold(r, ticks[n].bar, ticks[n].Last(), f.fires[n], m.book);
      FinishRefuses(r, ticks[n].bar, ticks[n].Last(), f.fires[n], m.book);
    }
    hide Step, FeedOf, CandleBooks, RunTold, WellFormed, Finish, Manage, EnteredExactly, Past, DecidedOn, Fills;
    var after := Step(r, d, ticks, n, run).value;
    ExactPast(r, ticks, f, n, run.book);
    SameChange(ticks[n].bar, run.book, m.book, after.book);
    DecisionsStay(r, ticks, f, n, run.book, after.book, run.decisions);
    NowDecided(r, ticks, f, n, run, after);
  }

  lemma {:induction false} ExactPast(r: Rules, ticks: seq<Tick>, f: Feed, n: nat, b: Book)
    requires n <= |ticks| && f.For(ticks) && Exact(r, ticks, f, n, b)
    ensures Past(ticks, n, b)
  {
  }

  lemma {:induction false} SameChange(bar: Candle, b: Book, m: Book, after: Book)
    requires Changed(bar, b, m) && after.trades == m.trades && after.position == m.position && after.noFills == m.noFills
    ensures Changed(bar, b, after)
  {
  }

  /** Candle n itself. */
  lemma {:induction false} NowDecided(r: Rules, ticks: seq<Tick>, f: Feed, n: nat, run: Run, after: Run)
    requires WellFormed(ticks) && n < |ticks| && f.For(ticks) && Past(ticks, n, run.book) && WaitsExactly(ticks, f, n, run.book)
    requires ticks[n].origin == n ==> run.book.pending.None?
    requires n > 0 && ticks[n].origin < n ==> !ticks[n - 1].Last()
    requires run.book.pending.Some? ==> run.book.position.None?
    requires Changed(ticks[n].bar, run.book, after.book)
    requires forall i, j :: 0 <= i < j < |run.decisions| ==> run.decisions[i].at < run.decisions[j].at
    requires forall x :: x in run.decisions ==>
      DecidedOn(r, ticks, f, after.book.trades, OpenAt(after.book), after.book.noFills, x, n + 1) && x.at < ticks[n].bar.start
    requires forall m: nat :: 0 < m < n && Due(ticks, f, after.book.trades, OpenAt(after.book), m) ==> DecisionAt(r, ticks, after.book.noFills, m) in run.decisions
    requires run.book.pending.None? ==> after.decisions == run.decisions
    requires run.book.pending.Some? ==>
      after.decisions == run.decisions + [EntryDecision(ticks[n].bar.start, ticks[if n > 0 then n - 1 else n].bar.start,
                                                        ticks[if n > 0 then n - 1 else n].bar.volume, r.settings.quantity,
                                                        |after.book.noFills| == |run.book.noFills|)]
    ensures DecidedExactly(r, ticks, f, after.book.trades, OpenAt(after.book), after.book.noFills, after.decisions, n + 1)
  {
    SameBefore(r, ticks, n, n, run.book, after.book);
    NowBusy(r, ticks, n, run.book);
    hide Busy, CashBy, Entered, Past, NetOf;
    if run.book.pending.Some? {
      Joins(ticks, n);
      assert Due(ticks, f, after.book.trades, OpenAt(after.book), n);
      var x := after.decisions[|run.decisions|];
      assert x == DecisionAt(r, ticks, after.book.noFills, n);
      assert DecidedOn(r, ticks, f, after.book.trades, OpenAt(after.book), after.book.noFills, x, n + 1);
    } else {
      assert n > 0 ==> !Due(ticks, f, after.book.trades, OpenAt(after.book), n);
    }
    hide Due, DecidedOn, Changed;
    forall y | y in after.decisions ensures DecidedOn(r, ticks, f, after.book.trades, OpenAt(after.book), after.book.noFills, y, n + 1) {
      if y !in run.decisions { assert y == after.decisions[|run.decisions|]; }
    }
  }

  /** The causal executor decides once for each candle at which an order is due, and records the candle before as its measure
      of liquidity, with its volume, and whether the order was filled. */
  lemma {:induction false} DecisionsAreExact(series: PriceSeries, d: Definition, settings: Settings, costs: Schedule)
    requires series.Valid() && settings.Valid() && costs.Valid() && d.Valid() && Executed(series, d, settings, costs).Ok?
    ensures
      var e, r, ticks := Executed(series, d, settings, costs).value, RulesOf(settings, costs, d.stop, d.target), AllTicks(series);
      DecidedExactly(r, ticks, FeedOf(r, d, ticks), e.trades, OpenOf(e.unresolved), e.noFills, e.decisions, |ticks|)
  {
    hide *;
    var r, ticks := RulesOf(settings, costs, d.stop, d.target), AllTicks(series);
    DefinitionValid(d);
    ValidRules(settings, costs, d.stop, d.target);
    ExecutionOrder.ExecutedOpens(series, d, settings, costs);
    ExecutionOrder.SeriesTicks(series);
    RunDecided(r, d, ticks, |ticks|);
    ExecutionOrder.RunOrderly(r, d, ticks, |ticks|);
    LastTick(series);
    EndOpen(r, d, ticks, RunTo(r, d, ticks, |ticks|).value);
    SameDecisions(r, RunTo(r, d, ticks, |ticks|).value);
  }

  lemma {:induction false} SameDecisions(r: Rules, run: Run)
    requires 0.0 < r.settings.capital
    ensures ExecutionOf(r, run).decisions == run.decisions
  {
    hide MetricsOf;
  }

  // ----- refusals -----

  /** Before any candle is met a series is refused for a missing or unexpected candle or no session at all, for more than
      30000 candles, or for unreviewed corporate actions, in this order. */
  lemma {:induction false} AdmissionRefusals(series: PriceSeries, d: Definition, settings: Settings, costs: Schedule)
    requires series.Valid() && settings.Valid()
    ensures
      var e := Executed(series, d, settings, costs);
      var whole := series.sessions != [] && (forall at :: at in Owed(series.sessions) <==> at in Starts(series.bars));
      && (!whole ==> e == Err("INCOMPLETE_OR_OUT_OF_SESSION_DATA"))
      && (whole && |series.bars| > 30000 ==> e == Err("SERIES_RESOURCE_LIMIT"))
      && (whole && |series.bars| <= 30000 && !series.reviewed ==> e == Err("CORPORATE_ACTION_REVIEW_REQUIRED"))
  {
    hide RunTo, Ticks, Owed, MetricsOf, PriceSeries.CalendarKnown;
    if series.sessions != [] && (forall at :: at in Owed(series.sessions) <==> at in Starts(series.bars)) {
      assert Owed(series.sessions) == Starts(series.bars);
    }
  }
}
