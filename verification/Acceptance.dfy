/** When the executors run to their end, and with which error they stop otherwise. */
module Acceptance {
  import opened Wrappers
  import opened Clock
  import opened RealFacts
  import opened Costs
  import opened Series
  import opened Strategies
  import opened Executor
  import Drawdown
  import ExecutionOrder
  import Refinement
  import EntryLaws

  predicate InForce(s: Schedule, at: int) { s.Effective(s.PricingDate(at)) }

  /** A session that opens at 9:15 and lasts at least twenty minutes. */
  predicate Regular(start: int, end: int) { TimeOfDay(start) == 9 * 60 + 15 && end - start >= 20 }

  // ----- prices -----

  lemma {:induction false} SalePositive(r: Rules, price: real)
    requires r.Valid() && 0.0 < price
    ensures 0.0 < r.Worth(r.SalePrice(price)) && 0.0 < r.Worth(price)
  {
    hide Schedule.Valid;
    MulPositive(price, 1.0 - r.Slip());
    MulPositive(r.SalePrice(price), r.Size());
    MulPositive(price, r.Size());
  }

  lemma {:induction false} PurchasePositive(r: Rules, price: real)
    requires r.Valid() && 0.0 < price
    ensures 0.0 < r.Worth(r.BuyPrice(price)) && 0.0 < r.BuyPrice(price)
  {
    hide Schedule.Valid;
    MulPositive(price, 1.0 + r.Slip());
    MulPositive(r.BuyPrice(price), r.Size());
  }

  lemma {:induction false} ReferencePositive(r: Rules, bar: Candle, entry: real, last: bool)
    requires r.Valid() && bar.Valid() && 0.0 < entry
    ensures 0.0 < ExitReference(bar, entry, r, last).0
  {
    hide Schedule.Valid;
    MulPositive(entry, 1.0 - r.stop);
    MulPositive(entry, 1.0 + r.target);
  }

  // ----- a candle under a tariff in force -----

  lemma {:induction false} EnterAnswers(r: Rules, bar: Candle, last: bool, liquid: bool, b: Book)
    requires r.Valid() && bar.Valid() && InForce(r.costs, bar.start) && b.pending.Some?
    ensures Enter(r, bar, last, liquid, b).Ok?
    ensures Enter(r, bar, last, liquid, b).value.position == b.position || Enter(r, bar, last, liquid, b).value.position.Some?
    ensures Enter(r, bar, last, liquid, b).value.position != b.position ==> 0.0 < Enter(r, bar, last, liquid, b).value.position.value.entry
  {
    PurchasePositive(r, bar.open);
    QuoteSucceedsExactlyWhenEffective(r.costs, BUY, r.Worth(r.BuyPrice(bar.open)), bar.start, 1.0);
    hide Fee, Rules.Worth, Rules.BuyPrice, Rules.Valid, Schedule.Effective;
  }

  lemma {:induction false} ManageAnswers(r: Rules, bar: Candle, last: bool, b: Book)
    requires r.Valid() && bar.Valid() && InForce(r.costs, bar.start) && (b.position.Some? ==> 0.0 < b.position.value.entry)
    ensures Manage(r, bar, last, b).Ok?
  {
    if b.position.Some? {
      var entry := b.position.value.entry;
      var (reference, reason) := ExitReference(bar, entry, r, last);
      SalePositive(r, bar.low);
      SalePositive(r, entry);
      ReferencePositive(r, bar, entry, last);
      SalePositive(r, reference);
      QuoteSucceedsExactlyWhenEffective(r.costs, SELL, r.Worth(r.SalePrice(bar.low)), bar.start, r.Worth(entry));
      QuoteSucceedsExactlyWhenEffective(r.costs, SELL, r.Worth(r.SalePrice(reference)), bar.start, r.Worth(entry));
      hide Fee, Rules.Worth, Rules.SalePrice, Rules.Valid, Schedule.Effective, ExitReference, Candle.Valid;
    }
  }

  lemma {:induction false} EntryPositive(r: Rules, b: Book)
    requires r.Valid() && 0.0 < r.settings.capital && Drawdown.Bounded(r, b) && b.position.Some?
    ensures 0.0 < b.position.value.entry && b.pending.None?
  {
    Drawdown.SeenEntryPositive(r, b);
  }

  lemma {:induction false} CandleAnswers(r: Rules, d: Definition, bar: Candle, last: bool, previous: Candle, history: seq<Candle>, run: Run)
    requires r.Valid() && bar.Valid() && InForce(r.costs, bar.start)
    requires run.book.position.Some? ==> 0.0 < run.book.position.value.entry
    ensures CandleStep(r, d, bar, last, previous, history, run).Ok?
  {
    if run.book.pending.Some? { EnterAnswers(r, bar, last, r.Liquid(previous.volume), run.book); }
    var decided := Decided(r, bar, last, previous, run);
    hide Enter, InForce, Rules.Valid, EntrySignal;
    ManageAnswers(r, bar, last, decided.value.book);
    hide Manage;
  }

  /** A candle stops a run only if it opens an irregular session for the opening-range rule. */
  lemma {:induction false} StepAnswers(r: Rules, d: Definition, ticks: seq<Tick>, n: nat, run: Run)
    requires r.Valid() && n < |ticks| && ticks[n].bar.Valid() && InForce(r.costs, ticks[n].bar.start)
    requires (ticks[n].sessionEnd - ticks[n].bar.start) / FIVE <= 288
    requires run.book.position.Some? ==> 0.0 < run.book.position.value.entry
    ensures
      var refused := ticks[n].origin == n && d.identifier == S06 && !Regular(ticks[n].bar.start, ticks[n].sessionEnd);
      && (refused ==> Step(r, d, ticks, n, run) == Err("OPENING_RANGE_REQUIRES_REGULAR_SESSION"))
      && (!refused ==> Step(r, d, ticks, n, run).Ok?)
  {
    var t := ticks[n];
    hide CandleStep, InForce, Rules.Valid, History, Candle.Valid;
    var ready := if t.origin == n then OpenSession(d, t.bar, t.sessionEnd, run) else Ok(run);
    if ready.Ok? { CandleAnswers(r, d, t.bar, t.Last(), if n > 0 then ticks[n - 1].bar else t.bar, History(ticks, n), ready.value); }
  }

  /** Every session that starts before candle n is regular. */
  ghost predicate RegularTo(ticks: seq<Tick>, n: nat)
    requires n <= |ticks|
  {
    forall m :: 0 <= m < n && ticks[m].origin == m ==> Regular(ticks[m].bar.start, ticks[m].sessionEnd)
  }

  ghost predicate Priced(costs: Schedule, ticks: seq<Tick>) {
    forall m :: 0 <= m < |ticks| ==> InForce(costs, ticks[m].bar.start) && (ticks[m].sessionEnd - ticks[m].bar.start) / FIVE <= 288
  }

  lemma {:induction false} RunAnswers(r: Rules, d: Definition, ticks: seq<Tick>, n: nat)
    requires r.Valid() && WellFormed(ticks) && n <= |ticks| && Priced(r.costs, ticks)
    ensures
      var run := RunTo(r, d, ticks, n);
      && (run.Err? ==> run == Err("OPENING_RANGE_REQUIRES_REGULAR_SESSION") && d.identifier == S06 && !RegularTo(ticks, n))
      && (run.Ok? && run.value.unresolved == [] && d.identifier == S06 ==> RegularTo(ticks, n))
  {
    hide *;
    if n == 0 {
      RunStarts(r, d, ticks);
    } else {
      RunAnswers(r, d, ticks, n - 1);
      RunGoesOn(r, d, ticks, n);
      if RunTo(r, d, ticks, n - 1).Ok? {
        var before := RunTo(r, d, ticks, n - 1).value;
        PricedAt(r.costs, ticks, n - 1);
        Drawdown.CapitalPositive(r);
        Drawdown.RunBounded(r, d, ticks, n - 1);
        if before.book.position.Some? { EntryPositive(r, before.book); }
        StepAnswers(r, d, ticks, n - 1, before);
        RegularNext(ticks, n);
      } else {
        RegularNext(ticks, n);
      }
    }
  }

  lemma {:induction false} RunStarts(r: Rules, d: Definition, ticks: seq<Tick>)
    ensures RunTo(r, d, ticks, 0).Ok? && RegularTo(ticks, 0)
  {
  }

  lemma {:induction false} RunGoesOn(r: Rules, d: Definition, ticks: seq<Tick>, n: nat)
    requires 0 < n <= |ticks|
    ensures
      var before := RunTo(r, d, ticks, n - 1);
      && (before.Err? ==> RunTo(r, d, ticks, n) == before)
      && (before.Ok? && before.value.unresolved != [] ==> RunTo(r, d, ticks, n) == before)
      && (before.Ok? && before.value.unresolved == [] ==> RunTo(r, d, ticks, n) == Step(r, d, ticks, n - 1, before.value))
  {
    hide Step;
  }

  lemma {:induction false} PricedAt(costs: Schedule, ticks: seq<Tick>, n: nat)
    requires n < |ticks| && WellFormed(ticks) && Priced(costs, ticks)
    ensures ticks[n].bar.Valid() && InForce(costs, ticks[n].bar.start) && (ticks[n].sessionEnd - ticks[n].bar.start) / FIVE <= 288
  {
    hide InForce;
  }

  lemma {:induction false} RegularNext(ticks: seq<Tick>, n: nat)
    requires 0 < n <= |ticks|
    ensures RegularTo(ticks, n) <==>
      RegularTo(ticks, n - 1) && (ticks[n - 1].origin == n - 1 ==> Regular(ticks[n - 1].bar.start, ticks[n - 1].sessionEnd))
  {
    hide Regular;
  }

  // ----- sessions and their candles -----

  /** The first candles are those of the sessions. */
  lemma {:induction false} SessionsStart(series: PriceSeries, k: nat)
    requires Covered(series) && InOrder(series.sessions) && k <= |series.sessions|
    ensures forall s :: s in series.sessions[..k] ==> exists m :: StartsAt(Ticks(series, k), m, s)
    ensures forall m :: 0 <= m < |Ticks(series, k)| && Ticks(series, k)[m].origin == m ==>
      exists s :: s in series.sessions[..k] && StartsAt(Ticks(series, k), m, s)
  {
    if k > 0 {
      var before, now, s := Ticks(series, k - 1), Ticks(series, k), series.sessions[k - 1];
      SessionsStart(series, k - 1);
      var mine := SessionTicks(series, s, |before|, s.Slots());
      assert now == before + mine;
      FirstSlot(series, k);
      assert series.sessions[..k] == series.sessions[..k - 1] + [s];
      hide Ticks, SessionTicks, InOrder, Covered;
      forall q | q in series.sessions[..k] ensures exists m :: StartsAt(now, m, q) {
        if q == s {
          assert StartsAt(now, |before|, s);
        } else {
          var m :| StartsAt(before, m, q);
          assert StartsAt(now, m, q);
        }
      }
      forall m | 0 <= m < |now| && now[m].origin == m ensures exists q :: q in series.sessions[..k] && StartsAt(now, m, q) {
        if m < |before| {
          assert before[m].origin == m;
          var q :| q in series.sessions[..k - 1] && StartsAt(before, m, q);
          assert StartsAt(now, m, q);
        } else {
          assert now[m] == mine[m - |before|] && now[m].origin == |before|;
          assert StartsAt(now, m, s);
        }
      }
    }
  }

  ghost predicate StartsAt(ticks: seq<Tick>, m: int, s: Session) {
    0 <= m < |ticks| && ticks[m].origin == m && ticks[m].bar.start == s.start && ticks[m].sessionEnd == s.end
  }

  lemma {:induction false} FirstSlot(series: PriceSeries, k: nat)
    requires Covered(series) && InOrder(series.sessions) && 0 < k <= |series.sessions|
    ensures
      var s := series.sessions[k - 1];
      s.Slots() > 0 && BarAt(series, s.Slot(0)).start == s.start
  {
    var s := series.sessions[k - 1];
    assert s.Aligned();
    SlotHasBar(series, k - 1, 0);
  }

  /** Every candle falls on its session's date. */
  lemma {:induction false} CandlesPriced(series: PriceSeries, costs: Schedule)
    requires series.Valid() && Complete(series)
    requires forall s :: s in series.sessions ==> InForce(costs, s.start)
    ensures Priced(costs, AllTicks(series))
  {
    CompleteCovers(series);
    Refinement.TicksInSessions(series, |series.sessions|);
    TicksWellFormed(series, |series.sessions|);
    var ticks := AllTicks(series);
    forall m | 0 <= m < |ticks| ensures InForce(costs, ticks[m].bar.start) && (ticks[m].sessionEnd - ticks[m].bar.start) / FIVE <= 288 {
      Refinement.SessionsAreShort(series, m);
      assert Refinement.InSomeSession(series, ticks[m]);
      var s :| s in series.sessions && s.start <= ticks[m].bar.start && ticks[m].sessionEnd == s.end;
      SameDay(s.start, ticks[m].bar.start, s.end);
    }
  }

  lemma {:induction false} SameDay(a: int, at: int, b: int)
    requires a <= at <= b && DateOf(a) == DateOf(b)
    ensures DateOf(at) == DateOf(a)
  {
  }

  // ----- results -----

  /** When the tariff is in force on every session's date, a complete, reviewed series of at most 30000 candles is executed to
      its end, or to an exit that cannot be filled; the one refusal left is that of the opening-range rule on a session that
      does not open at 9:15 or lasts less than twenty minutes, which such a session always meets unless an exit has halted the
      run before. */
  lemma {:induction false} RunsExactly(series: PriceSeries, d: Definition, settings: Settings, costs: Schedule)
    requires series.Valid() && settings.Valid() && costs.Valid() && d.Valid()
    requires Complete(series) && series.sessions != [] && |series.bars| <= 30000 && series.reviewed
    requires forall s :: s in series.sessions ==> InForce(costs, s.start)
    ensures
      var e := Executed(series, d, settings, costs);
      var regular := d.identifier == S06 ==> forall s :: s in series.sessions ==> Regular(s.start, s.end);
      && (regular ==> e.Ok?)
      && (e.Err? ==> e == Err("OPENING_RANGE_REQUIRES_REGULAR_SESSION"))
      && (e.Ok? && e.value.unresolved == [] ==> regular)
  {
    hide *;
    var r, ticks := RulesOf(settings, costs, d.stop, d.target), AllTicks(series);
    EntryLaws.DefinitionValid(d);
    EntryLaws.ValidRules(settings, costs, d.stop, d.target);
    ExecutionOrder.SeriesTicks(series);
    CandlesPriced(series, costs);
    SameCosts(settings, costs, d);
    RunAnswers(r, d, ticks, |ticks|);
    RegularSessions(series);
    ExecutedIs(series, d, settings, costs);
  }

  lemma {:induction false} SameCosts(settings: Settings, costs: Schedule, d: Definition)
    ensures RulesOf(settings, costs, d.stop, d.target).costs == costs
  {
  }

  lemma {:induction false} RegularSessions(series: PriceSeries)
    requires series.Valid() && Complete(series)
    ensures RegularTo(AllTicks(series), |AllTicks(series)|) <==> forall s :: s in series.sessions ==> Regular(s.start, s.end)
  {
    CompleteCovers(series);
    SessionsStart(series, |series.sessions|);
    assert series.sessions[..|series.sessions|] == series.sessions;
    hide Regular, Ticks, Covered;
    var ticks := AllTicks(series);
    if RegularTo(ticks, |ticks|) {
      forall s | s in series.sessions ensures Regular(s.start, s.end) {
        var m :| StartsAt(ticks, m, s);
      }
    }
    if forall s :: s in series.sessions ==> Regular(s.start, s.end) {
      forall m | 0 <= m < |ticks| && ticks[m].origin == m ensures Regular(ticks[m].bar.start, ticks[m].sessionEnd) {
        var s :| s in series.sessions[..|series.sessions|] && StartsAt(ticks, m, s);
      }
    }
  }

  lemma {:induction false} ExecutedIs(series: PriceSeries, d: Definition, settings: Settings, costs: Schedule)
    requires series.Valid() && settings.Valid() && Complete(series) && series.sessions != [] && |series.bars| <= 30000 && series.reviewed
    ensures
      var r, ticks := RulesOf(settings, costs, d.stop, d.target), AllTicks(series);
      var run, e := RunTo(r, d, ticks, |ticks|), Executed(series, d, settings, costs);
      && (run.Err? ==> e.Err? && e.error == run.error)
      && (run.Ok? ==> e.Ok? && e.value.unresolved == run.value.unresolved)
  {
    hide RunTo, Ticks, MetricsOf, PriceSeries.Valid, Starts, Owed;
  }
}
