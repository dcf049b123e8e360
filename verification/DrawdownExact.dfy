/** For which tariffs the marked drawdown bounds the closed one in every run. */
module DrawdownExact {
  import opened Wrappers
  import opened RealFacts
  import opened Costs
  import opened Series
  import opened Strategies
  import opened Executor
  import opened Drawdown
  import ExecutionOrder

  /** A tariff under which sales pay for themselves, or under which no purchase is worth its cost. */
  predicate Mild(s: Schedule) {
    s.Slope() <= 1.0 && (s.sttRate == 0.0 || Prohibitive(s))
  }

  // ----- without transaction tax cash is never negative -----

  predicate PaysForItself(s: Schedule) { s.Slope() <= 1.0 && s.sttRate == 0.0 }

  lemma {:induction false} EnterPaid(r: Rules, bar: Candle, last: bool, liquid: bool, b: Book)
    requires b.pending.Some? && Enter(r, bar, last, liquid, b).Ok? && 0.0 <= b.cash
    ensures 0.0 <= Enter(r, bar, last, liquid, b).value.cash && Enter(r, bar, last, liquid, b).value.trades == b.trades
  {
    hide Fee;
  }

  lemma {:induction false} ManagePaid(r: Rules, bar: Candle, last: bool, b: Book)
    requires r.Valid() && PaysForItself(r.costs) && Manage(r, bar, last, b).Ok? && 0.0 <= b.cash
    ensures
      var after := Manage(r, bar, last, b).value.book;
      && 0.0 <= after.cash
      && (after.trades == b.trades || (|after.trades| == |b.trades| + 1 && after.trades[..|b.trades|] == b.trades && after.position.None?))
  {
    hide MarkDown, Exit, ExitReference, Schedule.Valid;
    if b.position.Some? && MarkDown(r, bar, b).Ok? {
      MarkKeeps(r, bar, b);
      var marked := MarkDown(r, bar, b).value;
      var (reference, reason) := ExitReference(bar, b.position.value.entry, r, last);
      if reason.Some? && r.Liquid(bar.volume) { ExitPaid(r, bar, reference, reason.value, marked); }
    }
  }

  lemma {:induction false} MarkKeeps(r: Rules, bar: Candle, b: Book)
    requires b.position.Some? && MarkDown(r, bar, b).Ok?
    ensures MarkDown(r, bar, b).value == b.(drawdown := MarkDown(r, bar, b).value.drawdown)
  {
    hide Fee;
  }

  lemma {:induction false} ExitPaid(r: Rules, bar: Candle, reference: real, reason: Reason, b: Book)
    requires r.Valid() && PaysForItself(r.costs) && b.position.Some? && Exit(r, bar, reference, reason, b).Ok? && 0.0 <= b.cash
    ensures
      var after := Exit(r, bar, reference, reason, b).value;
      0.0 <= after.cash && |after.trades| == |b.trades| + 1 && after.trades[..|b.trades|] == b.trades && after.position.None?
  {
    ExitAmounts(r, bar, reference, reason, b);
    var sell := r.Worth(r.SalePrice(reference));
    FeeOf(r.costs, SELL, sell, bar.start, Some(r.Worth(b.position.value.entry)));
    hide Exit, SellCost, Fee, Schedule.Slope;
    SalePaysForItself(r.costs, sell, r.Worth(b.position.value.entry));
  }

  /** What a step without tax keeps. */
  ghost predicate Solvent(r: Rules, b: Book) { 0.0 <= b.cash && NeverRuined(b.trades, r.settings.capital) }

  /** One more trade that leaves cash keeps closed equity from falling below zero. */
  lemma {:induction false} StillSolvent(r: Rules, b: Book, after: Book)
    requires Solvent(r, b) && Accounted(r, after) && 0.0 <= after.cash
    requires after.trades == b.trades || (|after.trades| == |b.trades| + 1 && after.trades[..|b.trades|] == b.trades && after.position.None?)
    ensures Solvent(r, after)
  {
    forall k | 0 <= k <= |after.trades| ensures 0.0 <= r.settings.capital + NetOf(after.trades[..k]) {
      if k == |after.trades| {
        assert after.trades[..k] == after.trades && b.trades[..|b.trades|] == b.trades;
      } else {
        assert after.trades[..k] == b.trades[..k];
      }
    }
  }

  // ----- under a prohibitive tariff the peak never rises -----

  /** Cash and twice what is held stay within the capital, which stays the peak. */
  ghost predicate Capped(r: Rules, b: Book) {
    && b.peak == r.settings.capital
    && b.cash + (if b.position.Some? then 2.0 * r.Worth(b.position.value.entry) else 0.0) <= r.settings.capital
    && (b.position.Some? ==> 0.0 < b.position.value.entry)
  }

  lemma {:induction false} EnterCapped(r: Rules, bar: Candle, last: bool, liquid: bool, b: Book)
    requires r.Valid() && bar.Valid() && Prohibitive(r.costs) && Capped(r, b) && b.position.None?
    requires b.pending.Some? && Enter(r, bar, last, liquid, b).Ok?
    ensures Capped(r, Enter(r, bar, last, liquid, b).value) && Enter(r, bar, last, liquid, b).value.pending.None?
  {
    var value := r.Worth(r.BuyPrice(bar.open));
    FeeOf(r.costs, BUY, value, bar.start, None);
    BuyPositive(r, bar.open);
    hide Fee, BuyCost, Schedule.Valid, Rules.BuyPrice, Rules.Worth;
    MulMono(1.0, r.settings.priceBuffer, value);
    Commute(value, r.settings.priceBuffer);
    if value <= MAX_ORDER { ProhibitiveThroughout(r.costs, value); }
  }

  lemma {:induction false} BuyPositive(r: Rules, open: real)
    requires r.Valid() && 0.0 < open
    ensures 0.0 < r.BuyPrice(open) && 0.0 < r.Worth(r.BuyPrice(open))
  {
    MulPositive(open, 1.0 + r.Slip());
    MulPositive(r.BuyPrice(open), r.Size());
  }

  /** No price up to the target is worth more than twice the entry. */
  lemma {:induction false} AtMostTwice(r: Rules, price: real, entry: real)
    requires r.Valid() && 0.0 < entry && price <= r.TargetPrice(entry)
    ensures r.Worth(price) <= 2.0 * r.Worth(entry)
  {
    MulMono(r.target, 1.0, entry);
    Commute(entry, r.target);
    assert r.TargetPrice(entry) == entry + entry * r.target;
    MulMono(price, 2.0 * entry, r.Size());
    Regroup(2.0, entry, r.Size());
  }

  lemma {:induction false} SaleAtMost(r: Rules, price: real)
    requires r.Valid() && 0.0 <= price
    ensures r.SalePrice(price) <= price
  {
    MulNonNegative(price, r.Slip());
  }

  /** Every exit price is at most the target. */
  lemma {:induction false} ExitWithin(r: Rules, bar: Candle, entry: real, last: bool)
    requires r.Valid() && bar.Valid() && 0.0 < entry
    ensures
      var (reference, reason) := ExitReference(bar, entry, r, last);
      && reference <= r.TargetPrice(entry) && 0.0 < reference
      && (reason.None? ==> bar.close <= r.TargetPrice(entry))
  {
    MulNonNegative(entry, r.target);
    MulPositive(entry, 1.0 - r.stop);
    MulNonNegative(entry, r.stop);
    MulPositive(entry, 1.0 + r.target);
  }

  lemma {:induction false} ManageCapped(r: Rules, bar: Candle, last: bool, b: Book)
    requires r.Valid() && bar.Valid() && Capped(r, b) && Manage(r, bar, last, b).Ok?
    ensures
      var m := Manage(r, bar, last, b).value;
      && Capped(r, m.book) && m.book.pending == b.pending
      && (m.Going? && m.book.position.Some? ==> r.Worth(bar.close) <= 2.0 * r.Worth(m.book.position.value.entry))
  {
    hide MarkDown, Exit, ExitReference, Schedule.Valid, Rules.TargetPrice, Rules.Worth;
    if b.position.Some? && MarkDown(r, bar, b).Ok? {
      MarkKeeps(r, bar, b);
      var marked, entry := MarkDown(r, bar, b).value, b.position.value.entry;
      var (reference, reason) := ExitReference(bar, entry, r, last);
      ExitWithin(r, bar, entry, last);
      if reason.None? {
        AtMostTwice(r, bar.close, entry);
      } else if r.Liquid(bar.volume) {
        ExitCapped(r, bar, reference, reason.value, marked);
      }
    }
  }

  lemma {:induction false} ExitCapped(r: Rules, bar: Candle, reference: real, reason: Reason, b: Book)
    requires r.Valid() && Capped(r, b) && b.position.Some? && Exit(r, bar, reference, reason, b).Ok?
    requires 0.0 < reference <= r.TargetPrice(b.position.value.entry)
    ensures Capped(r, Exit(r, bar, reference, reason, b).value) && Exit(r, bar, reference, reason, b).value.pending == b.pending
    ensures Exit(r, bar, reference, reason, b).value.position.None?
  {
    var entry, sell := b.position.value.entry, r.Worth(r.SalePrice(reference));
    ExitAmounts(r, bar, reference, reason, b);
    FeeOf(r.costs, SELL, sell, bar.start, Some(r.Worth(entry)));
    CostsGrow(r.costs, sell, sell, r.Worth(entry), r.Worth(entry));
    SaleAtMost(r, reference);
    AtMostTwice(r, r.SalePrice(reference), entry);
    hide Exit, SellCost, BuyCost, Fee, Schedule.Valid, Rules.Worth, Rules.SalePrice, Rules.TargetPrice;
  }

  lemma {:induction false} FinishCapped(r: Rules, bar: Candle, last: bool, fires: bool, b: Book)
    requires Capped(r, b)
    requires b.position.Some? ==> r.Worth(bar.close) <= 2.0 * r.Worth(b.position.value.entry)
    ensures Capped(r, Finish(r, bar, last, fires, b))
  {
    hide Rules.Worth;
  }

  // ----- both kept by whole runs -----

  ghost predicate Kept(r: Rules, b: Book) {
    (PaysForItself(r.costs) ==> Solvent(r, b)) && (Prohibitive(r.costs) ==> Capped(r, b))
  }

  lemma {:induction false} CandleKept(r: Rules, bar: Candle, last: bool, liquid: bool, fires: bool, b: Book)
    requires r.Valid() && bar.Valid() && Kept(r, b) && (b.pending.Some? ==> b.position.None?)
    requires AtOpen(r, bar, last, liquid, b).Ok? && Manage(r, bar, last, AtOpen(r, bar, last, liquid, b).value).Ok?
    requires Accounted(r, Closed(r, bar, last, fires, Manage(r, bar, last, AtOpen(r, bar, last, liquid, b).value).value))
    ensures Kept(r, Closed(r, bar, last, fires, Manage(r, bar, last, AtOpen(r, bar, last, liquid, b).value).value))
  {
    var entered := AtOpen(r, bar, last, liquid, b).value;
    var m := Manage(r, bar, last, entered).value;
    var after := Closed(r, bar, last, fires, m);
    if PaysForItself(r.costs) {
      CandleSolvent(r, bar, last, liquid, fires, b);
    }
    if Prohibitive(r.costs) {
      CandleCapped(r, bar, last, liquid, fires, b);
    }
    hide *;
  }

  lemma {:induction false} CandleSolvent(r: Rules, bar: Candle, last: bool, liquid: bool, fires: bool, b: Book)
    requires r.Valid() && PaysForItself(r.costs) && Solvent(r, b)
    requires AtOpen(r, bar, last, liquid, b).Ok? && Manage(r, bar, last, AtOpen(r, bar, last, liquid, b).value).Ok?
    requires Accounted(r, Closed(r, bar, last, fires, Manage(r, bar, last, AtOpen(r, bar, last, liquid, b).value).value))
    ensures Solvent(r, Closed(r, bar, last, fires, Manage(r, bar, last, AtOpen(r, bar, last, liquid, b).value).value))
  {
    hide Enter, Manage, NeverRuined, Accounted, Rules.Valid, PaysForItself;
    var entered := AtOpen(r, bar, last, liquid, b).value;
    if b.pending.Some? { EnterPaid(r, bar, last, liquid, b); }
    ManagePaid(r, bar, last, entered);
    StillSolvent(r, b, Closed(r, bar, last, fires, Manage(r, bar, last, entered).value));
  }

  lemma {:induction false} CandleCapped(r: Rules, bar: Candle, last: bool, liquid: bool, fires: bool, b: Book)
    requires r.Valid() && bar.Valid() && Prohibitive(r.costs) && Capped(r, b) && (b.pending.Some? ==> b.position.None?)
    requires AtOpen(r, bar, last, liquid, b).Ok? && Manage(r, bar, last, AtOpen(r, bar, last, liquid, b).value).Ok?
    ensures Capped(r, Closed(r, bar, last, fires, Manage(r, bar, last, AtOpen(r, bar, last, liquid, b).value).value))
  {
    hide Enter, Manage, Finish, Capped, Rules.Valid, Prohibitive, Candle.Valid;
    var entered := AtOpen(r, bar, last, liquid, b).value;
    if b.pending.Some? { EnterCapped(r, bar, last, liquid, b); }
    ManageCapped(r, bar, last, entered);
    var m := Manage(r, bar, last, entered).value;
    if m.Going? { FinishCapped(r, bar, last, fires, m.book); }
  }

  /** Opening a session flat keeps everything. */
  lemma {:induction false} FlattenKept(r: Rules, b: Book)
    requires r.Valid() && Kept(r, b)
    ensures Kept(r, b.(position := None, pending := None))
  {
    hide Schedule.Valid, NeverRuined, Prohibitive, PaysForItself;
    if Prohibitive(r.costs) && b.position.Some? { MulPositive(b.position.value.entry, r.Size()); }
  }

  lemma {:induction false} OpeningKept(r: Rules)
    requires r.Valid()
    ensures Kept(r, Opening(r))
  {
    assert forall k :: 0 <= k <= 0 ==> Opening(r).trades[..k] == [];
    hide Prohibitive, PaysForItself;
  }

  lemma {:induction false} StepKept(r: Rules, d: Definition, ticks: seq<Tick>, n: nat, run: Run)
    requires r.Valid() && n < |ticks| && ticks[n].bar.Valid() && Step(r, d, ticks, n, run).Ok?
    requires Kept(r, run.book) && (run.book.pending.Some? ==> run.book.position.None?)
    requires Accounted(r, Step(r, d, ticks, n, run).value.book)
    ensures Kept(r, Step(r, d, ticks, n, run).value.book)
  {
    hide Enter, Manage, Finish, EntrySignal, History, Accounted, Kept, Rules.Valid, Candle.Valid;
    var t := ticks[n];
    var book := if t.origin == n then run.book.(position := None, pending := None) else run.book;
    FlattenKept(r, run.book);
    var liquid := r.Liquid((if n > 0 then ticks[n - 1].bar else t.bar).volume);
    CandleKept(r, t.bar, t.Last(), liquid, EntrySignal(History(ticks, n), d), book);
  }

  lemma {:induction false} OldStepKept(r: Rules, s: Strategy, ticks: seq<Tick>, n: nat, b: Book)
    requires r.Valid() && s.Valid() && n < |ticks| && ticks[n].bar.Valid() && OldStep(r, s, ticks, n, b).Ok?
    requires Kept(r, b) && (b.pending.Some? ==> b.position.None?)
    requires Accounted(r, OldStep(r, s, ticks, n, b).value)
    ensures Kept(r, OldStep(r, s, ticks, n, b).value)
  {
    hide Enter, Manage, Finish, Signal, History, Closes, Accounted, Kept, Rules.Valid, Candle.Valid;
    var t := ticks[n];
    var book := if t.origin == n then b.(position := None, pending := None) else b;
    FlattenKept(r, b);
    CandleKept(r, t.bar, t.Last(), r.Liquid(t.bar.volume), Signal(Closes(History(ticks, n)), s.conditions), book);
  }

  lemma {:induction false} BoundedParts(r: Rules, b: Book)
    requires 0.0 < r.settings.capital && Bounded(r, b)
    ensures Accounted(r, b) && (b.pending.Some? ==> b.position.None?)
    ensures Sheltered(r, b) ==> ClosedDrawdown(b.trades, r.settings.capital) <= b.drawdown
  {
    hide Accounted, Sheltered, ClosedDrawdown, ClosedPeak;
  }

  lemma {:induction false} RunKept(r: Rules, d: Definition, ticks: seq<Tick>, n: nat)
    requires r.Valid() && WellFormed(ticks) && n <= |ticks| && RunTo(r, d, ticks, n).Ok?
    ensures Kept(r, RunTo(r, d, ticks, n).value.book)
  {
    hide Step, Kept, Bounded, Accounted;
    CapitalPositive(r);
    if n == 0 {
      OpeningKept(r);
    } else {
      RunKept(r, d, ticks, n - 1);
      RunBounded(r, d, ticks, n - 1);
      RunBounded(r, d, ticks, n);
      var before := RunTo(r, d, ticks, n - 1).value;
      BoundedParts(r, before.book);
      BoundedParts(r, RunTo(r, d, ticks, n).value.book);
      if before.unresolved == [] { StepKept(r, d, ticks, n - 1, before); }
    }
  }

  lemma {:induction false} OldRunKept(r: Rules, s: Strategy, ticks: seq<Tick>, n: nat)
    requires r.Valid() && s.Valid() && WellFormed(ticks) && n <= |ticks| && OldRunTo(r, s, ticks, n).Ok?
    ensures Kept(r, OldRunTo(r, s, ticks, n).value)
  {
    hide OldStep, Kept, Bounded, Accounted, Strategy.Valid;
    CapitalPositive(r);
    if n == 0 {
      OpeningKept(r);
    } else {
      OldRunKept(r, s, ticks, n - 1);
      OldRunBounded(r, s, ticks, n - 1);
      OldRunBounded(r, s, ticks, n);
      BoundedParts(r, OldRunTo(r, s, ticks, n - 1).value);
      BoundedParts(r, OldRunTo(r, s, ticks, n).value);
      OldStepKept(r, s, ticks, n - 1, OldRunTo(r, s, ticks, n - 1).value);
    }
  }

  /** What a mild tariff keeps shelters every book. */
  lemma {:induction false} MildShelters(r: Rules, b: Book)
    requires Mild(r.costs) && Kept(r, b)
    ensures Sheltered(r, b)
  {
    hide Prohibitive, NeverRuined, Schedule.Slope;
  }

  // ----- the bound, from the tariff alone -----

  /** The reported marked drawdown is never below the drawdown of the closed trades. */
  ghost predicate MarkedBounds(series: PriceSeries, d: Definition, settings: Settings, costs: Schedule) {
    series.Valid() && settings.Valid() && d.Valid() && Executed(series, d, settings, costs).Ok? ==>
      Executed(series, d, settings, costs).value.metrics.drawdown <= Executed(series, d, settings, costs).value.drawdown
  }

  ghost predicate OldMarkedBounds(series: PriceSeries, s: Strategy, settings: Settings, costs: Schedule) {
    series.Valid() && settings.Valid() && s.Valid() && Simulated(series, s, settings, costs).Ok? ==>
      Simulated(series, s, settings, costs).value.metrics.drawdown <= Simulated(series, s, settings, costs).value.drawdown
  }

  /** Under a mild tariff every run of the causal executor keeps the bound. */
  lemma {:induction false} MildTariffBounds(series: PriceSeries, d: Definition, settings: Settings, costs: Schedule)
    requires costs.Valid() && Mild(costs)
    ensures MarkedBounds(series, d, settings, costs)
  {
    hide RunTo, Ticks, Mild, Kept, Bounded, Sheltered, ClosedDrawdown, PriceSeries.Valid, WellFormed;
    if series.Valid() && settings.Valid() && d.Valid() && Executed(series, d, settings, costs).Ok? {
      var r, ticks := RulesOf(settings, costs, d.stop, d.target), AllTicks(series);
      ExecutionOrder.SeriesTicks(series);
      RunBounded(r, d, ticks, |ticks|);
      RunKept(r, d, ticks, |ticks|);
      BoundedParts(r, RunTo(r, d, ticks, |ticks|).value.book);
      MildShelters(r, RunTo(r, d, ticks, |ticks|).value.book);
    }
  }

  /** And every run of the phase14 executor. */
  lemma {:induction false} OldMildTariffBounds(series: PriceSeries, s: Strategy, settings: Settings, costs: Schedule)
    requires costs.Valid() && Mild(costs)
    ensures OldMarkedBounds(series, s, settings, costs)
  {
    hide OldRunTo, Ticks, Mild, Kept, Bounded, Sheltered, ClosedDrawdown, PriceSeries.Valid, WellFormed;
    if series.Valid() && settings.Valid() && s.Valid() && Simulated(series, s, settings, costs).Ok? {
      var r, ticks := RulesOf(settings, costs, s.stop, s.target), AllTicks(series);
      ExecutionOrder.SeriesTicks(series);
      OldRunBounded(r, s, ticks, |ticks|);
      OldRunKept(r, s, ticks, |ticks|);
      BoundedParts(r, OldRunTo(r, s, ticks, |ticks|).value);
      MildShelters(r, OldRunTo(r, s, ticks, |ticks|).value);
    }
  }
}
