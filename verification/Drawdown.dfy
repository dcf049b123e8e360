/** The marked drawdown both executors report bounds the drawdown of their closed trades. */
module Drawdown {
  import opened Wrappers
  import opened RealFacts
  import opened Costs
  import opened Series
  import opened Strategies
  import opened Executor
  import ExecutionOrder

  /** Cash is the capital plus the net of the closed trades, less what an open position cost. */
  ghost predicate Accounted(r: Rules, b: Book) {
    b.cash == r.settings.capital + NetOf(b.trades) -
              (if b.position.Some? then r.Worth(b.position.value.entry) + b.position.value.fee else 0.0)
  }

  /** Closed equity never fell below zero. */
  ghost predicate NeverRuined(trades: seq<Trade>, capital: real) {
    forall k :: 0 <= k <= |trades| ==> 0.0 <= capital + NetOf(trades[..k])
  }

  /** The case in which the closed drawdown must stay within the marked one: proceeds of a sale
      grow with its price, and closed equity never fell below zero or the peak never rose. */
  ghost predicate Sheltered(r: Rules, b: Book) {
    r.costs.Slope() <= 1.0 && (NeverRuined(b.trades, r.settings.capital) || b.peak == r.settings.capital)
  }

  /** What selling at a mark would leave. */
  function Liquidated(r: Rules, b: Book, mark: real): real
    requires b.position.Some?
  {
    b.cash + mark - SellCost(r.costs, mark, r.Worth(b.position.value.entry))
  }

  /** A mark, no higher than a sale at the entry price, that the drawdown has taken into account
      at a peak no lower than any closed one. */
  ghost predicate MarkSeen(r: Rules, b: Book, peak: real, mark: real) {
    && b.position.Some?
    && 0.0 < mark <= r.Worth(r.SalePrice(b.position.value.entry))
    && ClosedPeak(b.trades, r.settings.capital) <= peak <= b.peak
    && Ratio(peak - Liquidated(r, b, mark), peak) <= b.drawdown
  }

  /** What every book keeps. */
  ghost predicate Bounded(r: Rules, b: Book)
    requires 0.0 < r.settings.capital
  {
    && Accounted(r, b)
    && ClosedPeak(b.trades, r.settings.capital) <= b.peak
    && 0.0 <= b.drawdown
    && (Sheltered(r, b) ==> ClosedDrawdown(b.trades, r.settings.capital) <= b.drawdown)
    && (b.position.Some? ==> exists peak, mark :: MarkSeen(r, b, peak, mark))
    && (b.pending.Some? ==> b.position.None?)
  }

  // ----- prices -----

  lemma {:induction false} PriceOrder(r: Rules, low: real, high: real)
    requires r.Valid() && low <= high
    ensures r.SalePrice(low) <= r.SalePrice(high)
    ensures r.Worth(low) <= r.Worth(high)
    ensures r.Worth(r.SalePrice(low)) <= r.Worth(r.SalePrice(high))
    ensures 0.0 <= low ==> low <= r.BuyPrice(low)
    ensures 0.0 <= low ==> low <= r.TargetPrice(low)
  {
    MulMono(low, high, 1.0 - r.Slip());
    MulMono(low, high, r.Size());
    MulMono(r.SalePrice(low), r.SalePrice(high), r.Size());
    if 0.0 <= low {
      MulNonNegative(low, r.Slip());
      MulNonNegative(low, r.target);
    }
  }

  /** Whatever the exit, the candle traded at its price, or gapped above the target, which is then less than
      the market gave. A stop loses on the entry price and a target gains. */
  lemma {:induction false} ExitAttainable(r: Rules, bar: Candle, entry: real, last: bool)
    requires r.Valid() && bar.Valid() && 0.0 < entry
    requires ExitReference(bar, entry, r, last).1.Some?
    ensures
      var (reference, reason) := ExitReference(bar, entry, r, last);
      && reference <= bar.high
      && (bar.low <= reference || (reason == Some(TARGET) && bar.open > reference))
      && (reason == Some(STOP) ==> reference < entry)
      && (reason == Some(TARGET) ==> entry < reference)
  {
    MulPositive(entry, r.stop);
    MulPositive(entry, r.target);
  }

  // ----- steps -----

  lemma {:induction false} EnterBounded(r: Rules, bar: Candle, last: bool, liquid: bool, b: Book)
    requires r.Valid() && bar.Valid() && Bounded(r, b) && b.pending.Some?
    requires Enter(r, bar, last, liquid, b).Ok?
    ensures
      var after := Enter(r, bar, last, liquid, b).value;
      && Accounted(r, after) && after.trades == b.trades && after.peak == b.peak && after.drawdown == b.drawdown
      && after.pending.None?
      && (after.position.Some? ==> after.position.value.entry == r.BuyPrice(bar.open))
  {
    hide Fee, ClosedDrawdown, ClosedPeak, NetOf;
  }

  /** After the candle's mark, some mark no higher than the entry price has been seen. */
  lemma {:induction false} MarkDownSeen(r: Rules, bar: Candle, b: Book)
    requires r.Valid() && bar.Valid() && b.position.Some? && MarkDown(r, bar, b).Ok?
    requires 0.0 < b.peak && ClosedPeak(b.trades, r.settings.capital) <= b.peak
    requires (exists peak, mark :: MarkSeen(r, b, peak, mark)) || b.position.value.entry == r.BuyPrice(bar.open)
    ensures exists peak, mark :: MarkSeen(r, MarkDown(r, bar, b).value, peak, mark)
    ensures
      var mark, after := r.Worth(r.SalePrice(bar.low)), MarkDown(r, bar, b).value;
      0.0 < mark && Ratio(b.peak - Liquidated(r, b, mark), b.peak) <= after.drawdown
    ensures b.drawdown <= MarkDown(r, bar, b).value.drawdown
  {
    hide ClosedDrawdown, ClosedPeak, NetOf, Ratio, SellCost;
    var after := MarkDown(r, bar, b).value;
    var low := r.Worth(r.SalePrice(bar.low));
    FeeOf(r.costs, SELL, low, bar.start, Some(r.Worth(b.position.value.entry)));
    assert after.drawdown >= Ratio(b.peak - Liquidated(r, b, low), b.peak) by {
      hide Fee;
      assert b.peak - b.cash - low + SellCost(r.costs, low, r.Worth(b.position.value.entry)) == b.peak - Liquidated(r, b, low);
    }
    if exists peak, mark :: MarkSeen(r, b, peak, mark) {
      var peak, mark :| MarkSeen(r, b, peak, mark);
      assert MarkSeen(r, after, peak, mark);
    } else {
      PriceOrder(r, bar.low, bar.open);
      PriceOrder(r, bar.open, r.BuyPrice(bar.open));
      assert MarkSeen(r, after, b.peak, low);
    }
  }

  /** Selling for at least a mark already seen keeps the closed drawdown within the marked one. */
  lemma {:induction false} SaleBounded(r: Rules, trades: seq<Trade>, t: Trade, cash: real, basis: real, sell: real,
                    peak: real, mark: real, drawdown: real)
    requires r.Valid() && r.costs.Slope() <= 1.0
    requires 0.0 < mark <= sell
    requires ClosedPeak(trades, r.settings.capital) <= peak
    requires 0.0 <= drawdown
    requires Ratio(peak - (cash + mark - SellCost(r.costs, mark, basis)), peak) <= drawdown
    requires r.settings.capital + NetOf(trades + [t]) == cash + sell - SellCost(r.costs, sell, basis)
    requires 0.0 <= r.settings.capital + NetOf(trades + [t]) || peak == r.settings.capital
    requires ClosedDrawdown(trades, r.settings.capital) <= drawdown
    ensures ClosedDrawdown(trades + [t], r.settings.capital) <= drawdown
  {
    hide SellCost, NetOf, Schedule.Valid, Schedule.Slope;
    var all, capital := trades + [t], r.settings.capital;
    assert all[..|all| - 1] == trades;
    var equity := capital + NetOf(all);
    ProceedsGrow(r.costs, mark, sell, basis);
    var before, left := ClosedPeak(trades, capital), cash + mark - SellCost(r.costs, mark, basis);
    if equity < before {
      if peak == capital {
        ShareOrder(peak - equity, peak - left, peak);
      } else {
        DrawdownOrder(peak, left, before, equity);
      }
    }
  }

  lemma {:induction false} ShareOrder(a: real, b: real, d: real)
    requires a <= b && 0.0 < d
    ensures a / d <= b / d
  {
  }

  /** Shelter reaches back over a sale. */
  lemma {:induction false} ShelteredBefore(r: Rules, b: Book, after: Book, t: Trade)
    requires Sheltered(r, after) && after.trades == b.trades + [t] && after.peak == b.peak
    ensures Sheltered(r, b) && r.costs.Slope() <= 1.0
    ensures 0.0 <= r.settings.capital + NetOf(after.trades) || b.peak == r.settings.capital
  {
    hide Schedule.Slope, NetOf;
    if NeverRuined(after.trades, r.settings.capital) {
      RuinPrefix(b.trades, t, r.settings.capital);
      assert after.trades[..|after.trades|] == after.trades;
    }
  }

  /** Raising the peak can only take shelter away. */
  lemma {:induction false} ShelteredFinish(r: Rules, bar: Candle, last: bool, fires: bool, b: Book)
    requires r.settings.capital <= b.peak && Sheltered(r, Finish(r, bar, last, fires, b))
    ensures Sheltered(r, b)
  {
    hide Schedule.Slope, NeverRuined;
  }

  lemma {:induction false} RuinPrefix(trades: seq<Trade>, t: Trade, capital: real)
    requires NeverRuined(trades + [t], capital)
    ensures NeverRuined(trades, capital)
  {
    forall k | 0 <= k <= |trades| ensures 0.0 <= capital + NetOf(trades[..k]) {
      assert (trades + [t])[..k] == trades[..k];
    }
  }

  lemma {:induction false} ExitBounded(r: Rules, bar: Candle, last: bool, b: Book)
    requires r.Valid() && bar.Valid() && b.position.Some? && b.pending.None?
    requires 0.0 < b.position.value.entry
    requires Accounted(r, b) && ClosedPeak(b.trades, r.settings.capital) <= b.peak && 0.0 <= b.drawdown
    requires Sheltered(r, b) ==> ClosedDrawdown(b.trades, r.settings.capital) <= b.drawdown
    requires exists peak, mark :: MarkSeen(r, b, peak, mark)
    requires 0.0 < r.Worth(r.SalePrice(bar.low))
    requires Ratio(b.peak - Liquidated(r, b, r.Worth(r.SalePrice(bar.low))), b.peak) <= b.drawdown
    requires ExitReference(bar, b.position.value.entry, r, last).1.Some?
    requires
      var (reference, reason) := ExitReference(bar, b.position.value.entry, r, last);
      Exit(r, bar, reference, reason.value, b).Ok?
    ensures
      var (reference, reason) := ExitReference(bar, b.position.value.entry, r, last);
      var after := Exit(r, bar, reference, reason.value, b).value;
      && Accounted(r, after) && after.position.None? && after.pending.None? && 0.0 <= after.drawdown && after.peak == b.peak
      && (Sheltered(r, after) ==> ClosedDrawdown(after.trades, r.settings.capital) <= after.drawdown)
      && ClosedPeak(after.trades, r.settings.capital) <= Max(b.peak, after.cash)
  {
    hide *;
    var (reference, reason) := ExitReference(bar, b.position.value.entry, r, last);
    CapitalPositive(r);
    ExitAccounts(r, bar, reference, reason.value, b);
    ExitSheltered(r, bar, last, b, reference, reason.value);
  }

  lemma {:induction false} CapitalPositive(r: Rules)
    requires r.Valid()
    ensures 0.0 < r.settings.capital
  {
    hide Schedule.Valid;
  }

  /** A sale keeps the books in balance and a known closed peak. */
  lemma {:induction false} ExitAccounts(r: Rules, bar: Candle, reference: real, reason: Reason, b: Book)
    requires 0.0 < r.settings.capital && b.position.Some? && b.pending.None? && 0.0 <= b.drawdown
    requires Accounted(r, b) && ClosedPeak(b.trades, r.settings.capital) <= b.peak
    requires Exit(r, bar, reference, reason, b).Ok?
    ensures
      var after := Exit(r, bar, reference, reason, b).value;
      var sell, basis := r.Worth(r.SalePrice(reference)), r.Worth(b.position.value.entry);
      && Accounted(r, after) && after.position.None? && after.pending.None? && 0.0 <= after.drawdown && after.peak == b.peak
      && |after.trades| == |b.trades| + 1 && after.trades == b.trades + [after.trades[|b.trades|]] && after.drawdown == b.drawdown
      && r.settings.capital + NetOf(after.trades) == b.cash + sell - SellCost(r.costs, sell, basis)
      && ClosedPeak(after.trades, r.settings.capital) <= Max(b.peak, after.cash)
  {
    ExitAmounts(r, bar, reference, reason, b);
    hide Exit, SellCost, Fee, Rules.Worth, Rules.SalePrice;
    var after := Exit(r, bar, reference, reason, b).value;
    assert after.trades == b.trades + [after.trades[|b.trades|]];
  }

  /** A sale at or above a mark already seen keeps the closed drawdown within the marked one. */
  lemma {:induction false} ExitSheltered(r: Rules, bar: Candle, last: bool, b: Book, reference: real, reason: Reason)
    requires r.Valid() && bar.Valid() && b.position.Some? && b.pending.None? && 0.0 < b.position.value.entry
    requires Accounted(r, b) && ClosedPeak(b.trades, r.settings.capital) <= b.peak && 0.0 <= b.drawdown
    requires Sheltered(r, b) ==> ClosedDrawdown(b.trades, r.settings.capital) <= b.drawdown
    requires exists peak, mark :: MarkSeen(r, b, peak, mark)
    requires 0.0 < r.Worth(r.SalePrice(bar.low))
    requires Ratio(b.peak - Liquidated(r, b, r.Worth(r.SalePrice(bar.low))), b.peak) <= b.drawdown
    requires ExitReference(bar, b.position.value.entry, r, last) == (reference, Some(reason))
    requires Exit(r, bar, reference, reason, b).Ok?
    ensures
      var after := Exit(r, bar, reference, reason, b).value;
      Sheltered(r, after) ==> ClosedDrawdown(after.trades, r.settings.capital) <= after.drawdown
  {
    ExitAccounts(r, bar, reference, reason, b);
    hide Exit, ExitReference, SellCost, Fee, ClosedDrawdown, ClosedPeak, NetOf, Ratio, Rules.Worth, Rules.SalePrice, Candle.Valid,
         Rules.Valid, Accounted;
    var p, capital := b.position.value, r.settings.capital;
    var after := Exit(r, bar, reference, reason, b).value;
    var sell, basis := r.Worth(r.SalePrice(reference)), r.Worth(p.entry);
    var t := after.trades[|b.trades|];
    if Sheltered(r, after) {
      ShelteredBefore(r, b, after, t);
      ExitAttainable(r, bar, p.entry, last);
      if bar.low <= reference {
        PriceOrder(r, bar.low, reference);
        SaleBounded(r, b.trades, t, b.cash, basis, sell, b.peak, r.Worth(r.SalePrice(bar.low)), b.drawdown);
      } else {
        PriceOrder(r, p.entry, reference);
        var peak, mark :| MarkSeen(r, b, peak, mark);
        SaleBounded(r, b.trades, t, b.cash, basis, sell, peak, mark, b.drawdown);
      }
    }
  }

  /** What a sale adds to the books. */
  lemma {:induction false} ExitAmounts(r: Rules, bar: Candle, reference: real, reason: Reason, b: Book)
    requires b.position.Some? && Exit(r, bar, reference, reason, b).Ok?
    ensures
      var p, after := b.position.value, Exit(r, bar, reference, reason, b).value;
      var sell, basis := r.Worth(r.SalePrice(reference)), r.Worth(p.entry);
      && |after.trades| == |b.trades| + 1 && after.trades[..|b.trades|] == b.trades
      && after.trades[|b.trades|].net == sell - basis - p.fee - SellCost(r.costs, sell, basis)
      && after.cash == b.cash + (sell - SellCost(r.costs, sell, basis))
      && after.position.None? && after.pending == b.pending && after.peak == b.peak && after.drawdown == b.drawdown
  {
    hide SellCost;
    FeeOf(r.costs, SELL, r.Worth(r.SalePrice(reference)), bar.start, Some(r.Worth(b.position.value.entry)));
  }

  /** Between the candle's entry and its close: bounded, except that a position just opened at this
      candle's open may not have been marked yet. */
  ghost predicate Entered(r: Rules, bar: Candle, b: Book)
    requires 0.0 < r.settings.capital
  {
    && Accounted(r, b) && b.pending.None?
    && ClosedPeak(b.trades, r.settings.capital) <= b.peak
    && 0.0 <= b.drawdown
    && (Sheltered(r, b) ==> ClosedDrawdown(b.trades, r.settings.capital) <= b.drawdown)
    && (b.position.Some? ==>
          0.0 < b.position.value.entry &&
          ((exists peak, mark :: MarkSeen(r, b, peak, mark)) || b.position.value.entry == r.BuyPrice(bar.open)))
  }

  lemma {:induction false} SeenEntryPositive(r: Rules, b: Book)
    requires r.Valid() && b.position.Some?
    requires exists peak, mark :: MarkSeen(r, b, peak, mark)
    ensures 0.0 < b.position.value.entry
  {
    var entry := b.position.value.entry;
    assert r.Worth(r.SalePrice(0.0)) == 0.0;
    if entry <= 0.0 { PriceOrder(r, entry, 0.0); }
  }

  lemma {:induction false} EntryBounded(r: Rules, bar: Candle, last: bool, liquid: bool, b: Book)
    requires r.Valid() && bar.Valid() && Bounded(r, b)
    requires b.pending.Some? ==> Enter(r, bar, last, liquid, b).Ok?
    ensures Entered(r, bar, if b.pending.Some? then Enter(r, bar, last, liquid, b).value else b)
  {
    if b.pending.Some? {
      EnterBounded(r, bar, last, liquid, b);
      hide Enter;
      var after := Enter(r, bar, last, liquid, b).value;
      if after.position.Some? { PriceOrder(r, bar.open, bar.open); }
    } else if b.position.Some? {
      SeenEntryPositive(r, b);
    }
  }

  /** Managing and closing the candle restores the bound; so does getting stuck. */
  lemma {:induction false} CandleBounded(r: Rules, bar: Candle, last: bool, fires: bool, b: Book)
    requires r.Valid() && bar.Valid() && Entered(r, bar, b)
    requires Manage(r, bar, last, b).Ok?
    ensures
      var m := Manage(r, bar, last, b).value;
      && Bounded(r, if m.Stuck? then m.book else Finish(r, bar, last, fires, m.book))
      && (m.Going? && last ==> m.book.position.None?)
  {
    if b.position.Some? {
      MarkDownSeen(r, bar, b);
      var marked := MarkDown(r, bar, b).value;
      var (reference, reason) := ExitReference(bar, b.position.value.entry, r, last);
      if reason.Some? && r.Liquid(bar.volume) {
        ExitBounded(r, bar, last, marked);
        FinishSold(r, bar, last, fires, Exit(r, bar, reference, reason.value, marked).value);
      } else {
        FinishHeld(r, bar, last, fires, marked);
      }
    }
  }

  lemma {:induction false} FinishSold(r: Rules, bar: Candle, last: bool, fires: bool, b: Book)
    requires 0.0 < r.settings.capital
    requires Accounted(r, b) && b.position.None? && b.pending.None? && 0.0 <= b.drawdown
    requires Sheltered(r, b) ==> ClosedDrawdown(b.trades, r.settings.capital) <= b.drawdown
    requires ClosedPeak(b.trades, r.settings.capital) <= Max(b.peak, b.cash) && r.settings.capital <= b.peak
    ensures Bounded(r, Finish(r, bar, last, fires, b))
  {
    hide ClosedDrawdown, ClosedPeak, NetOf, Sheltered;
    if Sheltered(r, Finish(r, bar, last, fires, b)) { ShelteredFinish(r, bar, last, fires, b); }
  }

  lemma {:induction false} FinishHeld(r: Rules, bar: Candle, last: bool, fires: bool, b: Book)
    requires 0.0 < r.settings.capital && b.position.Some? && b.pending.None?
    requires Accounted(r, b) && 0.0 <= b.drawdown && ClosedPeak(b.trades, r.settings.capital) <= b.peak
    requires Sheltered(r, b) ==> ClosedDrawdown(b.trades, r.settings.capital) <= b.drawdown
    requires exists peak, mark :: MarkSeen(r, b, peak, mark)
    ensures Bounded(r, b) && Bounded(r, Finish(r, bar, last, fires, b))
  {
    hide ClosedDrawdown, ClosedPeak, NetOf, Sheltered;
    if Sheltered(r, Finish(r, bar, last, fires, b)) { ShelteredFinish(r, bar, last, fires, b); }
    var peak, mark :| MarkSeen(r, b, peak, mark);
    assert MarkSeen(r, Finish(r, bar, last, fires, b), peak, mark);
  }

  // ----- whole runs -----

  /** Sessions end flat and without a waiting order. */
  ghost predicate FlatAt(ticks: seq<Tick>, n: nat, b: Book)
    requires n <= |ticks|
  {
    n == 0 || ticks[n - 1].Last() ==> b.position.None? && b.pending.None?
  }

  lemma {:induction false} OpeningBounded(r: Rules)
    requires r.Valid()
    ensures Bounded(r, Opening(r))
  {
    assert forall k :: 0 <= k <= 0 ==> Opening(r).trades[..k] == [];
  }

  lemma {:induction false} RunBounded(r: Rules, d: Definition, ticks: seq<Tick>, n: nat)
    requires r.Valid()
    requires WellFormed(ticks) && n <= |ticks|
    requires RunTo(r, d, ticks, n).Ok?
    ensures Bounded(r, RunTo(r, d, ticks, n).value.book)
    ensures RunTo(r, d, ticks, n).value.unresolved == [] ==> FlatAt(ticks, n, RunTo(r, d, ticks, n).value.book)
  {
    hide Step, Bounded, WellFormed, Schedule.Valid;
    if n == 0 {
      OpeningBounded(r);
    } else {
      RunBounded(r, d, ticks, n - 1);
      var before := RunTo(r, d, ticks, n - 1).value;
      if before.unresolved == [] { StepBounded(r, d, ticks, n - 1, before); }
    }
  }

  lemma {:induction false} StepBounded(r: Rules, d: Definition, ticks: seq<Tick>, n: nat, run: Run)
    requires r.Valid()
    requires WellFormed(ticks) && n < |ticks| && run.unresolved == []
    requires Bounded(r, run.book) && FlatAt(ticks, n, run.book)
    requires Step(r, d, ticks, n, run).Ok?
    ensures Bounded(r, Step(r, d, ticks, n, run).value.book)
    ensures Step(r, d, ticks, n, run).value.unresolved == [] ==> FlatAt(ticks, n + 1, Step(r, d, ticks, n, run).value.book)
  {
    hide Enter, Manage, EntrySignal, History, Bounded, Entered;
    var t := ticks[n];
    if n > 0 { assert Joined(ticks, n); }
    var previous := if n > 0 then ticks[n - 1].bar else t.bar;
    EntryBounded(r, t.bar, t.Last(), r.Liquid(previous.volume), run.book);
    var decided := Decided(r, t.bar, t.Last(), previous, run).value;
    CandleBounded(r, t.bar, t.Last(), EntrySignal(History(ticks, n), d), decided.book);
    EnteredParts(r, t.bar, decided.book);
    ExecutionOrder.ManageEffects(r, t.bar, t.Last(), decided.book);
  }

  lemma {:induction false} EnteredParts(r: Rules, bar: Candle, b: Book)
    requires 0.0 < r.settings.capital && Entered(r, bar, b)
    ensures b.pending.None?
  {
  }

  lemma {:induction false} OldRunBounded(r: Rules, s: Strategy, ticks: seq<Tick>, n: nat)
    requires r.Valid() && s.Valid()
    requires WellFormed(ticks) && n <= |ticks|
    requires OldRunTo(r, s, ticks, n).Ok?
    ensures Bounded(r, OldRunTo(r, s, ticks, n).value)
    ensures FlatAt(ticks, n, OldRunTo(r, s, ticks, n).value)
  {
    hide OldStep, Bounded, WellFormed, Schedule.Valid, Strategy.Valid;
    if n == 0 {
      OpeningBounded(r);
    } else {
      OldRunBounded(r, s, ticks, n - 1);
      OldStepBounded(r, s, ticks, n - 1, OldRunTo(r, s, ticks, n - 1).value);
    }
  }

  lemma {:induction false} OldStepBounded(r: Rules, s: Strategy, ticks: seq<Tick>, n: nat, book: Book)
    requires r.Valid() && s.Valid()
    requires WellFormed(ticks) && n < |ticks|
    requires Bounded(r, book) && FlatAt(ticks, n, book)
    requires OldStep(r, s, ticks, n, book).Ok?
    ensures Bounded(r, OldStep(r, s, ticks, n, book).value)
    ensures FlatAt(ticks, n + 1, OldStep(r, s, ticks, n, book).value)
  {
    hide Enter, Manage, Signal, History, Closes, Entered;
    var t := ticks[n];
    if n > 0 { assert Joined(ticks, n); }
    EntryBounded(r, t.bar, t.Last(), r.Liquid(t.bar.volume), book);
    var decided := if book.pending.Some? then Enter(r, t.bar, t.Last(), r.Liquid(t.bar.volume), book).value else book;
    CandleBounded(r, t.bar, t.Last(), Signal(Closes(History(ticks, n)), s.conditions), decided);
    EnteredParts(r, t.bar, decided);
    ExecutionOrder.ManageEffects(r, t.bar, t.Last(), decided);
  }

  // ----- results -----

  /** The reported marked drawdown is never below the drawdown of the closed trades, for every
      tariff whose slope is at most one, while closed equity stays non-negative. */
  lemma {:induction false} MarkedDrawdownBoundsClosed(series: PriceSeries, d: Definition, settings: Settings, costs: Schedule)
    requires series.Valid() && settings.Valid() && costs.Valid() && d.Valid()
    requires costs.Slope() <= 1.0
    requires Executed(series, d, settings, costs).Ok?
    requires NeverRuined(Executed(series, d, settings, costs).value.trades, settings.capital)
    ensures Executed(series, d, settings, costs).value.metrics.drawdown <= Executed(series, d, settings, costs).value.drawdown
  {
    hide RunTo, Ticks, Step, NetOf;
    var r, ticks := RulesOf(settings, costs, d.stop, d.target), AllTicks(series);
    ExecutionOrder.SeriesTicks(series);
    RunBounded(r, d, ticks, |ticks|);
  }

  lemma {:induction false} OldMarkedDrawdownBoundsClosed(series: PriceSeries, s: Strategy, settings: Settings, costs: Schedule)
    requires series.Valid() && settings.Valid() && costs.Valid() && s.Valid()
    requires costs.Slope() <= 1.0
    requires Simulated(series, s, settings, costs).Ok?
    requires NeverRuined(Simulated(series, s, settings, costs).value.trades, settings.capital)
    ensures Simulated(series, s, settings, costs).value.metrics.drawdown <= Simulated(series, s, settings, costs).value.drawdown
  {
    hide OldRunTo, Ticks, OldStep, NetOf;
    var r, ticks := RulesOf(settings, costs, s.stop, s.target), AllTicks(series);
    ExecutionOrder.SeriesTicks(series);
    OldRunBounded(r, s, ticks, |ticks|);
  }

  /** Money is conserved: at every point of a run the cash is the capital plus the net of the closed
      trades, less the cost of the position still held; a phase14 run always ends flat. */
  lemma {:induction false} CashConserved(r: Rules, d: Definition, s: Strategy, ticks: seq<Tick>, n: nat)
    requires r.Valid() && s.Valid() && WellFormed(ticks) && n <= |ticks|
    ensures RunTo(r, d, ticks, n).Ok? ==> Accounted(r, RunTo(r, d, ticks, n).value.book)
    ensures OldRunTo(r, s, ticks, n).Ok? ==> Accounted(r, OldRunTo(r, s, ticks, n).value)
    ensures OldRunTo(r, s, ticks, |ticks|).Ok? ==>
      OldRunTo(r, s, ticks, |ticks|).value.cash == r.settings.capital + NetOf(OldRunTo(r, s, ticks, |ticks|).value.trades)
  {
    hide OldRunTo, RunTo;
    if RunTo(r, d, ticks, n).Ok? { RunBounded(r, d, ticks, n); }
    if OldRunTo(r, s, ticks, n).Ok? { OldRunBounded(r, s, ticks, n); }
    if OldRunTo(r, s, ticks, |ticks|).Ok? { OldRunBounded(r, s, ticks, |ticks|); }
  }
}
