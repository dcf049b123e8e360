/** Every tariff that is not mild breaks the drawdown bound on some day, in both executors. */
module DrawdownWitness {
  import opened Wrappers
  import opened Clock
  import opened RealFacts
  import opened Costs
  import opened Series
  import opened Strategies
  import opened Executor
  import opened Drawdown
  import opened DrawdownExact
  import opened WildDay
  import Refinement

  // ----- one candle without frictions -----

  /** One share at a time, at the quoted price, up to the largest order. */
  function Plain(capital: real): Settings { Settings(capital, MAX_ORDER, 1.0, 1, 0.0, 1.0, true) }

  predicate Frictionless(r: Rules) { r.settings == Plain(r.settings.capital) }

  lemma {:induction false} PlainPrices(r: Rules, price: real)
    requires Frictionless(r)
    ensures r.BuyPrice(price) == price && r.SalePrice(price) == price && r.Worth(price) == price
    ensures r.Liquid(1)
  {
  }

  predicate Priced(r: Rules, bar: Candle) { r.costs.Effective(r.costs.PricingDate(bar.start)) }

  /** A liquid candle of either executor, as far as the book goes. */
  function Bit(r: Rules, bar: Candle, last: bool, fires: bool, b: Book): Result<Book> {
    var entered :- AtOpen(r, bar, last, true, b);
    var managed :- Manage(r, bar, last, entered);
    if managed.Stuck? then Err("EXIT_NO_FILL_UNVALUED_POSITION") else Ok(Finish(r, bar, last, fires, managed.book))
  }

  lemma {:induction false} Bought(r: Rules, bar: Candle, b: Book)
    requires Frictionless(r) && Priced(r, bar) && b.pending.Some?
    requires 0.0 < bar.open <= MAX_ORDER && bar.open + BuyCost(r.costs, bar.open) <= b.cash
    ensures
      var fee := BuyCost(r.costs, bar.open);
      AtOpen(r, bar, false, true, b) ==
      Ok(b.(position := Some(Position(b.pending.value, bar.start, bar.open, fee)), cash := b.cash - (bar.open + fee), pending := None))
  {
    PlainPrices(r, bar.open);
    QuoteSucceedsExactlyWhenEffective(r.costs, BUY, bar.open, bar.start, bar.open);
    FeeOf(r.costs, BUY, bar.open, bar.start, None);
    hide Fee, BuyCost;
  }

  /** The book after its position is marked at the candle's low. */
  function Marked(r: Rules, low: real, b: Book): Book
    requires b.position.Some?
  {
    b.(drawdown := Max(b.drawdown, Ratio(b.peak - b.cash - low + SellCost(r.costs, low, b.position.value.entry), b.peak)))
  }

  lemma {:induction false} MarkedDown(r: Rules, bar: Candle, b: Book)
    requires Frictionless(r) && Priced(r, bar) && b.position.Some? && 0.0 < b.position.value.entry && 0.0 < bar.low
    ensures MarkDown(r, bar, b) == Ok(Marked(r, bar.low, b))
  {
    var entry := b.position.value.entry;
    PlainPrices(r, bar.low);
    PlainPrices(r, entry);
    QuoteSucceedsExactlyWhenEffective(r.costs, SELL, bar.low, bar.start, entry);
    FeeOf(r.costs, SELL, bar.low, bar.start, Some(entry));
    hide Fee, SellCost;
  }

  lemma {:induction false} Held(r: Rules, bar: Candle, b: Book)
    requires Frictionless(r) && Priced(r, bar) && b.position.Some? && 0.0 < b.position.value.entry && 0.0 < bar.low
    requires r.StopPrice(b.position.value.entry) < bar.low && bar.high < r.TargetPrice(b.position.value.entry)
    ensures Manage(r, bar, false, b) == Ok(Going(Marked(r, bar.low, b)))
  {
    MarkedDown(r, bar, b);
    hide Marked, MarkDown;
  }

  /** Sold at the stop. */
  lemma {:induction false} Stopped(r: Rules, bar: Candle, b: Book)
    requires Frictionless(r) && Priced(r, bar) && b.position.Some? && 0.0 < b.position.value.entry && 0.0 < bar.low
    requires bar.low <= r.StopPrice(b.position.value.entry) <= bar.open && bar.volume == 1
    ensures
      var p, x := b.position.value, r.StopPrice(b.position.value.entry);
      var m := Manage(r, bar, false, b);
      && m.Ok? && m.value.Going?
      && m.value.book.drawdown == Marked(r, bar.low, b).drawdown && m.value.book.peak == b.peak
      && m.value.book.cash == b.cash + (x - SellCost(r.costs, x, p.entry))
      && m.value.book.position.None? && m.value.book.pending == b.pending
      && |m.value.book.trades| == |b.trades| + 1 && m.value.book.trades[..|b.trades|] == b.trades
      && m.value.book.trades[|b.trades|].net == x - p.entry - p.fee - SellCost(r.costs, x, p.entry)
  {
    var p, x := b.position.value, r.StopPrice(b.position.value.entry);
    PlainPrices(r, x);
    PlainPrices(r, p.entry);
    MarkedDown(r, bar, b);
    var marked := Marked(r, bar.low, b);
    QuoteSucceedsExactlyWhenEffective(r.costs, SELL, x, bar.start, p.entry);
    FeeOf(r.costs, SELL, x, bar.start, Some(p.entry));
    assert Exit(r, bar, x, STOP, marked).Ok? by { hide Fee, SellCost; }
    ExitAmounts(r, bar, x, STOP, marked);
    hide Fee, SellCost, Exit, MarkDown;
  }

  // ----- both executors follow the same course -----

  /** The book after the first n candles of the day. */
  function Course(r: Rules, w: Day, n: nat): Result<Book> {
    if n == 0 then Ok(Opening(r))
    else
      var before :- Course(r, w, n - 1);
      Bit(r, CandleOf(w, n - 1), n == LENGTH, Breaks(w, n - 1), before)
  }

  lemma {:induction false} BitArmsFlat(r: Rules, bar: Candle, last: bool, fires: bool, b: Book)
    requires Bit(r, bar, last, fires, b).Ok?
    ensures var after := Bit(r, bar, last, fires, b).value; after.pending.Some? ==> after.position.None?
  {
    Refinement.EnterClears(r, bar, last, true, b);
    hide Enter, Manage;
    var entered := AtOpen(r, bar, last, true, b).value;
    Refinement.ManagePending(r, bar, last, entered);
  }

  lemma {:induction false} CourseArmsFlat(r: Rules, w: Day, n: nat)
    requires Course(r, w, n).Ok?
    ensures Course(r, w, n).value.pending.Some? ==> Course(r, w, n).value.position.None?
  {
    hide Bit, CandleOf, Breaks;
    if n > 0 { BitArmsFlat(r, CandleOf(w, n - 1), n == LENGTH, Breaks(w, n - 1), Course(r, w, n - 1).value); }
  }

  /** The last candle of a day does not arm an order, whatever the rule says. */
  lemma {:induction false} LastArmsNothing(r: Rules, bar: Candle, one: bool, other: bool, b: Book)
    ensures Bit(r, bar, true, one, b) == Bit(r, bar, true, other, b)
  {
    hide AtOpen, Manage;
  }

  lemma {:induction false} TickLast(w: Day, n: nat)
    requires w.Valid() && n < LENGTH
    ensures CandleOf(w, n).volume == 1 && (CandleOf(w, n).End() == w.Open() + 40 <==> n + 1 == LENGTH)
  {
    CandlesValid(w, n);
    hide CandleOf, Day.Open;
  }

  lemma {:induction false} StepIsBit(r: Rules, d: Definition, w: Day, ticks: seq<Tick>, n: nat, run: Run)
    requires Frictionless(r) && w.Valid() && OneSession(w, ticks) && n < LENGTH && d.identifier == S06
    requires run.unresolved == [] && (n == 0 ==> run.book == Opening(r))
    requires Bit(r, CandleOf(w, n), n + 1 == LENGTH, Breaks(w, n), run.book).Ok?
    ensures
      var after := Step(r, d, ticks, n, run);
      && after.Ok? && after.value.unresolved == []
      && after.value.book == Bit(r, CandleOf(w, n), n + 1 == LENGTH, Breaks(w, n), run.book).value
  {
    PlainPrices(r, 1.0);
    TickLast(w, n);
    if n > 0 { TickLast(w, n - 1); }
    DayHistory(w, ticks, n);
    if n + 1 < LENGTH {
      OpeningRangeFires(w, d, n);
    } else {
      LastArmsNothing(r, CandleOf(w, n), EntrySignal(History(ticks, n), d), Breaks(w, n), run.book);
    }
    if n == 0 { FirstOpens(r, d, w, run); }
    hide CandleOf, Breaks, EntrySignal, History, OpenSession, Enter, Manage, Finish, Rules.Liquid, CandlesOf, Day.Open, Frictionless;
  }

  lemma {:induction false} FirstOpens(r: Rules, d: Definition, w: Day, run: Run)
    requires w.Valid() && run.book == Opening(r)
    ensures OpenSession(d, CandleOf(w, 0), w.Open() + 40, run) == Ok(run)
  {
    ClockOf(w, 0);
  }

  lemma {:induction false} OldStepIsBit(r: Rules, s: Strategy, w: Day, ticks: seq<Tick>, n: nat, b: Book)
    requires Frictionless(r) && w.Valid() && OneSession(w, ticks) && n < LENGTH && s.Valid() && s.conditions == [LevelCross(w.range)]
    requires (b.pending.Some? ==> b.position.None?) && (n == 0 ==> b == Opening(r))
    requires Bit(r, CandleOf(w, n), n + 1 == LENGTH, Breaks(w, n), b).Ok?
    ensures OldStep(r, s, ticks, n, b) == Bit(r, CandleOf(w, n), n + 1 == LENGTH, Breaks(w, n), b)
  {
    PlainPrices(r, 1.0);
    TickLast(w, n);
    DayHistory(w, ticks, n);
    if n + 1 < LENGTH {
      LevelFires(w, n);
    } else {
      LastArmsNothing(r, CandleOf(w, n), Signal(Closes(History(ticks, n)), s.conditions), Breaks(w, n), b);
    }
    hide CandleOf, Breaks, Signal, History, Closes, Enter, Manage, Finish, Rules.Liquid, CandlesOf, Day.Open, Frictionless, Strategy.Valid;
  }

  lemma {:induction false} RunFollows(r: Rules, d: Definition, w: Day, ticks: seq<Tick>, n: nat)
    requires Frictionless(r) && w.Valid() && OneSession(w, ticks) && n <= LENGTH && d.identifier == S06
    requires Course(r, w, n).Ok?
    ensures RunTo(r, d, ticks, n).Ok? && RunTo(r, d, ticks, n).value.unresolved == []
    ensures RunTo(r, d, ticks, n).value.book == Course(r, w, n).value
  {
    hide Step, Bit, CandleOf, Breaks, Frictionless, Day.Valid;
    if n > 0 {
      RunFollows(r, d, w, ticks, n - 1);
      StepIsBit(r, d, w, ticks, n - 1, RunTo(r, d, ticks, n - 1).value);
    }
  }

  lemma {:induction false} OldRunFollows(r: Rules, s: Strategy, w: Day, ticks: seq<Tick>, n: nat)
    requires Frictionless(r) && w.Valid() && OneSession(w, ticks) && n <= LENGTH && s.Valid() && s.conditions == [LevelCross(w.range)]
    requires Course(r, w, n).Ok?
    ensures OldRunTo(r, s, ticks, n) == Course(r, w, n)
  {
    hide OldStep, Bit, CandleOf, Breaks, Frictionless, Day.Valid, Strategy.Valid;
    if n > 0 {
      OldRunFollows(r, s, w, ticks, n - 1);
      CourseArmsFlat(r, w, n - 1);
      OldStepIsBit(r, s, w, ticks, n - 1, Course(r, w, n - 1).value);
    }
  }

  // ----- candle by candle -----

  lemma {:induction false} AllPriced(r: Rules, w: Day, n: nat)
    requires r.Valid() && w.date == r.costs.effectiveFrom && n < LENGTH
    ensures Priced(r, CandleOf(w, n))
  {
    ClockOf(w, FIVE * n);
    hide Day.Open;
  }

  /** Flat and without an order, a candle only looks for an entry. */
  lemma {:induction false} IdleBit(r: Rules, bar: Candle, last: bool, fires: bool, b: Book)
    requires b.position.None? && b.pending.None? && b.cash <= b.peak
    ensures Bit(r, bar, last, fires, b) == Ok(b.(pending := if !last && fires then Some(bar.End()) else None))
  {
  }

  /** The book that has done nothing but arm an order. */
  predicate Armed(r: Rules, b: Book) { b.pending.Some? && b == Opening(r).(pending := b.pending) }

  lemma {:induction false} NothingYet(r: Rules, w: Day, n: nat)
    requires n <= (if w.twice then 3 else 5)
    ensures Course(r, w, n) == Ok(Opening(r))
  {
    hide Bit, CandleOf;
    if n > 0 {
      NothingYet(r, w, n - 1);
      IdleBit(r, CandleOf(w, n - 1), false, false, Opening(r));
    }
  }

  lemma {:induction false} FirstBreakout(r: Rules, w: Day)
    ensures var n := if w.twice then 4 else 6; Course(r, w, n).Ok? && Armed(r, Course(r, w, n).value)
  {
    hide Bit, CandleOf;
    var n := if w.twice then 3 else 5;
    NothingYet(r, w, n);
    IdleBit(r, CandleOf(w, n), false, true, Opening(r));
  }

  /** Two sales that leave the given cash, closed one by one. */
  lemma {:induction false} ClosedTwice(trades: seq<Trade>, capital: real)
    requires |trades| == 2 && 0.0 < capital && trades[0].net <= 0.0 && trades[1].net <= 0.0
    ensures ClosedDrawdown(trades, capital) >= (capital - (capital + trades[0].net + trades[1].net)) / capital
  {
    var one := trades[..1];
    assert trades[..2 - 1] == one && one[..1 - 1] == [] && one[0] == trades[0];
    assert NetOf(one) == trades[0].net;
    assert NetOf(trades) == trades[0].net + trades[1].net;
    assert ClosedPeak(one, capital) == capital;
    assert ClosedPeak(trades, capital) == capital;
  }

  lemma {:induction false} ClosedOnce(trades: seq<Trade>, capital: real)
    requires |trades| == 1 && 0.0 < capital && trades[0].net <= 0.0
    ensures ClosedDrawdown(trades, capital) >= (capital - (capital + trades[0].net)) / capital
  {
    assert trades[..1 - 1] == [];
    assert NetOf(trades) == trades[0].net;
    assert ClosedPeak(trades, capital) == capital;
  }

  /** The closed drawdown is above the marked one after the whole day. */
  ghost predicate Broken(r: Rules, w: Day)
    requires 0.0 < r.settings.capital
  {
    && Course(r, w, LENGTH).Ok?
    && ClosedDrawdown(Course(r, w, LENGTH).value.trades, r.settings.capital) > Course(r, w, LENGTH).value.drawdown
  }

  /** Bought with everything but what the purchase costs, and sold at the stop. */
  lemma {:induction false} RoundTrip(r: Rules, bar: Candle, fires: bool, b: Book)
    requires Frictionless(r) && r.Valid() && Priced(r, bar) && b.pending.Some? && b.position.None?
    requires 0.0 < bar.low <= r.StopPrice(bar.open) <= bar.open <= MAX_ORDER && bar.volume == 1
    requires bar.open + BuyCost(r.costs, bar.open) <= b.cash <= b.peak
    ensures
      var v, x, c := bar.open, r.StopPrice(bar.open), b.cash - (bar.open + BuyCost(r.costs, bar.open));
      var after := Bit(r, bar, false, fires, b);
      && after.Ok? && after.value.position.None?
      && after.value.pending == (if fires then Some(bar.End()) else None)
      && after.value.cash == c + (x - SellCost(r.costs, x, v)) <= after.value.peak && after.value.peak == b.peak
      && after.value.drawdown == Max(b.drawdown, Ratio(b.peak - c - bar.low + SellCost(r.costs, bar.low, v), b.peak))
      && |after.value.trades| == |b.trades| + 1 && after.value.trades[..|b.trades|] == b.trades
      && after.value.trades[|b.trades|].net == x - v - BuyCost(r.costs, v) - SellCost(r.costs, x, v) <= 0.0
  {
    Bought(r, bar, b);
    var entered := AtOpen(r, bar, false, true, b).value;
    Stopped(r, bar, entered);
    var v, x := bar.open, r.StopPrice(bar.open);
    CostsGrow(r.costs, x, x, v, v);
    CostsGrow(r.costs, v, v, v, v);
    hide AtOpen, Manage, BuyCost, SellCost, Rules.StopPrice, Frictionless, Rules.Valid, Ratio;
  }

  lemma {:induction false} IdleEnd(r: Rules, w: Day)
    requires Course(r, w, 7).Ok?
    requires var b := Course(r, w, 7).value; b.position.None? && b.pending.None? && b.cash <= b.peak
    ensures Course(r, w, LENGTH) == Course(r, w, 7)
  {
    hide Bit, CandleOf;
    IdleBit(r, CandleOf(w, 7), true, Breaks(w, 7), Course(r, w, 7).value);
  }

  // ----- a steep tariff: a sale at the stop leaves less than one at the low would -----

  /** An amount the tariff's brokerage cap does not bind. */
  function Small(s: Schedule): real { if s.brokerageCap > 0.0 then Min(s.brokerageCap, MAX_ORDER) else 1.0 }

  function SteepDay(s: Schedule): Day {
    Day(s.effectiveFrom, Small(s), Small(s), false, Small(s) / 4.0, Small(s) / 4.0)
  }

  function SteepRules(s: Schedule): Rules {
    Rules(Plain(Small(s) + BuyCost(s, Small(s)) + 1.0), s, 0.5, 0.5)
  }

  lemma {:induction false} SmallFits(s: Schedule)
    requires s.Valid()
    ensures 0.0 < Small(s) <= MAX_ORDER && Uncapped(s, Small(s)) && 0.0 <= BuyCost(s, Small(s))
    ensures SteepDay(s).Valid() && SteepRules(s).Valid() && Frictionless(SteepRules(s))
    ensures SteepRules(s).StopPrice(Small(s)) == Small(s) / 2.0
  {
    CostsGrow(s, Small(s), Small(s), 0.0, 0.0);
    hide BuyCost;
  }

  lemma {:induction false} SteepCandle(s: Schedule)
    ensures
      var bar := CandleOf(SteepDay(s), 6);
      bar.open == Small(s) && bar.low == Small(s) / 4.0 && bar.volume == 1 && !Breaks(SteepDay(s), 6) && !SteepDay(s).twice
    ensures SteepRules(s).costs == s && SteepDay(s).date == s.effectiveFrom && 6 + 1 < LENGTH
    ensures SteepRules(s).settings.capital == Small(s) + BuyCost(s, Small(s)) + 1.0
  {
    hide Small, BuyCost;
  }

  lemma {:induction false} ArmedBook(r: Rules, b: Book)
    requires Armed(r, b)
    ensures b.position.None? && b.pending.Some? && b.cash == b.peak == r.settings.capital && b.drawdown == 0.0 && b.trades == []
  {
  }

  /** One trade, marked at the low and sold at the stop with one unit of cash beside it. */
  lemma {:induction false} SteepTrade(s: Schedule) returns (after: Book)
    requires s.Valid()
    ensures Course(SteepRules(s), SteepDay(s), 7) == Ok(after)
    ensures after.position.None? && after.pending.None? && after.cash <= after.peak
    ensures
      var v, k := Small(s), SteepRules(s).settings.capital;
      && after.drawdown == Max(0.0, Ratio(k - 1.0 - v / 4.0 + SellCost(s, v / 4.0, v), k))
      && |after.trades| == 1
      && after.trades[0].net == v / 2.0 - v - BuyCost(s, v) - SellCost(s, v / 2.0, v) <= 0.0
  {
    hide *;
    var r, w, v := SteepRules(s), SteepDay(s), Small(s);
    SmallFits(s);
    SteepCandle(s);
    FirstBreakout(r, w);
    var b := Course(r, w, 6).value;
    ArmedBook(r, b);
    AllPriced(r, w, 6);
    NextBit(r, w, 6);
    RoundTrip(r, CandleOf(w, 6), false, b);
    after := Course(r, w, 7).value;
    assert b.peak - (b.cash - (v + BuyCost(s, v))) - v / 4.0 + SellCost(s, v / 4.0, v) ==
           r.settings.capital - 1.0 - v / 4.0 + SellCost(s, v / 4.0, v);
  }

  lemma {:induction false} SteepBreaks(s: Schedule)
    requires s.Valid() && s.Slope() > 1.0
    ensures SteepRules(s).Valid() && Broken(SteepRules(s), SteepDay(s))
  {
    hide *;
    var v, k := Small(s), SteepRules(s).settings.capital;
    SmallFits(s);
    SteepCandle(s);
    var after := SteepTrade(s);
    IdleEnd(SteepRules(s), SteepDay(s));
    SteepHalves(s);
    var marked, closed := k - 1.0 - v / 4.0 + SellCost(s, v / 4.0, v), k - (k + after.trades[0].net);
    ClosedOnce(after.trades, k);
    ShareBelow(marked, closed, k);
    RatioIs(marked, k);
    BrokenBy(SteepRules(s), SteepDay(s), after, closed / k);
  }

  /** Selling at half the price leaves less than selling at a quarter, and less than nothing lost. */
  lemma {:induction false} SteepHalves(s: Schedule)
    requires s.Valid() && s.Slope() > 1.0
    ensures
      var v := Small(s);
      v / 4.0 - SellCost(s, v / 4.0, v) > v / 2.0 - SellCost(s, v / 2.0, v) && 0.0 <= SellCost(s, v / 2.0, v) && 0.0 < v
      && 0.0 <= BuyCost(s, v)
  {
    var v := Small(s);
    SmallFits(s);
    CostsGrow(s, v / 2.0, v / 2.0, v, v);
    hide Small, SellCost, BuyCost, Schedule.Slope, Schedule.Valid;
    SteepTariffTakesMore(s, v / 4.0, v / 2.0, v);
  }

  lemma {:induction false} RatioIs(a: real, d: real)
    requires 0.0 < d
    ensures Ratio(a, d) == a / d && Max(0.0, a / d) == (if 0.0 >= a / d then 0.0 else a / d)
  {
  }

  /** A day whose last book shows a marked drawdown below some share that the closed one reaches. */
  lemma {:induction false} BrokenBy(r: Rules, w: Day, after: Book, share: real)
    requires 0.0 < r.settings.capital && Course(r, w, LENGTH) == Ok(after)
    requires after.drawdown < share <= ClosedDrawdown(after.trades, r.settings.capital)
    ensures Broken(r, w)
  {
    hide Course, ClosedDrawdown;
  }

  lemma {:induction false} ShareBelow(a: real, b: real, d: real)
    requires a < b && 0.0 < d
    ensures a / d < b / d && (0.0 < b ==> 0.0 < b / d)
  {
  }

  // ----- a taxed sale that costs more than it brings: equity falls below zero after the peak rose -----

  /** The stop's price share of the largest order. */
  function Fallen(s: Schedule): real { s.sttRate / 4.0 * MAX_ORDER }

  function Target(s: Schedule): real { (3.0 * MAX_ORDER + BuyCost(s, MAX_ORDER)) / (4.0 * MAX_ORDER) }

  /** What a sale at the stop costs above what it brings. */
  function Loss(s: Schedule): real { SellCost(s, Fallen(s), MAX_ORDER) - Fallen(s) }

  function RuinDay(s: Schedule): Day {
    Day(s.effectiveFrom, (3.0 * MAX_ORDER + BuyCost(s, MAX_ORDER)) / 2.0, MAX_ORDER, true, Fallen(s), Fallen(s))
  }

  function RuinRules(s: Schedule): Rules {
    Rules(Plain(2.0 * (MAX_ORDER + BuyCost(s, MAX_ORDER)) + Loss(s)), s, 1.0 - s.sttRate / 4.0, Target(s))
  }

  /** The tariffs this day is for. */
  ghost predicate Ruinous(s: Schedule) {
    s.Valid() && s.Slope() <= 1.0 && 0.0 < s.sttRate && !Prohibitive(s)
  }

  lemma {:induction false} TaxTakesIt(s: Schedule)
    requires s.Valid() && 0.0 < s.sttRate
    ensures 0.0 < Fallen(s) < MAX_ORDER && 0.0 < Loss(s) && 0.0 <= BuyCost(s, MAX_ORDER)
  {
    CostsGrow(s, MAX_ORDER, MAX_ORDER, 0.0, 0.0);
    TaxAlone(s, Fallen(s), MAX_ORDER);
    hide SellCost, BuyCost;
    MulPositive(Fallen(s) / 2.0, s.sttRate);
    MulAdd(Fallen(s) / 2.0, MAX_ORDER / 2.0, s.sttRate);
  }

  lemma {:induction false} TaxAlone(s: Schedule, n: real, basis: real)
    requires s.Valid() && 0.0 < n
    ensures SellCost(s, n, basis) >= (n + basis) / 2.0 * s.sttRate
  {
    LeviedBounds(s, n, 0.0);
    MulNonNegative(Levied(s, n), s.gstRate);
    hide Levied;
  }

  lemma {:induction false} RuinFits(s: Schedule)
    requires Ruinous(s)
    ensures RuinDay(s).Valid() && RuinRules(s).Valid() && Frictionless(RuinRules(s))
    ensures RuinRules(s).StopPrice(MAX_ORDER) == Fallen(s)
    ensures RuinRules(s).TargetPrice(MAX_ORDER) > RuinDay(s).range
  {
    TaxTakesIt(s);
    hide Loss, BuyCost;
  }

  /** Bought and kept: the peak rises with the close. */
  lemma {:induction false} HeldBit(r: Rules, bar: Candle, fires: bool, b: Book)
    requires Frictionless(r) && r.Valid() && Priced(r, bar) && b.pending.Some? && b.position.None?
    requires 0.0 < bar.low <= bar.open <= MAX_ORDER && bar.open + BuyCost(r.costs, bar.open) <= b.cash
    requires r.StopPrice(bar.open) < bar.low && bar.high < r.TargetPrice(bar.open)
    ensures
      var v, c := bar.open, b.cash - (bar.open + BuyCost(r.costs, bar.open));
      var after := Bit(r, bar, false, fires, b);
      && after.Ok? && after.value.trades == b.trades && after.value.pending.None?
      && after.value.position.Some? && after.value.position.value.entry == v && after.value.position.value.fee == BuyCost(r.costs, v)
      && after.value.cash == c && after.value.peak == Max(b.peak, c + bar.close)
      && after.value.drawdown == Max(b.drawdown, Ratio(b.peak - c - bar.low + SellCost(r.costs, bar.low, v), b.peak))
  {
    Bought(r, bar, b);
    Held(r, bar, AtOpen(r, bar, false, true, b).value);
    PlainPrices(r, bar.close);
    hide AtOpen, Manage, BuyCost, SellCost, Rules.StopPrice, Rules.TargetPrice, Frictionless, Rules.Valid, Ratio, Rules.Worth;
  }

  /** A kept position sold at its stop. */
  lemma {:induction false} SoldBit(r: Rules, bar: Candle, fires: bool, b: Book)
    requires Frictionless(r) && r.Valid() && Priced(r, bar) && b.pending.None? && b.position.Some?
    requires 0.0 < b.position.value.entry && 0.0 < bar.low <= r.StopPrice(b.position.value.entry) <= bar.open && bar.volume == 1
    ensures
      var p, x := b.position.value, r.StopPrice(b.position.value.entry);
      var after := Bit(r, bar, false, fires, b);
      && after.Ok? && after.value.position.None?
      && after.value.pending == (if fires then Some(bar.End()) else None)
      && after.value.cash == b.cash + (x - SellCost(r.costs, x, p.entry)) && after.value.peak == Max(b.peak, after.value.cash)
      && after.value.drawdown == Max(b.drawdown, Ratio(b.peak - b.cash - bar.low + SellCost(r.costs, bar.low, p.entry), b.peak))
      && |after.value.trades| == |b.trades| + 1 && after.value.trades[..|b.trades|] == b.trades
      && after.value.trades[|b.trades|].net == x - p.entry - p.fee - SellCost(r.costs, x, p.entry)
  {
    Stopped(r, bar, b);
    hide Manage, SellCost, Rules.StopPrice, Frictionless, Rules.Valid, Ratio;
  }

  /** After the first purchase the peak has risen above the capital. */
  lemma {:induction false} RuinHeld(s: Schedule) returns (held: Book)
    requires Ruinous(s)
    ensures Course(RuinRules(s), RuinDay(s), 5) == Ok(held)
    ensures held.trades == [] && held.pending.None? && held.position.Some?
    ensures held.position.value.entry == MAX_ORDER && held.position.value.fee == BuyCost(s, MAX_ORDER)
    ensures
      var k := RuinRules(s).settings.capital;
      && held.cash == MAX_ORDER + BuyCost(s, MAX_ORDER) + Loss(s) && k < held.peak
      && held.drawdown == Max(0.0, Ratio(k - held.cash - MAX_ORDER + SellCost(s, MAX_ORDER, MAX_ORDER), k))
  {
    var r, w := RuinRules(s), RuinDay(s);
    RuinFits(s);
    TaxTakesIt(s);
    hide Bit, BuyCost, SellCost, Schedule.Valid, Schedule.Slope, Rules.Valid, Frictionless, Rules.StopPrice, Rules.TargetPrice, Ratio, Loss, Fallen, Target;
    FirstBreakout(r, w);
    AllPriced(r, w, 4);
    HeldBit(r, CandleOf(w, 4), false, Course(r, w, 4).value);
    held := Course(r, w, 5).value;
  }

  lemma {:induction false} RuinCandles(s: Schedule, n: nat)
    requires 5 <= n <= 6
    ensures
      var bar := CandleOf(RuinDay(s), n);
      bar.open == MAX_ORDER && bar.low == Fallen(s) && bar.volume == 1 && (Breaks(RuinDay(s), n) <==> n == 5)
    ensures RuinRules(s).costs == s && RuinDay(s).date == s.effectiveFrom && n + 1 < LENGTH
  {
  }

  lemma {:induction false} NextBit(r: Rules, w: Day, n: nat)
    requires Course(r, w, n).Ok? && n + 1 < LENGTH
    ensures Course(r, w, n + 1) == Bit(r, CandleOf(w, n), false, Breaks(w, n), Course(r, w, n).value)
  {
    hide Bit, CandleOf, Breaks;
  }

  /** The first trade of the day. */
  lemma {:induction false} RuinSold(s: Schedule) returns (held: Book, sold: Book)
    requires Ruinous(s)
    ensures Course(RuinRules(s), RuinDay(s), 5) == Ok(held) && Course(RuinRules(s), RuinDay(s), 6) == Ok(sold)
    ensures sold.pending.Some? && sold.position.None? && |sold.trades| == 1
    ensures sold.trades[0].net == -Loss(s) - MAX_ORDER - BuyCost(s, MAX_ORDER)
    ensures sold.cash == MAX_ORDER + BuyCost(s, MAX_ORDER) && sold.peak == held.peak
    ensures sold.drawdown == Max(held.drawdown, Ratio(held.peak - (MAX_ORDER + BuyCost(s, MAX_ORDER)), held.peak))
  {
    hide *;
    var r, w, x := RuinRules(s), RuinDay(s), Fallen(s);
    RuinParts(s);
    held := RuinHeld(s);
    RuinCandles(s, 5);
    AllPriced(r, w, 5);
    NextBit(r, w, 5);
    SoldBit(r, CandleOf(w, 5), true, held);
    assert held.peak - held.cash - x + SellCost(s, x, MAX_ORDER) == held.peak - (MAX_ORDER + BuyCost(s, MAX_ORDER));
    RaisedPeak(held.peak, MAX_ORDER + BuyCost(s, MAX_ORDER));
    sold := Course(r, w, 6).value;
  }

  lemma {:induction false} RaisedPeak(peak: real, cash: real)
    requires cash <= peak
    ensures Max(peak, cash) == peak
  {
  }

  /** The facts about the day that its trades rest on. */
  lemma {:induction false} RuinParts(s: Schedule)
    requires Ruinous(s)
    ensures s.Valid() && RuinRules(s).Valid() && Frictionless(RuinRules(s)) && RuinRules(s).StopPrice(MAX_ORDER) == Fallen(s)
    ensures RuinRules(s).settings.capital == 2.0 * (MAX_ORDER + BuyCost(s, MAX_ORDER)) + Loss(s)
    ensures SellCost(s, Fallen(s), MAX_ORDER) == Fallen(s) + Loss(s)
    ensures 0.0 < Fallen(s) < MAX_ORDER && 0.0 < Loss(s) && 0.0 <= BuyCost(s, MAX_ORDER) && 0.0 < MAX_ORDER
  {
    RuinFits(s);
    TaxTakesIt(s);
    hide SellCost, BuyCost, Frictionless, Rules.StopPrice, Fallen;
  }

  /** The second trade takes the cash below zero. */
  lemma {:induction false} RuinTrades(s: Schedule) returns (held: Book, ended: Book)
    requires Ruinous(s)
    ensures Course(RuinRules(s), RuinDay(s), 5) == Ok(held) && Course(RuinRules(s), RuinDay(s), 7) == Ok(ended)
    ensures ended.pending.None? && ended.position.None? && |ended.trades| == 2
    ensures ended.trades[0].net == ended.trades[1].net == -Loss(s) - MAX_ORDER - BuyCost(s, MAX_ORDER)
    ensures ended.cash == -Loss(s) && ended.peak == held.peak
    ensures
      ended.drawdown ==
      Max(Max(held.drawdown, Ratio(held.peak - (MAX_ORDER + BuyCost(s, MAX_ORDER)), held.peak)),
          Ratio(held.peak + Loss(s), held.peak))
  {
    hide *;
    var r, w, x := RuinRules(s), RuinDay(s), Fallen(s);
    var sold;
    RuinParts(s);
    held, sold := RuinSold(s);
    var _ := RuinHeld(s);
    RuinCandles(s, 6);
    AllPriced(r, w, 6);
    NextBit(r, w, 6);
    RoundTrip(r, CandleOf(w, 6), false, sold);
    assert sold.peak - (sold.cash - (MAX_ORDER + BuyCost(s, MAX_ORDER))) - x + SellCost(s, x, MAX_ORDER) == sold.peak + Loss(s);
    ended := Course(r, w, 7).value;
    assert ended.trades[0] == ended.trades[..1][0] == sold.trades[0];
  }

  lemma {:induction false} RuinBreaks(s: Schedule)
    requires Ruinous(s)
    ensures RuinRules(s).Valid() && Broken(RuinRules(s), RuinDay(s))
  {
    hide *;
    var r, w, k, loss, spent := RuinRules(s), RuinDay(s), RuinRules(s).settings.capital, Loss(s), MAX_ORDER + BuyCost(s, MAX_ORDER);
    RuinParts(s);
    var held, ended := RuinTrades(s);
    var again := RuinHeld(s);
    IdleEnd(r, w);
    RuinKeepsMore(s);
    ClosedTwice(ended.trades, k);
    var p, marked := held.peak, k - held.cash - MAX_ORDER + SellCost(s, MAX_ORDER, MAX_ORDER);
    assert k - (k + ended.trades[0].net + ended.trades[1].net) == k + loss;
    ShareBelow(marked, k + loss, k);
    ShareBelow(p - spent, p + loss, p);
    HigherPeak(loss, k, p);
    RatioIs(marked, k);
    RatioIs(p - spent, p);
    RatioIs(p + loss, p);
    MaxBelow(0.0, marked / k, (k + loss) / k);
    MaxBelow(held.drawdown, (p - spent) / p, (k + loss) / k);
    MaxBelow(Max(held.drawdown, (p - spent) / p), (p + loss) / p, (k + loss) / k);
    BrokenBy(r, w, ended, (k + loss) / k);
  }

  lemma {:induction false} MaxBelow(a: real, b: real, c: real)
    requires a < c && b < c
    ensures Max(a, b) < c
  {
  }

  /** A sale at the purchase price loses no more than one at the stop. */
  lemma {:induction false} RuinKeepsMore(s: Schedule)
    requires Ruinous(s)
    ensures MAX_ORDER - SellCost(s, MAX_ORDER, MAX_ORDER) >= -Loss(s)
  {
    RuinParts(s);
    hide SellCost, Fallen, Loss, Schedule.Slope;
    ProceedsGrow(s, Fallen(s), MAX_ORDER, MAX_ORDER);
  }

  /** The same loss is a smaller share of a higher peak. */
  lemma {:induction false} HigherPeak(loss: real, low: real, high: real)
    requires 0.0 < loss && 0.0 < low < high
    ensures (high + loss) / high < (low + loss) / low
  {
    var a, b := (high + loss) / high, (low + loss) / low;
    Quotient(high + loss, high);
    Quotient(low + loss, low);
    if a >= b {
      MulMono(b, a, low);
      MulMono(low + loss, a * low, high);
      Swap(a, low, high);
      MulAdd(low, loss, high);
      MulAdd(high, loss, low);
      Commute(low, high);
      MulPositive(high - low, loss);
      MulSub(high, low, loss);
      Commute(loss, low);
      Commute(loss, high);
    }
  }

  // ----- exactly the mild tariffs -----

  /** An accepted day is run to its end. */
  lemma {:induction false} ExecutedDay(w: Day, d: Definition, r: Rules)
    requires w.Valid() && SeriesOf(w).Valid() && r.Valid() && d.stop == r.stop && d.target == r.target
    requires RunTo(r, d, AllTicks(SeriesOf(w)), |AllTicks(SeriesOf(w))|).Ok?
    ensures
      Executed(SeriesOf(w), d, r.settings, r.costs) ==
      Ok(ExecutionOf(r, RunTo(r, d, AllTicks(SeriesOf(w)), |AllTicks(SeriesOf(w))|).value))
  {
    DayComplete(w);
    RulesParts(r);
    hide RunTo, AllTicks, PriceSeries.Valid, Rules.Valid, Owed, Starts, Day.Valid, CandlesOf, ExecutionOf;
  }

  /** The causal executor running the opening-range rule over the day. */
  lemma {:induction false} BreaksCausal(r: Rules, w: Day)
    requires r.Valid() && Frictionless(r) && w.Valid() && Broken(r, w)
    ensures !MarkedBounds(SeriesOf(w), Definition(S06, r.stop, r.target, 1), r.settings, r.costs)
  {
    var d := Definition(S06, r.stop, r.target, 1);
    DayValid(w);
    DayTicks(w);
    RulesParts(r);
    hide Course, AllTicks, PriceSeries.Valid, Rules.Valid, ClosedDrawdown, Day.Valid, CandlesOf, Frictionless, Executed, SeriesOf, CandleOf, RunTo;
    RunFollows(r, d, w, AllTicks(SeriesOf(w)), LENGTH);
    ExecutedDay(w, d, r);
  }

  lemma {:induction false} RulesParts(r: Rules)
    ensures RulesOf(r.settings, r.costs, r.stop, r.target) == r
    ensures r.Valid() ==> r.settings.Valid() && 0.0 < r.stop < 1.0 && 0.0 < r.target < 1.0
  {
  }

  lemma {:induction false} SimulatedDay(w: Day, s: Strategy, r: Rules)
    requires w.Valid() && SeriesOf(w).Valid() && r.Valid() && s.Valid() && s.Permitted() && s.stop == r.stop && s.target == r.target
    requires OldRunTo(r, s, AllTicks(SeriesOf(w)), |AllTicks(SeriesOf(w))|).Ok?
    ensures
      var simulated, book := Simulated(SeriesOf(w), s, r.settings, r.costs), OldRunTo(r, s, AllTicks(SeriesOf(w)), |AllTicks(SeriesOf(w))|).value;
      && simulated.Ok? && simulated.value.drawdown == book.drawdown
      && simulated.value.metrics == MetricsOf(book.trades, r.settings.capital)
  {
    DayComplete(w);
    RulesParts(r);
    hide OldRunTo, AllTicks, PriceSeries.Valid, Rules.Valid, Owed, Starts, Day.Valid, CandlesOf, MetricsOf, Strategy.Valid;
  }

  /** The phase14 executor running a cross of the close over the day. */
  lemma {:induction false} BreaksPhase14(r: Rules, w: Day)
    requires r.Valid() && Frictionless(r) && w.Valid() && Broken(r, w)
    ensures !OldMarkedBounds(SeriesOf(w), Strategy(true, true, [LevelCross(w.range)], r.stop, r.target), r.settings, r.costs)
  {
    var s := Strategy(true, true, [LevelCross(w.range)], r.stop, r.target);
    DayValid(w);
    DayTicks(w);
    RulesParts(r);
    assert s.Valid() by { RangePositive(w); }
    hide Course, AllTicks, PriceSeries.Valid, Rules.Valid, ClosedDrawdown, Day.Valid, CandlesOf, Frictionless, Simulated, SeriesOf, CandleOf, OldRunTo, Strategy.Valid;
    OldRunFollows(r, s, w, AllTicks(SeriesOf(w)), LENGTH);
    SimulatedDay(w, s, r);
  }

  lemma {:induction false} RangePositive(w: Day)
    requires w.Valid()
    ensures 0.0 < w.range
  {
  }

  /** A tariff that is not mild breaks the bound on a day of its own. */
  lemma {:induction false} HarshTariffBreaks(costs: Schedule) returns (r: Rules, w: Day)
    requires costs.Valid() && !Mild(costs)
    ensures r.Valid() && Frictionless(r) && w.Valid() && Broken(r, w) && r.costs == costs
  {
    if costs.Slope() > 1.0 {
      SmallFits(costs);
      SteepBreaks(costs);
      return SteepRules(costs), SteepDay(costs);
    } else {
      RuinFits(costs);
      RuinBreaks(costs);
      return RuinRules(costs), RuinDay(costs);
    }
  }

  /** The causal executor's marked drawdown bounds the closed one on every series, for every definition
      and all settings, exactly when the tariff is mild. */
  lemma {:induction false} BoundExactlyUnderMildTariffs(costs: Schedule)
    requires costs.Valid()
    ensures (forall series, d, settings :: MarkedBounds(series, d, settings, costs)) <==> Mild(costs)
  {
    hide MarkedBounds, Mild, Broken, SeriesOf;
    if Mild(costs) {
      forall series, d, settings ensures MarkedBounds(series, d, settings, costs) { MildTariffBounds(series, d, settings, costs); }
    } else {
      var r, w := HarshTariffBreaks(costs);
      BreaksCausal(r, w);
    }
  }

  /** And so does the phase14 executor's. */
  lemma {:induction false} OldBoundExactlyUnderMildTariffs(costs: Schedule)
    requires costs.Valid()
    ensures (forall series, s, settings :: OldMarkedBounds(series, s, settings, costs)) <==> Mild(costs)
  {
    hide OldMarkedBounds, Mild, Broken, SeriesOf;
    if Mild(costs) {
      forall series, s, settings ensures OldMarkedBounds(series, s, settings, costs) { OldMildTariffBounds(series, s, settings, costs); }
    } else {
      var r, w := HarshTariffBreaks(costs);
      BreaksPhase14(r, w);
    }
  }

  /** A transaction tax alone, at its highest rate. */
  function TaxOnly(): Schedule { Schedule(0, 1, None, 0.0, 0.0, 1.0, 0.0, 0.0, 0.0, 0.0, 0.0) }

  lemma {:induction false} TaxOnlyCosts(n: real, basis: real)
    ensures BuyCost(TaxOnly(), n) == 0.0 && SellCost(TaxOnly(), n, basis) == (n + basis) / 2.0
  {
    assert Levied(TaxOnly(), n) == 0.0;
    hide Levied;
  }

  lemma {:induction false} TaxOnlyAmounts()
    ensures BuyCost(TaxOnly(), MAX_ORDER) == 0.0 && Fallen(TaxOnly()) == 2500.0 && Loss(TaxOnly()) == 3750.0
    ensures Ruinous(TaxOnly()) && !Mild(TaxOnly()) && TaxOnly().effectiveFrom == 0 && TaxOnly().sttRate == 1.0
  {
    TaxOnlyCosts(MAX_ORDER, MAX_ORDER);
    TaxOnlyCosts(2500.0, MAX_ORDER);
    hide BuyCost, SellCost;
  }

  lemma {:induction false} TaxOnlyDay()
    ensures RuinDay(TaxOnly()) == Day(0, 15000.0, 10000.0, true, 2500.0, 2500.0)
    ensures RuinRules(TaxOnly()) == Rules(Plain(23750.0), TaxOnly(), 0.75, 0.75)
  {
    TaxOnlyAmounts();
    hide BuyCost, Fallen, Loss, TaxOnly;
  }

  /** No fine amounts are needed: under the tax alone the day's prices and the capital are whole numbers, and both
      executors report a marked drawdown below the closed one. */
  lemma {:induction false} WholeAmountsSuffice()
    ensures !Mild(TaxOnly()) && TaxOnly().Valid()
    ensures
      var w, settings := Day(0, 15000.0, 10000.0, true, 2500.0, 2500.0), Plain(23750.0);
      && !MarkedBounds(SeriesOf(w), Definition(S06, 0.75, 0.75, 1), settings, TaxOnly())
      && !OldMarkedBounds(SeriesOf(w), Strategy(true, true, [LevelCross(15000.0)], 0.75, 0.75), settings, TaxOnly())
  {
    TaxOnlyAmounts();
    TaxOnlyDay();
    hide SeriesOf, MarkedBounds, OldMarkedBounds, Broken, TaxOnly, LevelCross, Mild, RuinDay, RuinRules;
    var r, w := RuinRules(TaxOnly()), RuinDay(TaxOnly());
    RuinFits(TaxOnly());
    RuinBreaks(TaxOnly());
    BreaksCausal(r, w);
    BreaksPhase14(r, w);
  }
}
