/** What a report of the one-minute engine says, told from the bars: every fill's price and cost, and for every
    intent why it was filled or not. */
module FillLaws {
  import opened Wrappers
  import opened Clock
  import opened RealFacts
  import opened Costs
  import opened Backtest
  import opened BacktestLaws
  import BacktestCausality

  // ----- a fill on its bar -----

  /** Slippage always costs: a purchase pays more than the open, a sale receives less. */
  function Paid(c: Config, side: Side, open: real): real {
    match side
    case BUY => open + open * (c.slippageBps / 10000.0)
    case SELL => open - open * (c.slippageBps / 10000.0)
  }

  function Gross(price: real, quantity: int): real { price * quantity as real }

  /** The cost of an order; a sale is charged on what was bought as well. */
  function CostOf(c: Config, side: Side, notional: real, bought: real): real {
    match c.costs
    case Configured(fixed, bps) => fixed + notional * bps / 10000.0
    case Tariff(s) => if side == BUY then BuyCost(s, notional) else SellCost(s, notional, bought)
  }

  /** A fill at the open of bar n, after slippage, at the tariff's cost; `before` is the fill before it. */
  ghost predicate FillOn(m: Market, c: Config, n: nat, f: Fill, before: Option<Fill>) {
    && n < |m.bars| && f.time == m.bars[n].start && f.reference == m.bars[n].open
    && f.price == Paid(c, f.side, f.reference) && f.notional == Gross(f.price, f.quantity)
    && 1 <= f.quantity && m.lotSize != 0 && f.quantity % m.lotSize == 0 && m.bars[n].volume != 0
    && f.costs == CostOf(c, f.side, f.notional, if before.Some? then before.value.notional else 0.0)
    && (f.side == BUY ==> c.entryStart <= TimeOfDay(f.time) <= c.lastEntry && (before.Some? ==> before.value.side == SELL))
    && (f.side == SELL ==> before.Some? && before.value.side == BUY && before.value.quantity == f.quantity)
    && (f.forced ==> f.side == SELL && TimeOfDay(f.time) == c.forcedExit)
  }

  function Prior(fills: seq<Fill>, i: int): Option<Fill> { if 0 < i <= |fills| then Some(fills[i - 1]) else None }

  ghost predicate FillTold(m: Market, c: Config, fills: seq<Fill>, i: int)
    requires 0 <= i < |fills|
  {
    exists n: nat :: FillOn(m, c, n, fills[i], Prior(fills, i))
  }

  // ----- an intent on its bar -----

  /** The position and the cash that the fills before an instant leave. */
  function HeldBy(fills: seq<Fill>, at: int): Option<Fill> {
    if fills == [] then None
    else if fills[|fills| - 1].time < at then (if fills[|fills| - 1].side == BUY then Some(fills[|fills| - 1]) else None)
    else HeldBy(fills[..|fills| - 1], at)
  }

  function CashBy(initial: real, fills: seq<Fill>, at: int): real {
    if fills == [] then initial
    else
      var f, before := fills[|fills| - 1], CashBy(initial, fills[..|fills| - 1], at);
      if f.time >= at then before else if f.side == BUY then before - (f.notional + f.costs) else before + (f.notional - f.costs)
  }

  /** What became of an intent at the open of bar n, and why: the first of the reasons that applies. */
  ghost predicate AnsweredOn(m: Market, c: Config, fills: seq<Fill>, n: nat, o: Outcome)
    requires 1 <= m.lotSize
  {
    n < |m.bars| && o.resolved == m.bars[n].start &&
    var bar, quantity, buys := m.bars[n], o.intent.quantity, o.intent.side == BUY;
    var held, cash := HeldBy(fills, bar.start), CashBy(c.initialCash, fills, bar.start);
    var notional := Gross(Paid(c, o.intent.side, bar.open), quantity);
    var cost := CostOf(c, o.intent.side, notional, if held.Some? then held.value.notional else 0.0);
    var whole, dry := quantity % m.lotSize == 0, bar.volume == 0;
    var inside := c.entryStart <= TimeOfDay(bar.start) <= c.lastEntry;
    var placed := whole && !dry && if buys then held.None? && inside else held.Some? && quantity == held.value.quantity;
    var paid := if buys then notional + cost <= cash else cost <= cash + notional;
    && (o.status == LOT_SIZE_VIOLATION <==> !whole)
    && (o.status == NO_EXECUTABLE_VOLUME <==> whole && dry)
    && (o.status == ALREADY_LONG <==> whole && !dry && buys && held.Some?)
    && (o.status == OUTSIDE_ENTRY_WINDOW <==> whole && !dry && buys && held.None? && !inside)
    && (o.status == OVERSELL <==> whole && !dry && !buys && (held.None? || quantity > held.value.quantity))
    && (o.status == PARTIAL_EXIT_UNSUPPORTED <==> whole && !dry && !buys && held.Some? && quantity < held.value.quantity)
    && (o.status == INSUFFICIENT_CASH <==> placed && !paid)
    && (o.status == FILLED <==> placed && paid)
  }

  /** Pushed aside by the forced exit of an open position. */
  ghost predicate SupersededOn(m: Market, c: Config, fills: seq<Fill>, n: nat, o: Outcome) {
    && n < |m.bars| && o.resolved == m.bars[n].start && o.status == SUPERSEDED_BY_FORCED_EXIT
    && TimeOfDay(m.bars[n].start) == c.forcedExit && HeldBy(fills, m.bars[n].start).Some?
  }

  /** Lapsed with its session, whose last bar is n. */
  ghost predicate LapsedOn(m: Market, n: nat, o: Outcome) {
    && n < |m.bars| && o.resolved == m.bars[n].start + 1
    && o.status == (if n == |m.bars| - 1 then UNFILLED_END_OF_DATA else UNFILLED_SESSION_END)
    && (n == |m.bars| - 1 || DateOf(m.bars[n].start) != DateOf(m.bars[n + 1].start))
  }

  ghost predicate OutcomeTold(m: Market, c: Config, fills: seq<Fill>, o: Outcome)
    requires 1 <= m.lotSize
  {
    exists n: nat :: AnsweredOn(m, c, fills, n, o) || SupersededOn(m, c, fills, n, o) || LapsedOn(m, n, o)
  }

  // ----- what a desk keeps -----

  /** The desk's position and cash are those of its fills, which lie before an instant. */
  ghost predicate Booked(c: Config, desk: Desk, at: int) {
    && (forall f :: f in desk.fills ==> f.time < at)
    && desk.entry == HeldBy(desk.fills, at) && desk.cash == CashBy(c.initialCash, desk.fills, at)
    && (desk.entry.None? && desk.fills != [] ==> desk.fills[|desk.fills| - 1].side == SELL)
    && (desk.entry.Some? ==> desk.fills != [] && desk.fills[|desk.fills| - 1] == desk.entry.value)
    && (desk.pending.Some? ==> 1 <= desk.pending.value.intent.quantity)
  }

  ghost predicate AllTold(m: Market, c: Config, desk: Desk)
    requires 1 <= m.lotSize
  {
    && (forall i :: 0 <= i < |desk.fills| ==> FillTold(m, c, desk.fills, i))
    && (forall o :: o in desk.outcomes ==> OutcomeTold(m, c, desk.fills, o))
  }

  /** A later fill changes nothing before it. */
  lemma {:induction false} LaterFill(c: Config, fills: seq<Fill>, f: Fill, at: int)
    requires f.time >= at
    ensures HeldBy(fills + [f], at) == HeldBy(fills, at) && CashBy(c.initialCash, fills + [f], at) == CashBy(c.initialCash, fills, at)
  {
    assert (fills + [f])[..|fills|] == fills;
  }

  lemma {:induction false} NextFill(c: Config, fills: seq<Fill>, f: Fill, at: int)
    requires f.time < at
    ensures HeldBy(fills + [f], at) == if f.side == BUY then Some(f) else None
    ensures CashBy(c.initialCash, fills + [f], at) ==
      CashBy(c.initialCash, fills, at) + if f.side == BUY then -(f.notional + f.costs) else f.notional - f.costs
  {
    assert (fills + [f])[..|fills|] == fills;
  }

  lemma {:induction false} TimePasses(c: Config, fills: seq<Fill>, at: int, later: int)
    requires at <= later && forall f :: f in fills ==> f.time < at
    ensures HeldBy(fills, later) == HeldBy(fills, at) && CashBy(c.initialCash, fills, later) == CashBy(c.initialCash, fills, at)
  {
    if fills != [] {
      assert fills[|fills| - 1] in fills;
      assert forall f :: f in fills[..|fills| - 1] ==> f in fills;
      TimePasses(c, fills[..|fills| - 1], at, later);
    }
  }

  lemma {:induction false} BookedLater(c: Config, desk: Desk, at: int, later: int)
    requires Booked(c, desk, at) && at <= later
    ensures Booked(c, desk, later)
  {
    TimePasses(c, desk.fills, at, later);
    hide HeldBy, CashBy;
  }

  /** What is told stays told when fills are appended that are no earlier than what was told. */
  lemma {:induction false} OutcomeStays(m: Market, c: Config, fills: seq<Fill>, f: Fill, o: Outcome, at: int)
    requires 1 <= m.lotSize && OutcomeTold(m, c, fills, o) && o.resolved <= at <= f.time
    ensures OutcomeTold(m, c, fills + [f], o)
  {
    hide HeldBy, CashBy, Paid, Gross, CostOf;
    var n: nat :| AnsweredOn(m, c, fills, n, o) || SupersededOn(m, c, fills, n, o) || LapsedOn(m, n, o);
    if !LapsedOn(m, n, o) { LaterFill(c, fills, f, m.bars[n].start); }
    assert AnsweredOn(m, c, fills + [f], n, o) || SupersededOn(m, c, fills + [f], n, o) || LapsedOn(m, n, o);
  }

  lemma {:induction false} FillsStay(m: Market, c: Config, fills: seq<Fill>, f: Fill, n: nat)
    requires forall i :: 0 <= i < |fills| ==> FillTold(m, c, fills, i)
    requires FillOn(m, c, n, f, Prior(fills, |fills|))
    ensures forall i :: 0 <= i < |fills| + 1 ==> FillTold(m, c, fills + [f], i)
  {
    hide FillOn;
    var all := fills + [f];
    forall i | 0 <= i < |all| ensures FillTold(m, c, all, i) {
      if i < |fills| {
        assert FillTold(m, c, fills, i);
        var k: nat :| FillOn(m, c, k, fills[i], Prior(fills, i));
        assert all[i] == fills[i] && Prior(all, i) == Prior(fills, i);
        assert FillOn(m, c, k, all[i], Prior(all, i));
      } else {
        assert all[i] == f && Prior(all, i) == Prior(fills, |fills|);
        assert FillOn(m, c, n, all[i], Prior(all, i));
      }
    }
  }

  // ----- the open of a bar -----

  lemma {:induction false} SameAmounts(c: Config, side: Side, open: real, quantity: int)
    ensures Adverse(c, side, open) == Paid(c, side, open) && Value(Adverse(c, side, open), quantity) == Gross(Paid(c, side, open), quantity)
  {
  }

  lemma {:induction false} SameCost(c: Config, side: Side, notional: real, at: int, entry: Option<Fill>)
    requires ChargeFor(c, side, notional, at, entry, false).Ok?
    ensures ChargeFor(c, side, notional, at, entry, false).value == CostOf(c, side, notional, if entry.Some? then entry.value.notional else 0.0)
  {
    if c.costs.Tariff? {
      FeeOf(c.costs.schedule, side, notional, at, if entry.Some? then Some(entry.value.notional) else None);
      hide Fee, BuyCost, SellCost;
    }
  }

  /** The amounts of an order at the open of a bar. */
  function Owing(c: Config, bar: Bar, held: Option<Fill>, intent: Intent): (real, real) {
    var notional := Gross(Paid(c, intent.side, bar.open), intent.quantity);
    (notional, CostOf(c, intent.side, notional, if held.Some? then held.value.notional else 0.0))
  }

  function Expected(c: Config, bar: Bar, forced: bool, held: Option<Fill>, p: Pending): Fill {
    var (notional, cost) := Owing(c, bar, held, p.intent);
    Fill(p.id, p.intent.side, p.intent.quantity, bar.start, bar.open, Paid(c, p.intent.side, bar.open), notional, cost, forced)
  }

  /** A filled intent is one new fill; any other leaves fills, position and cash alone. */
  lemma {:induction false} ResolveTold(m: Market, c: Config, bar: Bar, forced: bool, desk: Desk)
    requires 1 <= m.lotSize && desk.pending.Some? && Resolve(m, c, bar, forced, desk).Ok?
    ensures
      var after, p := Resolve(m, c, bar, forced, desk).value, desk.pending.value;
      var (notional, cost) := Owing(c, bar, desk.entry, p.intent);
      && |after.outcomes| == |desk.outcomes| + 1 && after.outcomes[..|desk.outcomes|] == desk.outcomes && after.pending.None?
      && var o := after.outcomes[|desk.outcomes|];
      && o.resolved == bar.start && o.intent == p.intent
      && (o.status == FILLED <==> Rejection(m, c, bar, desk.entry, p.intent).None? && !Unaffordable(p.intent.side, desk.cash, notional, cost))
      && (o.status == INSUFFICIENT_CASH <==> Rejection(m, c, bar, desk.entry, p.intent).None? && Unaffordable(p.intent.side, desk.cash, notional, cost))
      && (Rejection(m, c, bar, desk.entry, p.intent).Some? ==> o.status == Rejection(m, c, bar, desk.entry, p.intent).value)
      && (o.status != FILLED ==> after.fills == desk.fills && after.entry == desk.entry && after.cash == desk.cash)
      && (o.status == FILLED ==>
            var f := Expected(c, bar, forced, desk.entry, p);
            && after.fills == desk.fills + [f]
            && after.entry == (if f.side == BUY then Some(f) else None)
            && after.cash == desk.cash + (if f.side == BUY then -(f.notional + f.costs) else f.notional - f.costs))
  {
    var intent := desk.pending.value.intent;
    SameAmounts(c, intent.side, bar.open, intent.quantity);
    hide Adverse, Value, Paid, Gross, CostOf, ChargeFor;
    if Rejection(m, c, bar, desk.entry, intent).None? {
      SameCost(c, intent.side, Value(Adverse(c, intent.side, bar.open), intent.quantity), bar.start, desk.entry);
    }
  }

  lemma {:induction false} Answered(m: Market, c: Config, fills: seq<Fill>, n: nat, o: Outcome, desk: Desk)
    requires 1 <= m.lotSize && n < |m.bars| && o.resolved == m.bars[n].start
    requires desk.entry == HeldBy(fills, m.bars[n].start) && desk.cash == CashBy(c.initialCash, fills, m.bars[n].start)
    requires
      var (notional, cost) := Owing(c, m.bars[n], desk.entry, o.intent);
      var early := Rejection(m, c, m.bars[n], desk.entry, o.intent);
      && (o.status == FILLED <==> early.None? && !Unaffordable(o.intent.side, desk.cash, notional, cost))
      && (o.status == INSUFFICIENT_CASH <==> early.None? && Unaffordable(o.intent.side, desk.cash, notional, cost))
      && (early.Some? ==> o.status == early.value)
    ensures AnsweredOn(m, c, fills, n, o)
  {
    hide HeldBy, CashBy, Paid, Gross, CostOf;
  }

  lemma {:induction false} FilledOn(m: Market, c: Config, n: nat, forced: bool, desk: Desk, o: Outcome)
    requires 1 <= m.lotSize && n < |m.bars| && desk.pending.Some? && 1 <= desk.pending.value.intent.quantity
    requires Rejection(m, c, m.bars[n], desk.entry, desk.pending.value.intent).None?
    requires desk.entry.Some? ==> desk.fills != [] && desk.fills[|desk.fills| - 1] == desk.entry.value && desk.entry.value.side == BUY
    requires desk.entry.None? && desk.fills != [] ==> desk.fills[|desk.fills| - 1].side == SELL
    requires forced ==> TimeOfDay(m.bars[n].start) == c.forcedExit && desk.pending.value.intent.side == SELL
    ensures FillOn(m, c, n, Expected(c, m.bars[n], forced, desk.entry, desk.pending.value), Prior(desk.fills, |desk.fills|))
  {
    hide Paid, Gross;
    CostIgnores(c, desk.pending.value.intent.side, Gross(Paid(c, desk.pending.value.intent.side, m.bars[n].open), desk.pending.value.intent.quantity), 0.0, 1.0);
    var intent := desk.pending.value.intent;
    var notional := Gross(Paid(c, intent.side, m.bars[n].open), intent.quantity);
    if intent.side == BUY && desk.fills != [] {
      CostIgnores(c, BUY, notional, 0.0, desk.fills[|desk.fills| - 1].notional);
    }
    hide CostOf;
  }

  /** The cost of a purchase does not depend on any earlier amount. */
  lemma {:induction false} CostIgnores(c: Config, side: Side, notional: real, a: real, b: real)
    ensures side == BUY ==> CostOf(c, side, notional, a) == CostOf(c, side, notional, b)
  {
    hide BuyCost, SellCost;
  }

  /** What the open of bar n does to what has been told. */
  lemma {:induction false} OpenTold(m: Market, c: Config, n: nat, desk: Desk)
    requires 1 <= m.lotSize && n < |m.bars| && AllTold(m, c, desk) && Booked(c, desk, m.bars[n].start)
    requires forall o :: o in desk.outcomes ==> o.resolved <= m.bars[n].start
    requires AtOpen(m, c, m.bars[n], desk).Ok?
    ensures
      var after := AtOpen(m, c, m.bars[n], desk).value;
      && AllTold(m, c, after) && Booked(c, after, m.bars[n].start + 1) && after.pending.None?
      && forall o :: o in after.outcomes ==> o.resolved <= m.bars[n].start
  {
    hide AllTold, Booked, Resolve;
    var bar, ready, forced := m.bars[n], Force(c, m.bars[n], desk), Forced(c, m.bars[n], desk);
    ForceTold(m, c, n, desk);
    if ready.pending.Some? {
      assert forced ==> TimeOfDay(bar.start) == c.forcedExit && ready.pending.value.intent.side == SELL;
      hide Force, Forced;
      SettledTold(m, c, n, forced, ready);
    } else {
      BookedLater(c, desk, bar.start, bar.start + 1);
      assert ready == desk;
    }
  }

  lemma {:induction false} ForceTold(m: Market, c: Config, n: nat, desk: Desk)
    requires 1 <= m.lotSize && n < |m.bars| && AllTold(m, c, desk) && Booked(c, desk, m.bars[n].start)
    requires forall o :: o in desk.outcomes ==> o.resolved <= m.bars[n].start
    ensures AllTold(m, c, Force(c, m.bars[n], desk)) && Booked(c, Force(c, m.bars[n], desk), m.bars[n].start)
    ensures forall o :: o in Force(c, m.bars[n], desk).outcomes ==> o.resolved <= m.bars[n].start
  {
    hide FillTold, HeldBy, CashBy;
    var after := Force(c, m.bars[n], desk);
    assert Booked(c, after, m.bars[n].start) by { HeldPositive(m, c, desk); }
    forall o | o in after.outcomes ensures OutcomeTold(m, c, after.fills, o) {
      if o !in desk.outcomes { assert SupersededOn(m, c, desk.fills, n, o); }
    }
  }

  /** Held quantities are positive, as each of them was filled. */
  lemma {:induction false} HeldPositive(m: Market, c: Config, desk: Desk)
    requires 1 <= m.lotSize && AllTold(m, c, desk)
    ensures desk.fills != [] ==> 1 <= desk.fills[|desk.fills| - 1].quantity
  {
    if desk.fills != [] { assert FillTold(m, c, desk.fills, |desk.fills| - 1); }
  }

  lemma {:induction false} SettledTold(m: Market, c: Config, n: nat, forced: bool, desk: Desk)
    requires 1 <= m.lotSize && n < |m.bars| && AllTold(m, c, desk) && Booked(c, desk, m.bars[n].start) && desk.pending.Some?
    requires forall o :: o in desk.outcomes ==> o.resolved <= m.bars[n].start
    requires forced ==> TimeOfDay(m.bars[n].start) == c.forcedExit && desk.pending.value.intent.side == SELL
    requires Resolve(m, c, m.bars[n], forced, desk).Ok?
    ensures
      var after := Resolve(m, c, m.bars[n], forced, desk).value;
      && AllTold(m, c, after) && Booked(c, after, m.bars[n].start + 1) && after.pending.None?
      && forall o :: o in after.outcomes ==> o.resolved <= m.bars[n].start
  {
    var bar, after := m.bars[n], Resolve(m, c, m.bars[n], forced, desk).value;
    ResolveTold(m, c, bar, forced, desk);
    hide Resolve, Rejection, Unaffordable, Owing, Expected, HeldBy, CashBy, FillTold, OutcomeTold, FillOn, AnsweredOn;
    var o := after.outcomes[|desk.outcomes|];
    assert after.outcomes == desk.outcomes + [o];
    BookedFacts(c, desk, bar.start);
    if o.status == FILLED {
      var f := Expected(c, bar, forced, desk.entry, desk.pending.value);
      FilledOn(m, c, n, forced, desk, o);
      ExpectedFacts(c, bar, forced, desk.entry, desk.pending.value);
      FillsStay(m, c, desk.fills, f, n);
      LaterFill(c, desk.fills, f, bar.start);
      Answered(m, c, after.fills, n, o, desk);
      OutcomesStay(m, c, desk.fills, f, n, desk.outcomes, o);
      FilledBooked(c, desk, after, f, bar.start);
    } else {
      Answered(m, c, desk.fills, n, o, desk);
      AnsweredIsTold(m, c, desk.fills, n, o);
      BookedLater(c, desk, bar.start, bar.start + 1);
    }
  }

  lemma {:induction false} OutcomesStay(m: Market, c: Config, fills: seq<Fill>, f: Fill, n: nat, os: seq<Outcome>, o: Outcome)
    requires 1 <= m.lotSize && n < |m.bars| && f.time == m.bars[n].start && AnsweredOn(m, c, fills + [f], n, o)
    requires forall q :: q in os ==> OutcomeTold(m, c, fills, q) && q.resolved <= m.bars[n].start
    ensures forall q :: q in os + [o] ==> OutcomeTold(m, c, fills + [f], q)
  {
    hide OutcomeTold, AnsweredOn;
    AnsweredIsTold(m, c, fills + [f], n, o);
    forall q | q in os ensures OutcomeTold(m, c, fills + [f], q) { OutcomeStays(m, c, fills, f, q, m.bars[n].start); }
  }

  lemma {:induction false} AnsweredIsTold(m: Market, c: Config, fills: seq<Fill>, n: nat, o: Outcome)
    requires 1 <= m.lotSize && AnsweredOn(m, c, fills, n, o)
    ensures OutcomeTold(m, c, fills, o)
  {
    hide AnsweredOn;
  }

  lemma {:induction false} ExpectedFacts(c: Config, bar: Bar, forced: bool, held: Option<Fill>, p: Pending)
    ensures Expected(c, bar, forced, held, p).time == bar.start && Expected(c, bar, forced, held, p).side == p.intent.side
  {
    hide Owing, Paid;
  }

  lemma {:induction false} BookedFacts(c: Config, desk: Desk, at: int)
    requires Booked(c, desk, at)
    ensures desk.entry == HeldBy(desk.fills, at) && desk.cash == CashBy(c.initialCash, desk.fills, at)
    ensures desk.entry.Some? ==> desk.fills != [] && desk.fills[|desk.fills| - 1] == desk.entry.value && desk.entry.value.side == BUY
    ensures desk.entry.None? && desk.fills != [] ==> desk.fills[|desk.fills| - 1].side == SELL
    ensures desk.pending.Some? ==> 1 <= desk.pending.value.intent.quantity
  {
    HeldIsBought(desk.fills, at);
    hide CashBy;
  }

  lemma {:induction false} HeldIsBought(fills: seq<Fill>, at: int)
    ensures HeldBy(fills, at).Some? ==> HeldBy(fills, at).value.side == BUY
  {
    if fills != [] { HeldIsBought(fills[..|fills| - 1], at); }
  }

  lemma {:induction false} FilledBooked(c: Config, desk: Desk, after: Desk, f: Fill, at: int)
    requires Booked(c, desk, at) && f.time == at && after.fills == desk.fills + [f] && after.pending.None?
    requires after.entry == (if f.side == BUY then Some(f) else None)
    requires after.cash == desk.cash + (if f.side == BUY then -(f.notional + f.costs) else f.notional - f.costs)
    ensures Booked(c, after, at + 1)
  {
    TimePasses(c, desk.fills, at, at + 1);
    NextFill(c, desk.fills, f, at + 1);
    hide HeldBy, CashBy;
  }

  // ----- the rest of a bar, and whole runs -----

  /** Marking, proposing and closing touch no fill, and let at most one intent lapse. */
  lemma {:induction false} AfterChanges(m: Market, c: Config, s: Strategy, n: nat, desk: Desk)
    requires n < |m.bars| && AfterOpen(m, c, s, n, desk).Ok? && desk.pending.None?
    ensures
      var after := AfterOpen(m, c, s, n, desk).value;
      && after.fills == desk.fills && after.entry == desk.entry && after.cash == desk.cash
      && (after.pending.Some? ==> 1 <= after.pending.value.intent.quantity)
      && (after.outcomes == desk.outcomes ||
          (|after.outcomes| == |desk.outcomes| + 1 && after.outcomes[..|desk.outcomes|] == desk.outcomes &&
           LapsedOn(m, n, after.outcomes[|desk.outcomes|])))
  {
    hide Value, Context, SessionStart;
  }

  lemma {:induction false} StepTold(m: Market, c: Config, s: Strategy, n: nat, desk: Desk)
    requires 1 <= m.lotSize && n < |m.bars| && AllTold(m, c, desk) && Booked(c, desk, m.bars[n].start)
    requires forall o :: o in desk.outcomes ==> o.resolved <= m.bars[n].start
    requires Step(m, c, s, n, desk).Ok?
    ensures
      var after := Step(m, c, s, n, desk).value;
      && AllTold(m, c, after) && Booked(c, after, m.bars[n].start + 1) && forall o :: o in after.outcomes ==> o.resolved <= m.bars[n].start + 1
  {
    hide Step, AtOpen, AfterOpen, FillTold, HeldBy, CashBy, LapsedOn;
    StepSplits(m, c, s, n, desk);
    OpenTold(m, c, n, desk);
    var settled, after := AtOpen(m, c, m.bars[n], desk).value, Step(m, c, s, n, desk).value;
    AfterChanges(m, c, s, n, settled);
    forall o | o in after.outcomes ensures OutcomeTold(m, c, after.fills, o) && o.resolved <= m.bars[n].start + 1 {
      if o !in settled.outcomes {
        assert after.outcomes == settled.outcomes + [after.outcomes[|settled.outcomes|]];
        LapsedAt(m, n, o);
      }
    }
  }

  lemma {:induction false} LapsedAt(m: Market, n: nat, o: Outcome)
    requires LapsedOn(m, n, o)
    ensures n < |m.bars| && o.resolved == m.bars[n].start + 1
  {
  }

  lemma {:induction false} RunTold(m: Market, c: Config, s: Strategy, n: nat, at: int)
    requires m.Valid() && n <= |m.bars| && RunTo(m, c, s, n).Ok? && (n < |m.bars| ==> at == m.bars[n].start)
    requires n > 0 ==> m.bars[n - 1].start < at
    ensures 1 <= m.lotSize && AllTold(m, c, RunTo(m, c, s, n).value)
    ensures Booked(c, RunTo(m, c, s, n).value, at) && forall o :: o in RunTo(m, c, s, n).value.outcomes ==> o.resolved <= at
  {
    hide Step, AllTold, Booked, Market.Valid;
    BacktestCausality.LotsPositive(m);
    if n == 0 {
      OpeningTold(m, c, at);
    } else {
      if n > 1 { BacktestCausality.BarsAdvance(m, n - 2, n - 1); }
      RunTold(m, c, s, n - 1, m.bars[n - 1].start);
      StepTold(m, c, s, n - 1, RunTo(m, c, s, n - 1).value);
      BookedLater(c, RunTo(m, c, s, n).value, m.bars[n - 1].start + 1, at);
    }
  }

  lemma {:induction false} OpeningTold(m: Market, c: Config, at: int)
    requires 1 <= m.lotSize
    ensures AllTold(m, c, Opening(c)) && Booked(c, Opening(c), at)
  {
  }

  // ----- results -----

  /** Every fill of a report is made at the open of a bar with volume, after slippage against the order, for whole lots and at
      the configured cost; purchases and sales alternate in equal quantities, purchases inside the entry window, forced
      sales at the forced-exit minute. Every outcome is told by its bar: why an intent was filled, refused, superseded or
      left to lapse, on the position and the cash that the fills before it leave. */
  lemma {:induction false} ReportsAreTold(m: Market, c: Config, s: Strategy)
    requires m.Valid() && c.Valid() && Ran(m, c, s).Ok?
    ensures 1 <= m.lotSize
    ensures
      var r := Ran(m, c, s).value;
      && (forall i :: 0 <= i < |r.fills| ==> FillTold(m, c, r.fills, i))
      && (forall o :: o in r.outcomes ==> OutcomeTold(m, c, r.fills, o))
  {
    hide RunTo, SumCosts, SumGross, Drawdown, FillTold, OutcomeTold;
    RunTold(m, c, s, |m.bars|, m.bars[|m.bars| - 1].start + 1);
  }

  /** Slippage never helps: a purchase is priced at or above the open of its bar and a sale at or below it, by exactly the
      configured basis points, and strictly so when there are any. */
  lemma {:induction false} SlippageIsAdverse(m: Market, c: Config, s: Strategy, f: Fill)
    requires m.Valid() && c.Valid() && Ran(m, c, s).Ok? && f in Ran(m, c, s).value.fills
    ensures exists n :: 0 <= n < |m.bars| && m.bars[n].start == f.time && m.bars[n].open == f.reference
    ensures f.side == BUY ==> f.reference <= f.price && f.price - f.reference == f.reference * (c.slippageBps / 10000.0)
    ensures f.side == SELL ==> f.price <= f.reference && f.reference - f.price == f.reference * (c.slippageBps / 10000.0)
    ensures c.slippageBps > 0.0 ==> f.price != f.reference
  {
    hide Ran, FillOn, Config.Valid, Market.Valid;
    ReportsAreTold(m, c, s);
    var fills := Ran(m, c, s).value.fills;
    var i :| 0 <= i < |fills| && fills[i] == f;
    assert FillTold(m, c, fills, i);
    var n: nat :| FillOn(m, c, n, f, Prior(fills, i));
    FillAdverse(m, c, n, f, Prior(fills, i));
  }

  lemma {:induction false} FillAdverse(m: Market, c: Config, n: nat, f: Fill, before: Option<Fill>)
    requires m.Valid() && c.Valid() && FillOn(m, c, n, f, before)
    ensures n < |m.bars| && m.bars[n].start == f.time && m.bars[n].open == f.reference
    ensures f.side == BUY ==> f.reference <= f.price && f.price - f.reference == f.reference * (c.slippageBps / 10000.0)
    ensures f.side == SELL ==> f.price <= f.reference && f.reference - f.price == f.reference * (c.slippageBps / 10000.0)
    ensures c.slippageBps > 0.0 ==> f.price != f.reference
  {
    assert m.bars[n] in m.bars && m.bars[n].Valid();
    var share := c.slippageBps / 10000.0;
    assert 0.0 <= share && (c.slippageBps > 0.0 ==> share > 0.0);
    hide Market.Valid, CostOf, Gross;
    MulNonNegative(f.reference, share);
    if share > 0.0 { MulPositive(f.reference, share); }
  }
}
