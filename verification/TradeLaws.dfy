/** What each trade of either executor is: on which candle it was entered and left, why, at what price and
    for what cost, told from the candles alone. */
module TradeLaws {
  import opened Wrappers
  import opened Clock
  import opened RealFacts
  import opened Costs
  import opened Series
  import opened Strategies
  import opened Executor
  import ExecutionOrder

  // ----- a trade on its candles -----

  /** The candle falls to the stop level of an entry, or rises to its target. */
  predicate Stops(r: Rules, entry: real, bar: Candle) { bar.low <= entry * (1.0 - r.stop) }

  predicate Aims(r: Rules, entry: real, bar: Candle) { bar.high >= entry * (1.0 + r.target) }

  /** Bought at the open of candle m, which is not its session's first, after slippage. */
  ghost predicate EnteredOn(r: Rules, ticks: seq<Tick>, m: nat, at: int, entry: real) {
    && 0 < m < |ticks| && ticks[m].origin < m && at == ticks[m].bar.start
    && entry == ticks[m].bar.open * (1.0 + r.settings.slippageBps / 10000.0)
  }

  /** From candle m to just before x nothing reached a level, and the session went on. */
  ghost predicate Rides(r: Rules, ticks: seq<Tick>, m: nat, x: nat, entry: real)
    requires x <= |ticks|
  {
    forall k :: m <= k < x ==> !Stops(r, entry, ticks[k].bar) && !Aims(r, entry, ticks[k].bar) && !ticks[k].Last()
  }

  /** Candle x is the first on which an entry of candle m had to be left, and this is why: the stop comes
      before the target, and the session's end after both. */
  ghost predicate LeftOn(r: Rules, ticks: seq<Tick>, m: nat, x: nat, entry: real, reason: Reason) {
    && m <= x < |ticks| && ticks[x].origin == ticks[m].origin && Rides(r, ticks, m, x, entry)
    && (reason == STOP <==> Stops(r, entry, ticks[x].bar))
    && (reason == TARGET <==> !Stops(r, entry, ticks[x].bar) && Aims(r, entry, ticks[x].bar))
    && (reason == EOD ==> ticks[x].Last())
  }

  /** The price before slippage at which a candle is left: a stop gapped over sells at the open. */
  function Quoted(r: Rules, entry: real, bar: Candle, reason: Reason): real {
    match reason
    case STOP => Min(entry * (1.0 - r.stop), bar.open)
    case TARGET => entry * (1.0 + r.target)
    case EOD => bar.close
  }

  function Amount(r: Rules, price: real): real { price * r.settings.quantity as real }

  /** Everything a trade records. */
  ghost predicate TradeOn(r: Rules, ticks: seq<Tick>, m: nat, x: nat, t: Trade) {
    && EnteredOn(r, ticks, m, t.entryAt, t.entry) && LeftOn(r, ticks, m, x, t.entry, t.reason)
    && t.signalAt == t.entryAt && t.exitAt == ticks[x].bar.start + FIVE && t.quantity == r.settings.quantity
    && t.exit == Quoted(r, t.entry, ticks[x].bar, t.reason) * (1.0 - r.settings.slippageBps / 10000.0)
    && ticks[x].bar.volume as real * r.settings.participation >= r.settings.quantity as real
    && t.gross == Amount(r, t.exit) - Amount(r, t.entry)
    && t.fees == BuyCost(r.costs, Amount(r, t.entry)) + SellCost(r.costs, Amount(r, t.exit), Amount(r, t.entry))
    && t.net == t.gross - t.fees
  }

  /** A position whose exit candle could not absorb it. */
  ghost predicate UnresolvedOn(r: Rules, ticks: seq<Tick>, m: nat, x: nat, u: Unresolved) {
    && EnteredOn(r, ticks, m, u.entryAt, u.entry) && LeftOn(r, ticks, m, x, u.entry, u.reason)
    && u.signalAt == u.entryAt && u.exitAt == ticks[x].bar.start + FIVE && u.quantity == r.settings.quantity
    && ticks[x].bar.volume as real * r.settings.participation < r.settings.quantity as real
  }

  ghost predicate TradeTold(r: Rules, ticks: seq<Tick>, n: nat, t: Trade) {
    exists m: nat, x: nat :: x < n && TradeOn(r, ticks, m, x, t)
  }

  ghost predicate UnresolvedTold(r: Rules, ticks: seq<Tick>, n: nat, u: Unresolved) {
    exists m: nat, x: nat :: x < n && UnresolvedOn(r, ticks, m, x, u)
  }

  // ----- what a book keeps from candle to candle -----

  /** A position entered on candle m that nothing has touched before candle n of the same session. */
  ghost predicate Riding(r: Rules, ticks: seq<Tick>, n: nat, p: Position, m: nat) {
    && m < |ticks| && n <= |ticks| && EnteredOn(r, ticks, m, p.entered, p.entry) && p.decided == p.entered
    && p.fee == BuyCost(r.costs, Amount(r, p.entry)) && Rides(r, ticks, m, n, p.entry)
  }

  ghost predicate Carried(r: Rules, ticks: seq<Tick>, n: nat, p: Position)
    requires n < |ticks|
  {
    exists m: nat :: m <= n && ticks[m].origin == ticks[n].origin && Riding(r, ticks, n, p, m)
  }

  ghost predicate AllTold(r: Rules, ticks: seq<Tick>, n: nat, trades: seq<Trade>) {
    forall t :: t in trades ==> TradeTold(r, ticks, n, t)
  }

  /** Before candle n: trades told, an order only for this very open, a position only carried into it, and
      neither when a session starts. */
  ghost predicate Ready(r: Rules, ticks: seq<Tick>, n: nat, b: Book)
    requires n <= |ticks|
  {
    && AllTold(r, ticks, n, b.trades)
    && (b.pending.Some? ==> b.position.None? && n > 0 && !ticks[n - 1].Last() && b.pending.value == ticks[n - 1].bar.End())
    && (b.position.Some? ==> n > 0 && !ticks[n - 1].Last() && (n < |ticks| ==> Carried(r, ticks, n, b.position.value)))
  }

  lemma {:induction false} ToldLater(r: Rules, ticks: seq<Tick>, n: nat, trades: seq<Trade>)
    requires AllTold(r, ticks, n, trades)
    ensures AllTold(r, ticks, n + 1, trades)
  {
    hide TradeOn;
    forall t | t in trades ensures TradeTold(r, ticks, n + 1, t) {
      assert TradeTold(r, ticks, n, t);
      var m: nat, x: nat :| x < n && TradeOn(r, ticks, m, x, t);
      assert x < n + 1;
    }
  }

  lemma {:induction false} Joins(ticks: seq<Tick>, n: nat)
    requires WellFormed(ticks) && 0 < n < |ticks| && !ticks[n - 1].Last()
    ensures ticks[n].origin == ticks[n - 1].origin < n && ticks[n].bar.start == ticks[n - 1].bar.End()
  {
    assert Joined(ticks, n);
  }

  /** The open: an order for it becomes a position entered on this candle, or none. */
  lemma {:induction false} OpenTold(r: Rules, ticks: seq<Tick>, n: nat, liquid: bool, b: Book)
    requires WellFormed(ticks) && n < |ticks| && Ready(r, ticks, n, b)
    requires AtOpen(r, ticks[n].bar, ticks[n].Last(), liquid, b).Ok?
    ensures
      var after := AtOpen(r, ticks[n].bar, ticks[n].Last(), liquid, b).value;
      && after.trades == b.trades && after.pending.None?
      && (after.position.Some? ==> Carried(r, ticks, n, after.position.value))
  {
    hide AllTold, Rides, Riding, BuyCost;
    if b.pending.Some? {
      Joins(ticks, n);
      EnterTold(r, ticks[n].bar, ticks[n].Last(), liquid, b);
      var after := Enter(r, ticks[n].bar, ticks[n].Last(), liquid, b).value;
      if after.position.Some? {
        assert Riding(r, ticks, n, after.position.value, n) by { JustEntered(r, ticks, n, after.position.value); }
      }
      hide Enter;
    }
  }

  lemma {:induction false} JustEntered(r: Rules, ticks: seq<Tick>, n: nat, p: Position)
    requires 0 < n < |ticks| && ticks[n].origin < n
    requires p.decided == p.entered == ticks[n].bar.start && p.entry == ticks[n].bar.open * (1.0 + r.settings.slippageBps / 10000.0)
    requires p.fee == BuyCost(r.costs, Amount(r, p.entry))
    ensures Riding(r, ticks, n, p, n)
  {
    hide BuyCost;
  }

  lemma {:induction false} EnterTold(r: Rules, bar: Candle, last: bool, liquid: bool, b: Book)
    requires b.pending.Some? && b.position.None? && Enter(r, bar, last, liquid, b).Ok?
    ensures
      var after := Enter(r, bar, last, liquid, b).value;
      && after.trades == b.trades && after.pending.None?
      && (after.position.Some? ==>
            var p := after.position.value;
            && p.decided == b.pending.value && p.entered == bar.start
            && p.entry == bar.open * (1.0 + r.settings.slippageBps / 10000.0)
            && p.fee == BuyCost(r.costs, Amount(r, p.entry)))
  {
    FeeOf(r.costs, BUY, r.Worth(r.BuyPrice(bar.open)), bar.start, None);
    hide Fee, BuyCost;
  }

  /** What managing a position does, told from the candle. */
  lemma {:induction false} ManageTold(r: Rules, bar: Candle, last: bool, b: Book)
    requires b.position.Some? && Manage(r, bar, last, b).Ok?
    ensures
      var p, m := b.position.value, Manage(r, bar, last, b).value;
      var stops, aims := Stops(r, p.entry, bar), Aims(r, p.entry, bar);
      && (!stops && !aims && !last ==> m.Going? && m.book.trades == b.trades && m.book.position == b.position)
      && (m.Going? && m.book.position.Some? ==> !stops && !aims && !last && m.book.position == b.position && m.book.trades == b.trades)
      && m.book.pending == b.pending
  {
    hide MarkDown, Exit, ExitReference, Rules.Liquid;
    MarkOnly(r, bar, b);
    ReferenceTold(r, bar, b.position.value.entry, last);
    var marked := MarkDown(r, bar, b).value;
    var (reference, reason) := ExitReference(bar, b.position.value.entry, r, last);
    if reason.Some? && r.Liquid(bar.volume) { ExitTold(r, bar, reference, reason.value, marked); }
  }

  lemma {:induction false} MarkOnly(r: Rules, bar: Candle, b: Book)
    requires b.position.Some? && MarkDown(r, bar, b).Ok?
    ensures MarkDown(r, bar, b).value == b.(drawdown := MarkDown(r, bar, b).value.drawdown)
  {
    hide Fee;
  }

  lemma {:induction false} ReferenceTold(r: Rules, bar: Candle, entry: real, last: bool)
    ensures
      var (reference, reason) := ExitReference(bar, entry, r, last);
      var stops, aims := Stops(r, entry, bar), Aims(r, entry, bar);
      && (reason == Some(STOP) <==> stops)
      && (reason == Some(TARGET) <==> !stops && aims)
      && (reason == Some(EOD) <==> !stops && !aims && last)
      && (reason.Some? ==> reference == Quoted(r, entry, bar, reason.value))
  {
  }

  lemma {:induction false} ExitTold(r: Rules, bar: Candle, reference: real, reason: Reason, b: Book)
    requires b.position.Some? && Exit(r, bar, reference, reason, b).Ok?
    ensures
      var p, after := b.position.value, Exit(r, bar, reference, reason, b).value;
      && after.position.None? && after.pending == b.pending && after.noFills == b.noFills && |after.trades| == |b.trades| + 1 && after.trades[..|b.trades|] == b.trades
      && var t := after.trades[|b.trades|];
      && t.signalAt == p.decided && t.entryAt == p.entered && t.entry == p.entry && t.reason == reason
      && t.exitAt == bar.start + FIVE && t.quantity == r.settings.quantity
      && t.exit == reference * (1.0 - r.settings.slippageBps / 10000.0)
      && t.gross == Amount(r, t.exit) - Amount(r, t.entry)
      && t.fees == p.fee + SellCost(r.costs, Amount(r, t.exit), Amount(r, t.entry)) && t.net == t.gross - t.fees
  {
    FeeOf(r.costs, SELL, r.Worth(r.SalePrice(reference)), bar.start, Some(r.Worth(b.position.value.entry)));
    hide Fee, SellCost;
  }

  lemma {:induction false} LiquidTold(r: Rules, volume: int)
    ensures r.Liquid(volume) <==> volume as real * r.settings.participation >= r.settings.quantity as real
  {
  }

  /** A position carried into candle n and sold on it is a trade told from the candles. */
  lemma {:induction false} SaleTold(r: Rules, ticks: seq<Tick>, n: nat, b: Book)
    requires n < |ticks| && b.position.Some? && Carried(r, ticks, n, b.position.value) && AllTold(r, ticks, n, b.trades)
    requires Manage(r, ticks[n].bar, ticks[n].Last(), b).Ok?
    ensures
      var m := Manage(r, ticks[n].bar, ticks[n].Last(), b).value;
      && AllTold(r, ticks, n + 1, m.book.trades)
      && (m.Stuck? ==> m.book.position == b.position && UnresolvedTold(r, ticks, n + 1, UnresolvedOf(r, ticks[n].bar, b.position.value, m.reason)))
  {
    var bar, last, p := ticks[n].bar, ticks[n].Last(), b.position.value;
    hide AllTold, UnresolvedTold, MarkDown, Exit, ExitReference, Rules.Liquid, Riding;
    ToldLater(r, ticks, n, b.trades);
    MarkOnly(r, bar, b);
    var e: nat :| e <= n && ticks[e].origin == ticks[n].origin && Riding(r, ticks, n, p, e);
    hide Carried;
    var marked := MarkDown(r, bar, b).value;
    var (reference, reason) := ExitReference(bar, p.entry, r, last);
    if reason.Some? {
      if r.Liquid(bar.volume) {
        SaleOn(r, ticks, n, marked, e, reference, reason.value);
      } else {
        StuckOn(r, ticks, n, p, e, reference, reason.value);
      }
    }
  }

  lemma {:induction false} MustLeave(r: Rules, ticks: seq<Tick>, n: nat, p: Position, e: nat, reference: real, reason: Reason)
    requires n < |ticks| && e <= n && ticks[e].origin == ticks[n].origin && Riding(r, ticks, n, p, e)
    requires ExitReference(ticks[n].bar, p.entry, r, ticks[n].Last()) == (reference, Some(reason))
    ensures EnteredOn(r, ticks, e, p.entered, p.entry) && LeftOn(r, ticks, e, n, p.entry, reason)
    ensures reference == Quoted(r, p.entry, ticks[n].bar, reason)
  {
    ReferenceTold(r, ticks[n].bar, p.entry, ticks[n].Last());
    hide ExitReference, Stops, Aims, EnteredOn, Quoted, BuyCost;
  }

  lemma {:induction false} SaleOn(r: Rules, ticks: seq<Tick>, n: nat, b: Book, e: nat, reference: real, reason: Reason)
    requires n < |ticks| && e <= n && ticks[e].origin == ticks[n].origin && b.position.Some? && Riding(r, ticks, n, b.position.value, e)
    requires ExitReference(ticks[n].bar, b.position.value.entry, r, ticks[n].Last()) == (reference, Some(reason))
    requires r.Liquid(ticks[n].bar.volume) && Exit(r, ticks[n].bar, reference, reason, b).Ok? && AllTold(r, ticks, n + 1, b.trades)
    ensures AllTold(r, ticks, n + 1, Exit(r, ticks[n].bar, reference, reason, b).value.trades)
  {
    hide *;
    var p, after := b.position.value, Exit(r, ticks[n].bar, reference, reason, b).value;
    MustLeave(r, ticks, n, p, e, reference, reason);
    ExitTold(r, ticks[n].bar, reference, reason, b);
    LiquidTold(r, ticks[n].bar.volume);
    RidingParts(r, ticks, n, p, e);
    var t := after.trades[|b.trades|];
    Recorded(r, ticks, e, n, t);
    OneMoreTold(r, ticks, n + 1, b.trades, after.trades, t, e, n);
  }

  lemma {:induction false} RidingParts(r: Rules, ticks: seq<Tick>, n: nat, p: Position, m: nat)
    requires Riding(r, ticks, n, p, m)
    ensures p.decided == p.entered && p.fee == BuyCost(r.costs, Amount(r, p.entry))
  {
    hide BuyCost;
  }

  /** The parts of a trade make a trade. */
  lemma {:induction false} Recorded(r: Rules, ticks: seq<Tick>, m: nat, x: nat, t: Trade)
    requires EnteredOn(r, ticks, m, t.entryAt, t.entry) && LeftOn(r, ticks, m, x, t.entry, t.reason)
    requires t.signalAt == t.entryAt && t.exitAt == ticks[x].bar.start + FIVE && t.quantity == r.settings.quantity
    requires t.exit == Quoted(r, t.entry, ticks[x].bar, t.reason) * (1.0 - r.settings.slippageBps / 10000.0)
    requires ticks[x].bar.volume as real * r.settings.participation >= r.settings.quantity as real
    requires t.gross == Amount(r, t.exit) - Amount(r, t.entry)
    requires t.fees == BuyCost(r.costs, Amount(r, t.entry)) + SellCost(r.costs, Amount(r, t.exit), Amount(r, t.entry))
    requires t.net == t.gross - t.fees
    ensures TradeOn(r, ticks, m, x, t)
  {
    hide EnteredOn, Quoted, Amount, BuyCost, SellCost;
  }

  lemma {:induction false} StuckOn(r: Rules, ticks: seq<Tick>, n: nat, p: Position, e: nat, reference: real, reason: Reason)
    requires n < |ticks| && e <= n && ticks[e].origin == ticks[n].origin && Riding(r, ticks, n, p, e)
    requires ExitReference(ticks[n].bar, p.entry, r, ticks[n].Last()) == (reference, Some(reason))
    requires !r.Liquid(ticks[n].bar.volume)
    ensures UnresolvedTold(r, ticks, n + 1, UnresolvedOf(r, ticks[n].bar, p, reason))
  {
    MustLeave(r, ticks, n, p, e, reference, reason);
    RidingParts(r, ticks, n, p, e);
    hide ExitReference, EnteredOn, LeftOn, Riding;
    assert UnresolvedOn(r, ticks, e, n, UnresolvedOf(r, ticks[n].bar, p, reason));
  }

  lemma {:induction false} OneMoreTold(r: Rules, ticks: seq<Tick>, n: nat, trades: seq<Trade>, after: seq<Trade>, t: Trade, m: nat, x: nat)
    requires AllTold(r, ticks, n, trades) && x < n && TradeOn(r, ticks, m, x, t)
    requires |after| == |trades| + 1 && after[..|trades|] == trades && after[|trades|] == t
    ensures AllTold(r, ticks, n, after)
  {
    hide TradeOn;
    forall s | s in after ensures TradeTold(r, ticks, n, s) {
      if s != t { assert s in trades; }
    }
  }

  /** A position held through candle n is carried into the next. */
  lemma {:induction false} StillCarried(r: Rules, ticks: seq<Tick>, n: nat, p: Position)
    requires WellFormed(ticks) && n + 1 < |ticks| && Carried(r, ticks, n, p)
    requires !Stops(r, p.entry, ticks[n].bar) && !Aims(r, p.entry, ticks[n].bar) && !ticks[n].Last()
    ensures Carried(r, ticks, n + 1, p)
  {
    hide Stops, Aims, EnteredOn;
    var m: nat :| m <= n && ticks[m].origin == ticks[n].origin && Riding(r, ticks, n, p, m);
    Joins(ticks, n + 1);
    assert Riding(r, ticks, n + 1, p, m);
  }

  lemma {:induction false} FinishTold(r: Rules, bar: Candle, last: bool, fires: bool, b: Book)
    ensures
      var after := Finish(r, bar, last, fires, b);
      && after.trades == b.trades && after.position == b.position && after.cash == b.cash
      && (b.pending.None? ==> (after.pending.Some? <==> b.position.None? && !last && fires))
      && (b.pending.None? && after.pending.Some? ==> after.pending.value == bar.End())
  {
  }

  /** One candle of either executor. */
  lemma {:induction false} CandleTold(r: Rules, ticks: seq<Tick>, n: nat, liquid: bool, fires: bool, b: Book)
    requires WellFormed(ticks) && n < |ticks| && Ready(r, ticks, n, b)
    requires AtOpen(r, ticks[n].bar, ticks[n].Last(), liquid, b).Ok?
    requires Manage(r, ticks[n].bar, ticks[n].Last(), AtOpen(r, ticks[n].bar, ticks[n].Last(), liquid, b).value).Ok?
    ensures
      var t, entered := ticks[n], AtOpen(r, ticks[n].bar, ticks[n].Last(), liquid, b).value;
      var m := Manage(r, t.bar, t.Last(), entered).value;
      && AllTold(r, ticks, n + 1, m.book.trades)
      && (m.Going? ==> Ready(r, ticks, n + 1, Finish(r, t.bar, t.Last(), fires, m.book)))
      && (m.Stuck? ==> m.book.position.Some? && UnresolvedTold(r, ticks, n + 1, UnresolvedOf(r, t.bar, m.book.position.value, m.reason)))
  {
    OpenTold(r, ticks, n, liquid, b);
    hide AtOpen, Manage, Finish, AllTold, Carried, UnresolvedTold, Stops, Aims;
    var t, entered := ticks[n], AtOpen(r, ticks[n].bar, ticks[n].Last(), liquid, b).value;
    var m := Manage(r, t.bar, t.Last(), entered).value;
    if entered.position.Some? {
      SaleTold(r, ticks, n, entered);
      ManageTold(r, t.bar, t.Last(), entered);
      if m.Going? && m.book.position.Some? && n + 1 < |ticks| { StillCarried(r, ticks, n, entered.position.value); }
    } else {
      ToldLater(r, ticks, n, b.trades);
      NothingManaged(r, t.bar, t.Last(), entered);
    }
    if m.Going? { FinishTold(r, t.bar, t.Last(), fires, m.book); }
  }

  lemma {:induction false} NothingManaged(r: Rules, bar: Candle, last: bool, b: Book)
    requires b.position.None?
    ensures Manage(r, bar, last, b) == Ok(Going(b))
  {
  }

  // ----- whole runs -----

  lemma {:induction false} Flattened(r: Rules, ticks: seq<Tick>, n: nat, b: Book)
    requires WellFormed(ticks) && n < |ticks| && Ready(r, ticks, n, b)
    ensures ticks[n].origin == n ==> b.(position := None, pending := None) == b
  {
    if n > 0 && !ticks[n - 1].Last() { Joins(ticks, n); }
  }

  /** What a causal run has told after n candles. */
  ghost predicate RunTold(r: Rules, ticks: seq<Tick>, n: nat, run: Run)
    requires n <= |ticks|
  {
    && AllTold(r, ticks, n, run.book.trades)
    && (run.unresolved == [] ==> Ready(r, ticks, n, run.book))
    && (forall u :: u in run.unresolved ==> UnresolvedTold(r, ticks, n, u))
  }

  lemma {:induction false} RunIsTold(r: Rules, d: Definition, ticks: seq<Tick>, n: nat)
    requires WellFormed(ticks) && n <= |ticks| && RunTo(r, d, ticks, n).Ok?
    ensures RunTold(r, ticks, n, RunTo(r, d, ticks, n).value)
  {
    hide Step, Ready, AllTold;
    if n == 0 {
      NothingTold(r, ticks);
    } else {
      RunIsTold(r, d, ticks, n - 1);
      var before := RunTo(r, d, ticks, n - 1).value;
      if before.unresolved == [] {
        StepTold(r, d, ticks, n - 1, before);
      } else {
        HaltedTold(r, ticks, n - 1, before);
      }
    }
  }

  lemma {:induction false} NothingTold(r: Rules, ticks: seq<Tick>)
    ensures Ready(r, ticks, 0, Opening(r)) && AllTold(r, ticks, 0, Opening(r).trades)
  {
  }

  lemma {:induction false} HaltedTold(r: Rules, ticks: seq<Tick>, n: nat, run: Run)
    requires n < |ticks| && RunTold(r, ticks, n, run) && run.unresolved != []
    ensures RunTold(r, ticks, n + 1, run)
  {
    hide UnresolvedOn, AllTold;
    ToldLater(r, ticks, n, run.book.trades);
    forall u | u in run.unresolved ensures UnresolvedTold(r, ticks, n + 1, u) {
      assert UnresolvedTold(r, ticks, n, u);
      var m: nat, x: nat :| x < n && UnresolvedOn(r, ticks, m, x, u);
      assert x < n + 1;
    }
  }

  lemma {:induction false} StepTold(r: Rules, d: Definition, ticks: seq<Tick>, n: nat, run: Run)
    requires WellFormed(ticks) && n < |ticks| && Ready(r, ticks, n, run.book) && run.unresolved == []
    requires Step(r, d, ticks, n, run).Ok?
    ensures RunTold(r, ticks, n + 1, Step(r, d, ticks, n, run).value)
  {
    Flattened(r, ticks, n, run.book);
    hide Ready, AllTold, UnresolvedTold, Enter, Manage, Finish, EntrySignal, History;
    var t := ticks[n];
    var previous := if n > 0 then ticks[n - 1].bar else t.bar;
    CandleTold(r, ticks, n, r.Liquid(previous.volume), EntrySignal(History(ticks, n), d), run.book);
  }

  lemma {:induction false} OldRunIsTold(r: Rules, s: Strategy, ticks: seq<Tick>, n: nat)
    requires WellFormed(ticks) && s.Valid() && n <= |ticks| && OldRunTo(r, s, ticks, n).Ok?
    ensures Ready(r, ticks, n, OldRunTo(r, s, ticks, n).value)
  {
    hide OldStep, Ready, Strategy.Valid;
    if n == 0 {
      NothingTold(r, ticks);
    } else {
      OldRunIsTold(r, s, ticks, n - 1);
      OldStepTold(r, s, ticks, n - 1, OldRunTo(r, s, ticks, n - 1).value);
    }
  }

  lemma {:induction false} OldStepTold(r: Rules, s: Strategy, ticks: seq<Tick>, n: nat, b: Book)
    requires WellFormed(ticks) && s.Valid() && n < |ticks| && Ready(r, ticks, n, b) && OldStep(r, s, ticks, n, b).Ok?
    ensures Ready(r, ticks, n + 1, OldStep(r, s, ticks, n, b).value)
  {
    Flattened(r, ticks, n, b);
    assert b.pending.Some? ==> b.position.None?;
    hide Ready, Enter, Manage, Finish, Signal, History, Closes;
    var t := ticks[n];
    CandleTold(r, ticks, n, r.Liquid(t.bar.volume), Signal(Closes(History(ticks, n)), s.conditions), b);
  }

  // ----- results -----

  lemma {:induction false} ReadyTold(r: Rules, ticks: seq<Tick>, n: nat, b: Book)
    requires n <= |ticks| && Ready(r, ticks, n, b)
    ensures AllTold(r, ticks, n, b.trades)
  {
  }

  /** Every trade of the causal executor is entered at the open of a candle that is not its session's first and left on
      the first candle on which its stop or target is reached, or on the session's last; a stop counts before a target,
      and sells at the open if the candle opens below it; what it records is these prices after slippage, with the
      tariff's fees. The one position that can be left over had to be left on a candle that traded too little. */
  lemma {:induction false} TradesAreTold(series: PriceSeries, d: Definition, settings: Settings, costs: Schedule)
    requires series.Valid() && settings.Valid() && Executed(series, d, settings, costs).Ok?
    ensures
      var e, r, ticks := Executed(series, d, settings, costs).value, RulesOf(settings, costs, d.stop, d.target), AllTicks(series);
      && (forall t :: t in e.trades ==> TradeTold(r, ticks, |ticks|, t))
      && (forall u :: u in e.unresolved ==> UnresolvedTold(r, ticks, |ticks|, u))
  {
    hide RunTo, Ticks, TradeTold, UnresolvedTold, WellFormed;
    var r, ticks := RulesOf(settings, costs, d.stop, d.target), AllTicks(series);
    ExecutionOrder.SeriesTicks(series);
    RunIsTold(r, d, ticks, |ticks|);
  }

  /** And so is every trade of the phase14 executor. */
  lemma {:induction false} OldTradesAreTold(series: PriceSeries, s: Strategy, settings: Settings, costs: Schedule)
    requires series.Valid() && settings.Valid() && s.Valid() && Simulated(series, s, settings, costs).Ok?
    ensures
      var e, r, ticks := Simulated(series, s, settings, costs).value, RulesOf(settings, costs, s.stop, s.target), AllTicks(series);
      forall t :: t in e.trades ==> TradeTold(r, ticks, |ticks|, t)
  {
    hide OldRunTo, Ticks, TradeTold, WellFormed, Ready;
    var r, ticks := RulesOf(settings, costs, s.stop, s.target), AllTicks(series);
    ExecutionOrder.SeriesTicks(series);
    OldRunIsTold(r, s, ticks, |ticks|);
    ReadyTold(r, ticks, |ticks|, OldRunTo(r, s, ticks, |ticks|).value);
  }
}
