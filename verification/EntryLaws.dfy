/** When either executor enters: on exactly which candles an order is due, and which of these are filled. */
module EntryLaws {
  import opened Wrappers
  import opened Costs
  import opened Series
  import opened Strategies
  import opened Executor
  import opened TradeLaws
  import Causality
  import Drawdown
  import ExecutionOrder

  // ----- what is due, and what is filled -----

  /** For each candle, whether the entry rule fires on its completion, and whether an order at its open finds
      enough volume in the candle the executor looks at. */
  datatype Feed = Feed(fires: seq<bool>, liquid: seq<bool>)
  {
    predicate For(ticks: seq<Tick>) { |fires| == |liquid| == |ticks| }
  }

  /** A position is held across an instant. */
  predicate Busy(trades: seq<Trade>, open: Option<int>, at: int) {
    (exists t :: t in trades && t.entryAt < at < t.exitAt) || (open.Some? && open.value < at)
  }

  predicate Entered(trades: seq<Trade>, open: Option<int>, at: int) {
    (exists t :: t in trades && t.entryAt == at) || open == Some(at)
  }

  /** An order is due at the open of candle m: the rule fired on the candle before, in the same session, while
      nothing was held. */
  predicate Due(ticks: seq<Tick>, f: Feed, trades: seq<Trade>, open: Option<int>, m: nat)
    requires m < |ticks| && f.For(ticks)
  {
    0 < m && ticks[m].origin < m && f.fires[m - 1] && !Busy(trades, open, ticks[m].bar.start)
  }

  /** The cash left by the trades closed before an instant. */
  function CashBy(r: Rules, trades: seq<Trade>, at: int): real {
    r.settings.capital + NetOf(Causality.TradesUntil(trades, at))
  }

  /** An order at the open of candle m is filled: buying is allowed, the session goes on, there is volume, the cash
      pays for it, and the buffered amount stays below the ceiling. */
  predicate Fills(r: Rules, ticks: seq<Tick>, f: Feed, cash: real, m: nat)
    requires m < |ticks| && f.For(ticks)
  {
    var value := Amount(r, ticks[m].bar.open * (1.0 + r.settings.slippageBps / 10000.0));
    && r.settings.allowLong && !ticks[m].Last() && f.liquid[m]
    && value + BuyCost(r.costs, value) <= cash
    && value * r.settings.priceBuffer <= r.settings.orderCeiling
  }

  /** Candle m by candle m: an entry exactly where an order is due and filled, a refusal exactly where one is due and
      not filled. */
  ghost predicate EnteredExactly(r: Rules, ticks: seq<Tick>, f: Feed, trades: seq<Trade>, open: Option<int>, noFills: seq<int>, m: nat)
    requires m < |ticks| && f.For(ticks)
  {
    var at := ticks[m].bar.start;
    var due, fills := Due(ticks, f, trades, open, m), Fills(r, ticks, f, CashBy(r, trades, at), m);
    (Entered(trades, open, at) <==> due && fills) && (at in noFills <==> due && !fills)
  }

  // ----- what a book keeps -----

  function OpenAt(b: Book): Option<int> { if b.position.Some? then Some(b.position.value.entered) else None }

  /** Everything in the book happened on the candles before n. */
  ghost predicate Past(ticks: seq<Tick>, n: nat, b: Book)
    requires n <= |ticks|
  {
    && (forall t :: t in b.trades ==> n > 0 && t.entryAt < t.exitAt <= ticks[n - 1].bar.End())
    && (forall at :: at in b.noFills ==> n > 0 && at <= ticks[n - 1].bar.start)
    && (b.position.Some? ==> n > 0 && b.position.value.entered <= ticks[n - 1].bar.start)
  }

  ghost predicate Exact(r: Rules, ticks: seq<Tick>, f: Feed, n: nat, b: Book)
    requires n <= |ticks| && f.For(ticks)
  {
    && Past(ticks, n, b)
    && forall m :: 0 <= m < n ==> EnteredExactly(r, ticks, f, b.trades, OpenAt(b), b.noFills, m)
  }

  /** An order waits exactly when the rule has just fired while nothing was held. */
  ghost predicate WaitsExactly(ticks: seq<Tick>, f: Feed, n: nat, b: Book)
    requires n <= |ticks| && f.For(ticks)
  {
    b.pending.Some? <==> n > 0 && !ticks[n - 1].Last() && f.fires[n - 1] && b.position.None?
  }

  // ----- one candle -----

  /** Changes on candle n: at most one entry or refusal at its start, and at most the open position sold at its end. */
  ghost predicate Changed(bar: Candle, b: Book, after: Book) {
    && (after.noFills == b.noFills || after.noFills == b.noFills + [bar.start])
    && (after.trades == b.trades ||
        (|after.trades| == |b.trades| + 1 && after.trades[..|b.trades|] == b.trades &&
         after.trades[|b.trades|].exitAt == bar.End() && after.position.None? &&
         (OpenAt(b) == Some(after.trades[|b.trades|].entryAt) || (b.position.None? && after.trades[|b.trades|].entryAt == bar.start))))
    && (after.trades == b.trades ==> after.position == b.position || (b.position.None? && OpenAt(after) == Some(bar.start)))
  }

  lemma {:induction false} EarlierTick(ticks: seq<Tick>, m: nat, n: nat)
    requires WellFormed(ticks) && m < n < |ticks|
    ensures ticks[m].bar.End() <= ticks[n].bar.start && ticks[m].bar.start < ticks[n].bar.start
  {
    TicksAdvance(ticks, m, n);
  }

  /** What candle n adds is not seen before it. */
  lemma {:induction false} SameBefore(r: Rules, ticks: seq<Tick>, n: nat, m: nat, b: Book, after: Book)
    requires WellFormed(ticks) && m <= n < |ticks| && Past(ticks, n, b) && Changed(ticks[n].bar, b, after)
    ensures
      var at := ticks[m].bar.start;
      && (Busy(after.trades, OpenAt(after), at) <==> Busy(b.trades, OpenAt(b), at))
      && CashBy(r, after.trades, at) == CashBy(r, b.trades, at)
      && (m < n ==> (Entered(after.trades, OpenAt(after), at) <==> Entered(b.trades, OpenAt(b), at)) && (at in after.noFills <==> at in b.noFills))
  {
    hide NetOf, Past;
    var at, bar := ticks[m].bar.start, ticks[n].bar;
    if m < n { EarlierTick(ticks, m, n); }
    if after.trades != b.trades {
      var t := after.trades[|b.trades|];
      assert after.trades == b.trades + [t];
      assert t in after.trades;
      assert forall s :: s in after.trades <==> s in b.trades || s == t;
    }
    Causality.LaterTrades(b.trades, after.trades, at);
  }

  /** At its own start nothing of the past is still going on but the open position. */
  lemma {:induction false} NowBusy(r: Rules, ticks: seq<Tick>, n: nat, b: Book)
    requires WellFormed(ticks) && n < |ticks| && Past(ticks, n, b)
    ensures
      var at := ticks[n].bar.start;
      && (Busy(b.trades, OpenAt(b), at) <==> b.position.Some?)
      && !Entered(b.trades, OpenAt(b), at) && at !in b.noFills
      && CashBy(r, b.trades, at) == r.settings.capital + NetOf(b.trades)
  {
    hide NetOf;
    if n > 0 { EarlierTick(ticks, n - 1, n); }
    AllClosed(b.trades, ticks[n].bar.start);
  }

  lemma {:induction false} AllClosed(trades: seq<Trade>, at: int)
    requires forall t :: t in trades ==> t.exitAt <= at
    ensures Causality.TradesUntil(trades, at) == trades
  {
    if trades != [] {
      assert trades == trades[..|trades| - 1] + [trades[|trades| - 1]];
      AllClosed(trades[..|trades| - 1], at);
    }
  }

  /** Whether the order waiting for candle n is filled. */
  lemma {:induction false} EnterExactly(r: Rules, ticks: seq<Tick>, f: Feed, n: nat, b: Book)
    requires n < |ticks| && f.For(ticks) && b.pending.Some? && b.position.None?
    requires Enter(r, ticks[n].bar, ticks[n].Last(), f.liquid[n], b).Ok?
    ensures
      var after := Enter(r, ticks[n].bar, ticks[n].Last(), f.liquid[n], b).value;
      && after.trades == b.trades
      && (if Fills(r, ticks, f, b.cash, n)
          then OpenAt(after) == Some(ticks[n].bar.start) && after.noFills == b.noFills
          else after.position.None? && after.noFills == b.noFills + [ticks[n].bar.start])
  {
    FeeOf(r.costs, BUY, r.Worth(r.BuyPrice(ticks[n].bar.open)), ticks[n].bar.start, None);
    hide Fee, BuyCost;
  }

  lemma {:induction false} ManageChanges(r: Rules, bar: Candle, last: bool, b: Book)
    requires Manage(r, bar, last, b).Ok?
    ensures
      var after := Manage(r, bar, last, b).value.book;
      && after.noFills == b.noFills && after.pending == b.pending
      && (after.position == b.position ==> after.trades == b.trades)
      && (after.position != b.position ==>
            b.position.Some? && after.position.None? && |after.trades| == |b.trades| + 1 && after.trades[..|b.trades|] == b.trades &&
            after.trades[|b.trades|].exitAt == bar.End() && after.trades[|b.trades|].entryAt == b.position.value.entered)
  {
    hide MarkDown, Exit, ExitReference, Rules.Liquid;
    if b.position.Some? {
      MarkOnly(r, bar, b);
      var marked := MarkDown(r, bar, b).value;
      var (reference, reason) := ExitReference(bar, b.position.value.entry, r, last);
      if reason.Some? && r.Liquid(bar.volume) { ExitTold(r, bar, reference, reason.value, marked); }
    }
  }

  /** The book after candle n, before the candle is closed. */
  ghost predicate CandleBooks(r: Rules, ticks: seq<Tick>, f: Feed, n: nat, b: Book, entered: Book, m: Managed)
    requires n < |ticks| && f.For(ticks)
  {
    && AtOpen(r, ticks[n].bar, ticks[n].Last(), f.liquid[n], b) == Ok(entered)
    && Manage(r, ticks[n].bar, ticks[n].Last(), entered) == Ok(m)
  }

  lemma {:induction false} CandleChanges(r: Rules, ticks: seq<Tick>, f: Feed, n: nat, b: Book, entered: Book, m: Managed)
    requires n < |ticks| && f.For(ticks) && CandleBooks(r, ticks, f, n, b, entered, m)
    requires b.pending.Some? ==> b.position.None?
    ensures Changed(ticks[n].bar, b, m.book) && m.book.pending.None?
    ensures b.pending.None? ==> m.book.noFills == b.noFills && (b.position.None? ==> m.book.position.None? && m.book.trades == b.trades)
    ensures b.pending.Some? && Fills(r, ticks, f, b.cash, n) ==>
      Entered(m.book.trades, OpenAt(m.book), ticks[n].bar.start) && m.book.noFills == b.noFills
    ensures b.pending.Some? && !Fills(r, ticks, f, b.cash, n) ==>
      m.book.noFills == b.noFills + [ticks[n].bar.start] && m.book.position.None? && m.book.trades == b.trades
  {
    hide Enter, Manage, Fills;
    if b.pending.Some? {
      EnterExactly(r, ticks, f, n, b);
      EnterClears(r, ticks[n].bar, ticks[n].Last(), f.liquid[n], b);
    }
    ManageChanges(r, ticks[n].bar, ticks[n].Last(), entered);
    if m.book.trades != entered.trades { assert m.book.trades[|b.trades|] in m.book.trades; }
  }

  lemma {:induction false} EnterClears(r: Rules, bar: Candle, last: bool, liquid: bool, b: Book)
    requires b.pending.Some? && Enter(r, bar, last, liquid, b).Ok?
    ensures Enter(r, bar, last, liquid, b).value.pending.None?
  {
    hide Fee;
  }

  lemma {:induction false} PastLater(ticks: seq<Tick>, n: nat, b: Book, after: Book)
    requires WellFormed(ticks) && n < |ticks| && Past(ticks, n, b) && Changed(ticks[n].bar, b, after)
    ensures Past(ticks, n + 1, after)
  {
    if n > 0 { EarlierTick(ticks, n - 1, n); }
    forall t | t in after.trades ensures t.entryAt < t.exitAt <= ticks[n].bar.End() {
      if t !in b.trades {
        assert after.trades == b.trades + [after.trades[|b.trades|]];
      }
    }
  }

  /** Candle n itself. */
  lemma {:induction false} NowExact(r: Rules, ticks: seq<Tick>, f: Feed, n: nat, b: Book, entered: Book, m: Managed)
    requires WellFormed(ticks) && n < |ticks| && f.For(ticks) && Past(ticks, n, b) && WaitsExactly(ticks, f, n, b)
    requires b.position.None? ==> b.cash == r.settings.capital + NetOf(b.trades)
    requires CandleBooks(r, ticks, f, n, b, entered, m) && (ticks[n].origin == n ==> b.pending.None?)
    requires n > 0 && ticks[n].origin < n ==> !ticks[n - 1].Last()
    ensures EnteredExactly(r, ticks, f, m.book.trades, OpenAt(m.book), m.book.noFills, n)
  {
    CandleChanges(r, ticks, f, n, b, entered, m);
    SameBefore(r, ticks, n, n, b, m.book);
    NowBusy(r, ticks, n, b);
    hide Past, Fills, NetOf, CashBy, Busy, CandleBooks;
    var at := ticks[n].bar.start;
    if b.pending.Some? {
      assert Due(ticks, f, m.book.trades, OpenAt(m.book), n) by { DueNow(ticks, f, n, b, m.book); }
      if !Fills(r, ticks, f, b.cash, n) {
        assert !Entered(m.book.trades, OpenAt(m.book), at) && at in m.book.noFills;
      }
    } else {
      assert !Due(ticks, f, m.book.trades, OpenAt(m.book), n);
      NotEntered(ticks[n].bar, b, m.book);
    }
  }

  lemma {:induction false} DueNow(ticks: seq<Tick>, f: Feed, n: nat, b: Book, after: Book)
    requires WellFormed(ticks) && n < |ticks| && f.For(ticks) && WaitsExactly(ticks, f, n, b) && b.pending.Some?
    requires !Busy(after.trades, OpenAt(after), ticks[n].bar.start)
    ensures Due(ticks, f, after.trades, OpenAt(after), n)
  {
    Joins(ticks, n);
    hide Busy;
  }

  /** Nothing is entered without an order. */
  lemma {:induction false} NotEntered(bar: Candle, b: Book, after: Book)
    requires Changed(bar, b, after) && !Entered(b.trades, OpenAt(b), bar.start)
    requires b.position.None? ==> after.position.None? && after.trades == b.trades
    ensures !Entered(after.trades, OpenAt(after), bar.start)
  {
    if after.trades != b.trades { assert after.trades == b.trades + [after.trades[|b.trades|]]; }
  }

  /** One candle of either executor keeps entries exact. */
  lemma {:induction false} CandleExact(r: Rules, ticks: seq<Tick>, f: Feed, n: nat, b: Book, entered: Book, m: Managed)
    requires WellFormed(ticks) && n < |ticks| && f.For(ticks) && Exact(r, ticks, f, n, b) && WaitsExactly(ticks, f, n, b)
    requires b.position.None? ==> b.cash == r.settings.capital + NetOf(b.trades)
    requires CandleBooks(r, ticks, f, n, b, entered, m) && (ticks[n].origin == n ==> b.pending.None?)
    requires n > 0 && ticks[n].origin < n ==> !ticks[n - 1].Last()
    ensures Exact(r, ticks, f, n + 1, m.book) && m.book.pending.None?
  {
    hide Past, NetOf, CashBy, Busy, Entered, Fills, CandleBooks, Changed;
    CandleChanges(r, ticks, f, n, b, entered, m);
    PastLater(ticks, n, b, m.book);
    forall k | 0 <= k < n + 1 ensures EnteredExactly(r, ticks, f, m.book.trades, OpenAt(m.book), m.book.noFills, k) {
      if k < n {
        SameBefore(r, ticks, n, k, b, m.book);
        assert EnteredExactly(r, ticks, f, b.trades, OpenAt(b), b.noFills, k);
      } else {
        NowExact(r, ticks, f, n, b, entered, m);
      }
    }
  }

  lemma {:induction false} FinishExact(r: Rules, ticks: seq<Tick>, f: Feed, n: nat, b: Book)
    requires n < |ticks| && f.For(ticks) && Exact(r, ticks, f, n + 1, b) && b.pending.None?
    ensures
      var after := Finish(r, ticks[n].bar, ticks[n].Last(), f.fires[n], b);
      Exact(r, ticks, f, n + 1, after) && WaitsExactly(ticks, f, n + 1, after)
  {
    FinishTold(r, ticks[n].bar, ticks[n].Last(), f.fires[n], b);
    FinishRefuses(r, ticks[n].bar, ticks[n].Last(), f.fires[n], b);
    hide Finish, EnteredExactly, Past;
    var after := Finish(r, ticks[n].bar, ticks[n].Last(), f.fires[n], b);
    assert Past(ticks, n + 1, after) by { SamePast(ticks, n + 1, b, after); }
    assert OpenAt(after) == OpenAt(b);
  }

  lemma {:induction false} SamePast(ticks: seq<Tick>, n: nat, b: Book, after: Book)
    requires n <= |ticks| && Past(ticks, n, b) && after.trades == b.trades && after.noFills == b.noFills && after.position == b.position
    ensures Past(ticks, n, after)
  {
  }

  lemma {:induction false} FinishRefuses(r: Rules, bar: Candle, last: bool, fires: bool, b: Book)
    ensures Finish(r, bar, last, fires, b).noFills == b.noFills
  {
  }

  // ----- whole runs -----

  /** The causal executor looks at the candle before for volume. */
  ghost function FeedOf(r: Rules, d: Definition, ticks: seq<Tick>): (f: Feed)
    ensures f.For(ticks)
    ensures forall n :: 0 <= n < |ticks| ==>
      f.fires[n] == EntrySignal(History(ticks, n), d) &&
      f.liquid[n] == (ticks[if n > 0 then n - 1 else 0].bar.volume as real * r.settings.participation >= r.settings.quantity as real)
  {
    Feed(seq(|ticks|, n requires 0 <= n < |ticks| => EntrySignal(History(ticks, n), d)),
         seq(|ticks|, n requires 0 <= n < |ticks| =>
           ticks[if n > 0 then n - 1 else 0].bar.volume as real * r.settings.participation >= r.settings.quantity as real))
  }

  function Fired(s: Strategy, history: seq<Candle>): bool
    requires s.Valid()
  {
    Signal(Closes(history), s.conditions)
  }

  ghost function FiredAll(s: Strategy, ticks: seq<Tick>): (r: seq<bool>)
    requires s.Valid()
    ensures |r| == |ticks| && forall n :: 0 <= n < |ticks| ==> r[n] == Fired(s, History(ticks, n))
  {
    seq(|ticks|, n requires 0 <= n < |ticks| => Fired(s, History(ticks, n)))
  }

  ghost function Volumes(r: Rules, ticks: seq<Tick>): (v: seq<bool>)
    ensures |v| == |ticks|
    ensures forall n :: 0 <= n < |ticks| ==> v[n] == (ticks[n].bar.volume as real * r.settings.participation >= r.settings.quantity as real)
  {
    seq(|ticks|, n requires 0 <= n < |ticks| => ticks[n].bar.volume as real * r.settings.participation >= r.settings.quantity as real)
  }

  /** The phase14 executor looks at the candle itself. */
  ghost function OldFeedOf(r: Rules, s: Strategy, ticks: seq<Tick>): (f: Feed)
    requires s.Valid()
    ensures f.For(ticks)
  {
    Feed(FiredAll(s, ticks), Volumes(r, ticks))
  }

  lemma {:induction false} NothingExact(r: Rules, ticks: seq<Tick>, f: Feed)
    requires f.For(ticks)
    ensures Exact(r, ticks, f, 0, Opening(r)) && WaitsExactly(ticks, f, 0, Opening(r))
  {
  }

  /** A candle after a halt: nothing more is entered, as the position still counts as held. */
  lemma {:induction false} HaltedExact(r: Rules, ticks: seq<Tick>, f: Feed, n: nat, b: Book)
    requires WellFormed(ticks) && n < |ticks| && f.For(ticks) && Exact(r, ticks, f, n, b) && b.position.Some?
    ensures Exact(r, ticks, f, n + 1, b)
  {
    NowBusy(r, ticks, n, b);
    if n > 0 { EarlierTick(ticks, n - 1, n); }
    hide CashBy, Fills, NetOf, Busy, Entered;
    forall m | 0 <= m < n + 1 ensures EnteredExactly(r, ticks, f, b.trades, OpenAt(b), b.noFills, m) {
      if m < n { assert EnteredExactly(r, ticks, f, b.trades, OpenAt(b), b.noFills, m); }
    }
  }

  lemma {:induction false} RunExact(r: Rules, d: Definition, ticks: seq<Tick>, n: nat)
    requires r.Valid() && WellFormed(ticks) && n <= |ticks| && RunTo(r, d, ticks, n).Ok?
    ensures Exact(r, ticks, FeedOf(r, d, ticks), n, RunTo(r, d, ticks, n).value.book)
    ensures RunTo(r, d, ticks, n).value.unresolved == [] ==> WaitsExactly(ticks, FeedOf(r, d, ticks), n, RunTo(r, d, ticks, n).value.book)
    ensures RunTo(r, d, ticks, n).value.unresolved != [] ==> RunTo(r, d, ticks, n).value.book.position.Some?
  {
    hide Step, Exact, WaitsExactly, FeedOf, Rules.Valid;
    var f := FeedOf(r, d, ticks);
    if n == 0 {
      NothingExact(r, ticks, f);
    } else {
      RunExact(r, d, ticks, n - 1);
      var before := RunTo(r, d, ticks, n - 1).value;
      if before.unresolved == [] {
        RunIsTold(r, d, ticks, n - 1);
        Drawdown.RunBounded(r, d, ticks, n - 1);
        Drawdown.CapitalPositive(r);
        CashWhenFlat(r, before.book);
        StepExact(r, d, ticks, n - 1, before);
      } else {
        HaltedExact(r, ticks, f, n - 1, before.book);
      }
    }
  }

  lemma {:induction false} CashWhenFlat(r: Rules, b: Book)
    requires r.Valid() && 0.0 < r.settings.capital && Drawdown.Bounded(r, b)
    ensures b.position.None? ==> b.cash == r.settings.capital + NetOf(b.trades)
  {
    hide NetOf, Schedule.Valid;
  }

  lemma {:induction false} ReadyParts(r: Rules, ticks: seq<Tick>, n: nat, b: Book)
    requires WellFormed(ticks) && n < |ticks| && Ready(r, ticks, n, b)
    ensures b.pending.Some? ==> b.position.None?
    ensures ticks[n].origin == n ==> b.pending.None? && b.position.None?
    ensures n > 0 && ticks[n].origin < n ==> !ticks[n - 1].Last()
  {
    if n > 0 { assert Joined(ticks, n); }
    hide AllTold, Carried;
  }

  lemma {:induction false} StepExact(r: Rules, d: Definition, ticks: seq<Tick>, n: nat, run: Run)
    requires WellFormed(ticks) && n < |ticks| && RunTold(r, ticks, n, run) && run.unresolved == []
    requires Exact(r, ticks, FeedOf(r, d, ticks), n, run.book) && WaitsExactly(ticks, FeedOf(r, d, ticks), n, run.book)
    requires run.book.position.None? ==> run.book.cash == r.settings.capital + NetOf(run.book.trades)
    requires Step(r, d, ticks, n, run).Ok?
    ensures
      var after := Step(r, d, ticks, n, run).value;
      && Exact(r, ticks, FeedOf(r, d, ticks), n + 1, after.book)
      && (after.unresolved == [] ==> WaitsExactly(ticks, FeedOf(r, d, ticks), n + 1, after.book))
      && (after.unresolved != [] ==> after.book.position.Some?)
  {
    var f := FeedOf(r, d, ticks);
    ReadyParts(r, ticks, n, run.book);
    var entered, m := StepBooks(r, d, ticks, n, run);
    hide Step, Exact, WaitsExactly, FeedOf, CandleBooks, RunTold, WellFormed, Finish;
    CandleExact(r, ticks, f, n, run.book, entered, m);
    if m.Going? { FinishExact(r, ticks, f, n, m.book); }
  }

  /** A step of the causal executor as its book sees it. */
  lemma {:induction false} StepBooks(r: Rules, d: Definition, ticks: seq<Tick>, n: nat, run: Run) returns (entered: Book, m: Managed)
    requires n < |ticks| && run.unresolved == [] && Step(r, d, ticks, n, run).Ok?
    requires ticks[n].origin == n ==> run.book.pending.None? && run.book.position.None?
    ensures
      var f, after := FeedOf(r, d, ticks), Step(r, d, ticks, n, run).value;
      && CandleBooks(r, ticks, f, n, run.book, entered, m)
      && (m.Stuck? <==> after.unresolved != []) && (m.Stuck? ==> after.book == m.book && m.book.position.Some?)
      && (m.Going? ==> after.book == Finish(r, ticks[n].bar, ticks[n].Last(), f.fires[n], m.book))
  {
    hide Enter, Manage, Finish, EntrySignal, History;
    var t := ticks[n];
    entered := AtOpen(r, t.bar, t.Last(), FeedOf(r, d, ticks).liquid[n], run.book).value;
    m := Manage(r, t.bar, t.Last(), entered).value;
  }

  lemma {:induction false} OldRunExact(r: Rules, s: Strategy, ticks: seq<Tick>, n: nat)
    requires r.Valid() && s.Valid() && WellFormed(ticks) && n <= |ticks| && OldRunTo(r, s, ticks, n).Ok?
    ensures Exact(r, ticks, OldFeedOf(r, s, ticks), n, OldRunTo(r, s, ticks, n).value)
    ensures WaitsExactly(ticks, OldFeedOf(r, s, ticks), n, OldRunTo(r, s, ticks, n).value)
  {
    hide OldStep, Exact, WaitsExactly, OldFeedOf, Rules.Valid, Strategy.Valid, WellFormed, Ready, Drawdown.Bounded;
    if n == 0 {
      NothingExact(r, ticks, OldFeedOf(r, s, ticks));
    } else {
      OldRunExact(r, s, ticks, n - 1);
      var before := OldRunTo(r, s, ticks, n - 1).value;
      OldRunIsTold(r, s, ticks, n - 1);
      Drawdown.OldRunBounded(r, s, ticks, n - 1);
      Drawdown.CapitalPositive(r);
      CashWhenFlat(r, before);
      OldStepExact(r, s, ticks, n - 1, before);
    }
  }

  lemma {:induction false} OldStepExact(r: Rules, s: Strategy, ticks: seq<Tick>, n: nat, b: Book)
    requires WellFormed(ticks) && s.Valid() && n < |ticks| && Ready(r, ticks, n, b)
    requires Exact(r, ticks, OldFeedOf(r, s, ticks), n, b) && WaitsExactly(ticks, OldFeedOf(r, s, ticks), n, b)
    requires b.position.None? ==> b.cash == r.settings.capital + NetOf(b.trades)
    requires OldStep(r, s, ticks, n, b).Ok?
    ensures Exact(r, ticks, OldFeedOf(r, s, ticks), n + 1, OldStep(r, s, ticks, n, b).value)
    ensures WaitsExactly(ticks, OldFeedOf(r, s, ticks), n + 1, OldStep(r, s, ticks, n, b).value)
  {
    var f := OldFeedOf(r, s, ticks);
    ReadyParts(r, ticks, n, b);
    var entered, m := OldStepBooks(r, s, ticks, n, b);
    hide OldStep, Exact, WaitsExactly, OldFeedOf, CandleBooks, Ready, WellFormed, Finish, Strategy.Valid;
    CandleExact(r, ticks, f, n, b, entered, m);
    FinishExact(r, ticks, f, n, m.book);
  }

  lemma {:induction false} OldStepBooks(r: Rules, s: Strategy, ticks: seq<Tick>, n: nat, b: Book) returns (entered: Book, m: Managed)
    requires s.Valid() && n < |ticks| && OldStep(r, s, ticks, n, b).Ok? && (b.pending.Some? ==> b.position.None?)
    requires ticks[n].origin == n ==> b.pending.None? && b.position.None?
    ensures
      var f := OldFeedOf(r, s, ticks);
      && CandleBooks(r, ticks, f, n, b, entered, m) && m.Going?
      && OldStep(r, s, ticks, n, b) == Ok(Finish(r, ticks[n].bar, ticks[n].Last(), f.fires[n], m.book))
  {
    hide Enter, Manage, Finish, Signal, History, Closes, Strategy.Valid;
    var t := ticks[n];
    entered := AtOpen(r, t.bar, t.Last(), OldFeedOf(r, s, ticks).liquid[n], b).value;
    m := Manage(r, t.bar, t.Last(), entered).value;
  }

  // ----- results -----

  /** Where an unresolved position was entered. */
  function OpenOf(us: seq<Unresolved>): Option<int> { if us == [] then None else Some(us[0].entryAt) }

  /** The causal executor enters exactly at the opens at which an order is due and filled, and refuses exactly where one
      is due and not filled. An order is due when the rule fired on the candle before, in the same session, with nothing
      held; it is filled when buying is allowed, the session goes on, the candle before has the volume, the cash left by
      the trades closed so far pays amount and fee, and the buffered amount is within the ceiling. */
  lemma {:induction false} EntriesAreExact(series: PriceSeries, d: Definition, settings: Settings, costs: Schedule, m: nat)
    requires series.Valid() && settings.Valid() && costs.Valid() && d.Valid() && Executed(series, d, settings, costs).Ok?
    requires m < |AllTicks(series)|
    ensures
      var e, r, ticks := Executed(series, d, settings, costs).value, RulesOf(settings, costs, d.stop, d.target), AllTicks(series);
      EnteredExactly(r, ticks, FeedOf(r, d, ticks), e.trades, OpenOf(e.unresolved), e.noFills, m)
  {
    hide *;
    var r, ticks := RulesOf(settings, costs, d.stop, d.target), AllTicks(series);
    ValidRules(settings, costs, d.stop, d.target) by { DefinitionValid(d); }
    ExecutionOrder.ExecutedOpens(series, d, settings, costs);
    ExecutionOrder.SeriesTicks(series);
    RunExact(r, d, ticks, |ticks|);
    ExecutionOrder.RunOrderly(r, d, ticks, |ticks|);
    LastTick(series);
    EndOpen(r, d, ticks, RunTo(r, d, ticks, |ticks|).value);
    ExactAt(r, ticks, FeedOf(r, d, ticks), RunTo(r, d, ticks, |ticks|).value.book, m);
  }

  lemma {:induction false} ValidRules(settings: Settings, costs: Schedule, stop: real, target: real)
    requires settings.Valid() && costs.Valid() && 0.0 < stop < 1.0 && 0.0 < target < 1.0
    ensures RulesOf(settings, costs, stop, target).Valid()
  {
    hide Schedule.Valid, Settings.Valid;
  }

  lemma {:induction false} DefinitionValid(d: Definition)
    requires d.Valid()
    ensures 0.0 < d.stop < 1.0 && 0.0 < d.target < 1.0
  {
  }

  lemma {:induction false} LastTick(series: PriceSeries)
    requires series.Valid() && Complete(series) && series.sessions != [] && |AllTicks(series)| > 0
    ensures AllTicks(series)[|AllTicks(series)| - 1].Last()
  {
    hide Ticks;
    ExecutionOrder.SeriesTicks(series);
  }

  lemma {:induction false} EndOpen(r: Rules, d: Definition, ticks: seq<Tick>, run: Run)
    requires |ticks| > 0 && ticks[|ticks| - 1].Last() && ExecutionOrder.Orderly(d, ticks, |ticks|, run) && 0.0 < r.settings.capital
    ensures OpenAt(run.book) == OpenOf(run.unresolved)
    ensures ExecutionOf(r, run).trades == run.book.trades && ExecutionOf(r, run).unresolved == run.unresolved && ExecutionOf(r, run).noFills == run.book.noFills
  {
    hide EntrySignal, History, MetricsOf;
  }

  lemma {:induction false} ExactAt(r: Rules, ticks: seq<Tick>, f: Feed, b: Book, m: nat)
    requires f.For(ticks) && Exact(r, ticks, f, |ticks|, b) && m < |ticks|
    ensures EnteredExactly(r, ticks, f, b.trades, OpenAt(b), b.noFills, m)
  {
    hide EnteredExactly, Past;
  }

  /** The phase14 executor likewise, with the volume of the candle that opens. */
  lemma {:induction false} OldEntriesAreExact(series: PriceSeries, s: Strategy, settings: Settings, costs: Schedule, m: nat)
    requires series.Valid() && settings.Valid() && costs.Valid() && s.Valid() && Simulated(series, s, settings, costs).Ok?
    requires m < |AllTicks(series)|
    ensures
      var e, r, ticks := Simulated(series, s, settings, costs).value, RulesOf(settings, costs, s.stop, s.target), AllTicks(series);
      EnteredExactly(r, ticks, OldFeedOf(r, s, ticks), e.trades, None, e.noFills, m)
  {
    hide *;
    var r, ticks := RulesOf(settings, costs, s.stop, s.target), AllTicks(series);
    ValidRules(settings, costs, s.stop, s.target) by { StrategyValid(s); }
    SimulatedOpens(series, s, settings, costs);
    ExecutionOrder.SeriesTicks(series);
    OldRunExact(r, s, ticks, |ticks|);
    OldRunIsTold(r, s, ticks, |ticks|);
    LastTick(series);
    FlatAtEnd(r, ticks, OldRunTo(r, s, ticks, |ticks|).value);
    ExactAt(r, ticks, OldFeedOf(r, s, ticks), OldRunTo(r, s, ticks, |ticks|).value, m);
  }

  lemma {:induction false} StrategyValid(s: Strategy)
    requires s.Valid()
    ensures 0.0 < s.stop < 1.0 && 0.0 < s.target < 1.0
  {
  }

  lemma {:induction false} SimulatedOpens(series: PriceSeries, s: Strategy, settings: Settings, costs: Schedule)
    requires series.Valid() && settings.Valid() && s.Valid() && Simulated(series, s, settings, costs).Ok?
    ensures Complete(series) && series.sessions != []
    ensures
      var r, ticks, e := RulesOf(settings, costs, s.stop, s.target), AllTicks(series), Simulated(series, s, settings, costs).value;
      && OldRunTo(r, s, ticks, |ticks|).Ok? && e.trades == OldRunTo(r, s, ticks, |ticks|).value.trades
      && e.noFills == OldRunTo(r, s, ticks, |ticks|).value.noFills
  {
    hide OldRunTo, Ticks, MetricsOf, PriceSeries.Valid, Strategy.Valid;
  }

  lemma {:induction false} FlatAtEnd(r: Rules, ticks: seq<Tick>, b: Book)
    requires |ticks| > 0 && ticks[|ticks| - 1].Last() && Ready(r, ticks, |ticks|, b)
    ensures OpenAt(b) == None
  {
    hide AllTold;
  }
}
