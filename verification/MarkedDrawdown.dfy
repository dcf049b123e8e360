/** What the marked drawdown of both executors is: the worst fall of liquidation value below the highest equity so far,
    told from the candles and the trades. */
module MarkedDrawdown {
  import opened Wrappers
  import opened RealFacts
  import opened Costs
  import opened Series
  import opened Strategies
  import opened Executor
  import opened TradeLaws
  import opened EntryLaws
  import Causality
  import Drawdown
  import ExecutionOrder

  // ----- equity, from the trades -----

  /** A position held, by its entry time and price. */
  datatype Open = Open(at: int, entry: real)

  /** The entry price of the position that is held across an instant and the one after it: a trade not yet left, or the
      position that is still open. */
  function HeldAcross(trades: seq<Trade>, open: Option<Open>, from: int, to: int): Option<real> {
    if trades == [] then (if open.Some? && open.value.at <= from then Some(open.value.entry) else None)
    else if trades[|trades| - 1].entryAt <= from && to < trades[|trades| - 1].exitAt then Some(trades[|trades| - 1].entry)
    else HeldAcross(trades[..|trades| - 1], open, from, to)
  }

  /** Cash by an instant, less what a position then held has cost. */
  function CashWith(r: Rules, trades: seq<Trade>, held: Option<real>, at: int): real {
    CashBy(r, trades, at) - if held.Some? then Amount(r, held.value) + BuyCost(r.costs, Amount(r, held.value)) else 0.0
  }

  /** Equity when candle k completes: cash, and a held position at the close. */
  function EquityAfter(r: Rules, ticks: seq<Tick>, trades: seq<Trade>, open: Option<Open>, k: nat): real
    requires k < |ticks|
  {
    var held := HeldAcross(trades, open, ticks[k].bar.start, ticks[k].bar.End());
    CashWith(r, trades, held, ticks[k].bar.End()) + if held.Some? then Amount(r, ticks[k].bar.close) else 0.0
  }

  /** The highest equity before candle n, the capital included. */
  function PeakTo(r: Rules, ticks: seq<Tick>, trades: seq<Trade>, open: Option<Open>, n: nat): real
    requires n <= |ticks|
  {
    if n == 0 then r.settings.capital else Max(PeakTo(r, ticks, trades, open, n - 1), EquityAfter(r, ticks, trades, open, n - 1))
  }

  /** What selling at a candle's low brings after slippage, before the fee. */
  function LowAmount(r: Rules, bar: Candle): real { Amount(r, bar.low * (1.0 - r.settings.slippageBps / 10000.0)) }

  /** What selling a held position at the low of candle k would leave, after slippage and fee. */
  function LowValue(r: Rules, ticks: seq<Tick>, trades: seq<Trade>, entry: real, k: nat): real
    requires k < |ticks|
  {
    var low := LowAmount(r, ticks[k].bar);
    CashWith(r, trades, Some(entry), ticks[k].bar.start) + low - SellCost(r.costs, low, Amount(r, entry))
  }

  /** The worst fall before candle n, over the candles on which a position was held, the ones on which it was bought and
      sold included. */
  function WorstTo(r: Rules, ticks: seq<Tick>, trades: seq<Trade>, open: Option<Open>, n: nat): real
    requires n <= |ticks|
  {
    if n == 0 then 0.0
    else
      var before, held := WorstTo(r, ticks, trades, open, n - 1), HeldAcross(trades, open, ticks[n - 1].bar.start, ticks[n - 1].bar.start);
      if held.None? then before
      else
        var peak := PeakTo(r, ticks, trades, open, n - 1);
        Max(before, Ratio(peak - LowValue(r, ticks, trades, held.value, n - 1), peak))
  }

  // ----- what later candles leave alone -----

  function OpenIn(b: Book): Option<Open> {
    if b.position.Some? then Some(Open(b.position.value.entered, b.position.value.entry)) else None
  }

  /** Changes on candle n, with prices. */
  ghost predicate Moves(bar: Candle, b: Book, after: Book) {
    && (after.trades == b.trades ||
        (|after.trades| == |b.trades| + 1 && after.trades[..|b.trades|] == b.trades && after.position.None? &&
         after.trades[|b.trades|].exitAt == bar.End() &&
         (OpenIn(b) == Some(Open(after.trades[|b.trades|].entryAt, after.trades[|b.trades|].entry)) ||
          (b.position.None? && after.trades[|b.trades|].entryAt == bar.start))))
    && (after.trades == b.trades ==> after.position == b.position || (b.position.None? && after.position.Some? && after.position.value.entered == bar.start))
  }

  lemma {:induction false} HeldOpen(trades: seq<Trade>, open: Option<Open>, from: int, to: int)
    requires open.Some? && open.value.at <= from && forall t :: t in trades ==> t.exitAt <= from
    requires from <= to
    ensures HeldAcross(trades, open, from, to) == Some(open.value.entry)
  {
    if trades != [] {
      assert trades[|trades| - 1] in trades;
      assert forall t :: t in trades[..|trades| - 1] ==> t in trades;
      HeldOpen(trades[..|trades| - 1], open, from, to);
    }
  }

  lemma {:induction false} HeldNone(trades: seq<Trade>, open: Option<Open>, from: int, to: int)
    requires (open.Some? ==> from < open.value.at) && from <= to && forall t :: t in trades ==> t.exitAt <= to
    ensures HeldAcross(trades, open, from, to) == None
  {
    if trades != [] {
      assert trades[|trades| - 1] in trades;
      assert forall t :: t in trades[..|trades| - 1] ==> t in trades;
      HeldNone(trades[..|trades| - 1], open, from, to);
    }
  }

  /** An open position that is later than an instant does not matter to it. */
  lemma {:induction false} OpenLater(trades: seq<Trade>, a: Option<Open>, b: Option<Open>, from: int, to: int)
    requires (a.Some? ==> from < a.value.at) && (b.Some? ==> from < b.value.at)
    ensures HeldAcross(trades, a, from, to) == HeldAcross(trades, b, from, to)
  {
    if trades != [] { OpenLater(trades[..|trades| - 1], a, b, from, to); }
  }

  /** The trade an open position becomes stands for it before its exit. */
  lemma {:induction false} OpenSold(trades: seq<Trade>, t: Trade, from: int, to: int)
    requires from <= to < t.exitAt
    requires t.entryAt <= from ==> forall s :: s in trades ==> s.exitAt <= from
    ensures HeldAcross(trades + [t], None, from, to) == HeldAcross(trades, Some(Open(t.entryAt, t.entry)), from, to)
  {
    assert (trades + [t])[..|trades|] == trades;
    if t.entryAt <= from {
      HeldOpen(trades, Some(Open(t.entryAt, t.entry)), from, to);
    } else {
      OpenLater(trades, None, Some(Open(t.entryAt, t.entry)), from, to);
    }
  }

  /** Trades are over before the position in the book was opened. */
  ghost predicate InTurn(b: Book) {
    && (forall t :: t in b.trades ==> t.entryAt < t.exitAt)
    && (b.position.Some? ==> forall t :: t in b.trades ==> t.exitAt <= b.position.value.entered)
  }

  lemma {:induction false} HeldStays(ticks: seq<Tick>, n: nat, b: Book, after: Book, from: int, to: int)
    requires WellFormed(ticks) && n < |ticks| && Past(ticks, n, b) && InTurn(b) && Moves(ticks[n].bar, b, after)
    requires from <= to <= ticks[n].bar.start && from < ticks[n].bar.start
    ensures HeldAcross(after.trades, OpenIn(after), from, to) == HeldAcross(b.trades, OpenIn(b), from, to)
  {
    hide HeldAcross;
    var bar := ticks[n].bar;
    if after.trades == b.trades {
      if after.position != b.position { OpenLater(b.trades, OpenIn(after), OpenIn(b), from, to); }
    } else {
      var t := after.trades[|b.trades|];
      assert after.trades == b.trades + [t];
      if b.position.Some? {
        OpenSold(b.trades, t, from, to);
      } else {
        OpenLater(b.trades, None, Some(Open(t.entryAt, t.entry)), from, to);
        OpenSold(b.trades, t, from, to);
      }
    }
  }

  lemma {:induction false} MovesChange(bar: Candle, b: Book, after: Book)
    requires Moves(bar, b, after) && (after.noFills == b.noFills || after.noFills == b.noFills + [bar.start])
    ensures Changed(bar, b, after)
  {
  }

  /** Everything before candle n stays as it was told. */
  lemma {:induction false} ToldStays(r: Rules, ticks: seq<Tick>, n: nat, k: nat, b: Book, after: Book)
    requires WellFormed(ticks) && k <= n < |ticks| && Past(ticks, n, b) && InTurn(b) && Moves(ticks[n].bar, b, after)
    requires after.noFills == b.noFills || after.noFills == b.noFills + [ticks[n].bar.start]
    ensures PeakTo(r, ticks, after.trades, OpenIn(after), k) == PeakTo(r, ticks, b.trades, OpenIn(b), k)
    ensures WorstTo(r, ticks, after.trades, OpenIn(after), k) == WorstTo(r, ticks, b.trades, OpenIn(b), k)
  {
    hide HeldAcross, CashBy, BuyCost, SellCost, Amount, Ratio, Past, InTurn, Moves;
    if k > 0 {
      ToldStays(r, ticks, n, k - 1, b, after);
      var t := ticks[k - 1].bar;
      EarlierTick(ticks, k - 1, n);
      MovesChange(ticks[n].bar, b, after);
      SameBefore(r, ticks, n, k - 1, b, after);
      CashStays(r, ticks, n, b, after, t.End());
      HeldStays(ticks, n, b, after, t.start, t.End());
      HeldStays(ticks, n, b, after, t.start, t.start);
    }
  }

  lemma {:induction false} CashStays(r: Rules, ticks: seq<Tick>, n: nat, b: Book, after: Book, at: int)
    requires n < |ticks| && Changed(ticks[n].bar, b, after) && at <= ticks[n].bar.start
    ensures CashBy(r, after.trades, at) == CashBy(r, b.trades, at)
  {
    hide NetOf;
    Causality.LaterTrades(b.trades, after.trades, at);
  }

  // ----- one candle -----

  /** What the book keeps: its peak and drawdown are those told. */
  ghost predicate Tracked(r: Rules, ticks: seq<Tick>, n: nat, b: Book)
    requires n <= |ticks|
  {
    b.peak == PeakTo(r, ticks, b.trades, OpenIn(b), n) && b.drawdown == WorstTo(r, ticks, b.trades, OpenIn(b), n)
  }

  /** What a candle does to peak and drawdown: the open leaves them alone, and a position held through the open is marked at the low. */
  lemma {:induction false} MarksAtLow(r: Rules, bar: Candle, last: bool, liquid: bool, b: Book)
    requires AtOpen(r, bar, last, liquid, b).Ok?
    requires Manage(r, bar, last, AtOpen(r, bar, last, liquid, b).value).Ok?
    ensures
      var entered := AtOpen(r, bar, last, liquid, b).value;
      var after := Manage(r, bar, last, entered).value.book;
      && after.peak == b.peak && entered.peak == b.peak && entered.drawdown == b.drawdown
      && (entered.position.None? ==> after.drawdown == b.drawdown)
      && (entered.position.Some? ==>
            var low := LowAmount(r, bar);
            after.drawdown ==
            Max(b.drawdown, Ratio(b.peak - (entered.cash + low - SellCost(r.costs, low, Amount(r, entered.position.value.entry))), b.peak)))
  {
    EnterLeaves(r, bar, last, liquid, b);
    hide Enter, Exit, ExitReference, Rules.Liquid, MarkDown;
    var entered := AtOpen(r, bar, last, liquid, b).value;
    if entered.position.Some? {
      LowMark(r, bar, entered);
      MarkOnly(r, bar, entered);
      var marked := MarkDown(r, bar, entered).value;
      var (reference, reason) := ExitReference(bar, entered.position.value.entry, r, last);
      if reason.Some? && r.Liquid(bar.volume) { Drawdown.ExitAmounts(r, bar, reference, reason.value, marked); }
      hide SellCost, Ratio, Amount;
    }
  }

  lemma {:induction false} EnterLeaves(r: Rules, bar: Candle, last: bool, liquid: bool, b: Book)
    requires AtOpen(r, bar, last, liquid, b).Ok?
    ensures AtOpen(r, bar, last, liquid, b).value.peak == b.peak && AtOpen(r, bar, last, liquid, b).value.drawdown == b.drawdown
    ensures AtOpen(r, bar, last, liquid, b).value.trades == b.trades
  {
    hide Fee;
  }

  lemma {:induction false} LowMark(r: Rules, bar: Candle, b: Book)
    requires b.position.Some? && MarkDown(r, bar, b).Ok?
    ensures
      var low := LowAmount(r, bar);
      MarkDown(r, bar, b).value.drawdown ==
      Max(b.drawdown, Ratio(b.peak - (b.cash + low - SellCost(r.costs, low, Amount(r, b.position.value.entry))), b.peak))
  {
    hide *;
    MarkOpens(r, bar, b);
    FeeOf(r.costs, SELL, r.Worth(r.SalePrice(bar.low)), bar.start, Some(r.Worth(b.position.value.entry)));
    SameAmounts(r, bar);
    SameWorth(r, b.position.value.entry);
  }

  lemma {:induction false} MarkOpens(r: Rules, bar: Candle, b: Book)
    requires b.position.Some? && MarkDown(r, bar, b).Ok?
    ensures
      var mark := r.Worth(r.SalePrice(bar.low));
      var fee := Fee(r.costs, SELL, mark, bar.start, Some(r.Worth(b.position.value.entry)));
      fee.Ok? && MarkDown(r, bar, b).value.drawdown == Max(b.drawdown, Ratio(b.peak - (b.cash + mark - fee.value), b.peak))
  {
    hide Fee, Ratio, Max, Rules.Worth, Rules.SalePrice;
    var mark := r.Worth(r.SalePrice(bar.low));
    var fee := Fee(r.costs, SELL, mark, bar.start, Some(r.Worth(b.position.value.entry))).value;
    assert b.peak - b.cash - mark + fee == b.peak - (b.cash + mark - fee);
  }

  lemma {:induction false} SameWorth(r: Rules, price: real)
    ensures r.Worth(price) == Amount(r, price)
  {
  }

  lemma {:induction false} SameAmounts(r: Rules, bar: Candle)
    ensures r.Worth(r.SalePrice(bar.low)) == LowAmount(r, bar)
  {
  }

  /** Cash in a book, from its trades. */
  lemma {:induction false} CashIs(r: Rules, ticks: seq<Tick>, n: nat, p: Option<Position>, trades: seq<Trade>, cash: real, at: int)
    requires forall t :: t in trades ==> t.exitAt <= at
    requires p.Some? ==> p.value.fee == BuyCost(r.costs, Amount(r, p.value.entry))
    requires cash == r.settings.capital + NetOf(trades) - (if p.Some? then Amount(r, p.value.entry) + p.value.fee else 0.0)
    ensures cash == CashWith(r, trades, if p.Some? then Some(p.value.entry) else None, at)
  {
    AllClosed(trades, at);
    hide NetOf, BuyCost, Amount;
  }

  lemma {:induction false} OpenMoves(r: Rules, bar: Candle, last: bool, liquid: bool, b: Book)
    requires AtOpen(r, bar, last, liquid, b).Ok? && (b.pending.Some? ==> b.position.None?)
    ensures
      var entered := AtOpen(r, bar, last, liquid, b).value;
      && entered.trades == b.trades
      && (entered.position == b.position || (b.position.None? && entered.position.Some? && entered.position.value.entered == bar.start))
      && (entered.position == b.position ==> entered.cash == b.cash)
      && (entered.position != b.position ==>
            var p := entered.position.value;
            p.fee == BuyCost(r.costs, Amount(r, p.entry)) && entered.cash == b.cash - (Amount(r, p.entry) + p.fee))
  {
    if b.pending.Some? {
      FeeOf(r.costs, BUY, r.Worth(r.BuyPrice(bar.open)), bar.start, None);
    }
    hide Fee, BuyCost;
  }

  lemma {:induction false} ManageMoves(r: Rules, bar: Candle, last: bool, b: Book)
    requires Manage(r, bar, last, b).Ok?
    ensures
      var after := Manage(r, bar, last, b).value.book;
      && (after.position == b.position ==> after.trades == b.trades && after.cash == b.cash)
      && (after.position != b.position ==>
            b.position.Some? && after.position.None? && |after.trades| == |b.trades| + 1 && after.trades[..|b.trades|] == b.trades &&
            after.trades[|b.trades|].exitAt == bar.End() && after.trades[|b.trades|].entryAt == b.position.value.entered &&
            after.trades[|b.trades|].entry == b.position.value.entry)
  {
    hide MarkDown, Exit, ExitReference, Rules.Liquid;
    if b.position.Some? {
      MarkOnly(r, bar, b);
      var marked := MarkDown(r, bar, b).value;
      var (reference, reason) := ExitReference(bar, b.position.value.entry, r, last);
      if reason.Some? && r.Liquid(bar.volume) { ExitTold(r, bar, reference, reason.value, marked); }
    }
  }

  /** What the candle's book must be for the rest. */
  ghost predicate Sound(r: Rules, ticks: seq<Tick>, n: nat, b: Book)
    requires n <= |ticks|
  {
    && Past(ticks, n, b) && InTurn(b)
    && b.cash == r.settings.capital + NetOf(b.trades) - (if b.position.Some? then Amount(r, b.position.value.entry) + b.position.value.fee else 0.0)
    && (b.position.Some? ==> b.position.value.fee == BuyCost(r.costs, Amount(r, b.position.value.entry)))
    && (b.pending.Some? ==> b.position.None?)
  }

  lemma {:induction false} PastClosed(ticks: seq<Tick>, n: nat, b: Book)
    requires WellFormed(ticks) && n < |ticks| && Past(ticks, n, b)
    ensures forall t :: t in b.trades ==> t.exitAt <= ticks[n].bar.start
    ensures b.position.Some? ==> b.position.value.entered < ticks[n].bar.start
  {
    if n > 0 { EarlierTick(ticks, n - 1, n); }
  }

  /** The position managed on candle n is the one held at its start. */
  lemma {:induction false} HeldNow(r: Rules, ticks: seq<Tick>, n: nat, b: Book, entered: Book, after: Book)
    requires WellFormed(ticks) && n < |ticks| && Past(ticks, n, b)
    requires entered.trades == b.trades
    requires entered.position == b.position || (b.position.None? && entered.position.Some? && entered.position.value.entered == ticks[n].bar.start)
    requires after.position == entered.position ==> after.trades == entered.trades
    requires after.position != entered.position ==>
      entered.position.Some? && after.position.None? && |after.trades| == |entered.trades| + 1 && after.trades[..|entered.trades|] == entered.trades &&
      after.trades[|entered.trades|].exitAt == ticks[n].bar.End() && after.trades[|entered.trades|].entryAt == entered.position.value.entered &&
      after.trades[|entered.trades|].entry == entered.position.value.entry
    ensures
      var at := ticks[n].bar.start;
      HeldAcross(after.trades, OpenIn(after), at, at) == if entered.position.Some? then Some(entered.position.value.entry) else None
    ensures
      var bar := ticks[n].bar;
      HeldAcross(after.trades, OpenIn(after), bar.start, bar.End()) == if after.position.Some? then Some(after.position.value.entry) else None
  {
    var bar := ticks[n].bar;
    PastClosed(ticks, n, b);
    if after.position == entered.position {
      if after.position.Some? {
        HeldOpen(after.trades, OpenIn(after), bar.start, bar.start);
        HeldOpen(after.trades, OpenIn(after), bar.start, bar.End());
      } else {
        HeldNone(after.trades, None, bar.start, bar.start);
        HeldNone(after.trades, None, bar.start, bar.End());
      }
    } else {
      var t := after.trades[|b.trades|];
      assert after.trades == b.trades + [t] && after.trades[|after.trades| - 1] == t;
      HeldNone(after.trades, None, bar.start, bar.End());
    }
  }

  lemma {:induction false} MovesOf(bar: Candle, b: Book, entered: Book, after: Book)
    requires entered.trades == b.trades
    requires entered.position == b.position || (b.position.None? && entered.position.Some? && entered.position.value.entered == bar.start)
    requires after.position == entered.position ==> after.trades == entered.trades
    requires after.position != entered.position ==>
      entered.position.Some? && after.position.None? && |after.trades| == |entered.trades| + 1 && after.trades[..|entered.trades|] == entered.trades &&
      after.trades[|entered.trades|].exitAt == bar.End() && after.trades[|entered.trades|].entryAt == entered.position.value.entered &&
      after.trades[|entered.trades|].entry == entered.position.value.entry
    ensures Moves(bar, b, after)
  {
  }

  /** After managing candle n the drawdown is the worst fall so far, and the peak the highest equity before it. */
  lemma {:induction false} CandleTracked(r: Rules, ticks: seq<Tick>, f: Feed, n: nat, b: Book, entered: Book, m: Managed)
    requires WellFormed(ticks) && n < |ticks| && f.For(ticks) && Sound(r, ticks, n, b) && Tracked(r, ticks, n, b)
    requires CandleBooks(r, ticks, f, n, b, entered, m)
    ensures m.book.drawdown == WorstTo(r, ticks, m.book.trades, OpenIn(m.book), n + 1)
    ensures m.book.peak == PeakTo(r, ticks, m.book.trades, OpenIn(m.book), n)
    ensures Past(ticks, n + 1, m.book) && InTurn(m.book)
    ensures HeldAcross(m.book.trades, OpenIn(m.book), ticks[n].bar.start, ticks[n].bar.End()) ==
            if m.book.position.Some? then Some(m.book.position.value.entry) else None
    ensures m.book.position.Some? ==> m.book.position.value.fee == BuyCost(r.costs, Amount(r, m.book.position.value.entry))
  {
    hide *;
    FeedSizes(f, ticks);
    var t := ticks[n];
    SoundParts(r, ticks, n, b);
    BooksOpen(r, ticks, f, n, b, entered, m);
    OpenMoves(r, t.bar, t.Last(), f.liquid[n], b);
    ManageMoves(r, t.bar, t.Last(), entered);
    MarksAtLow(r, t.bar, t.Last(), f.liquid[n], b);
    MovesOf(t.bar, b, entered, m.book);
    CandleChanges(r, ticks, f, n, b, entered, m);
    ChangedRefusals(t.bar, b, m.book);
    PastLater(ticks, n, b, m.book);
    TurnsOn(ticks, n, b, m.book);
    ToldStays(r, ticks, n, n, b, m.book);
    HeldNow(r, ticks, n, b, entered, m.book);
    PastClosed(ticks, n, b);
    TrackedParts(r, ticks, n, b);
    WorstNext(r, ticks, m.book.trades, OpenIn(m.book), n);
    if entered.position.Some? {
      CashIs(r, ticks, n, entered.position, b.trades, entered.cash, t.bar.start);
      CashStays(r, ticks, n, b, m.book, t.bar.start);
      SameCashWith(r, b.trades, m.book.trades, Some(entered.position.value.entry), t.bar.start);
      LowValueIs(r, ticks, m.book.trades, entered.position.value.entry, n);
    }
  }

  lemma {:induction false} FeedSizes(f: Feed, ticks: seq<Tick>)
    requires f.For(ticks)
    ensures |f.fires| == |f.liquid| == |ticks|
  {
  }

  lemma {:induction false} SoundParts(r: Rules, ticks: seq<Tick>, n: nat, b: Book)
    requires n <= |ticks| && Sound(r, ticks, n, b)
    ensures Past(ticks, n, b) && InTurn(b) && (b.pending.Some? ==> b.position.None?)
    ensures b.cash == r.settings.capital + NetOf(b.trades) - (if b.position.Some? then Amount(r, b.position.value.entry) + b.position.value.fee else 0.0)
    ensures b.position.Some? ==> b.position.value.fee == BuyCost(r.costs, Amount(r, b.position.value.entry))
  {
  }

  lemma {:induction false} BooksOpen(r: Rules, ticks: seq<Tick>, f: Feed, n: nat, b: Book, entered: Book, m: Managed)
    requires n < |ticks| && f.For(ticks) && CandleBooks(r, ticks, f, n, b, entered, m)
    ensures AtOpen(r, ticks[n].bar, ticks[n].Last(), f.liquid[n], b) == Ok(entered)
    ensures Manage(r, ticks[n].bar, ticks[n].Last(), entered) == Ok(m)
  {
    hide AtOpen, Manage;
  }

  lemma {:induction false} ChangedRefusals(bar: Candle, b: Book, after: Book)
    requires Changed(bar, b, after)
    ensures after.noFills == b.noFills || after.noFills == b.noFills + [bar.start]
  {
  }

  lemma {:induction false} TurnsOn(ticks: seq<Tick>, n: nat, b: Book, after: Book)
    requires WellFormed(ticks) && n < |ticks| && Past(ticks, n, b) && InTurn(b) && Moves(ticks[n].bar, b, after) && Past(ticks, n + 1, after)
    ensures InTurn(after)
  {
    PastClosed(ticks, n, b);
    forall t | t in after.trades ensures t.entryAt < t.exitAt {
      if t !in b.trades { assert after.trades == b.trades + [after.trades[|b.trades|]]; }
    }
  }

  lemma {:induction false} TrackedParts(r: Rules, ticks: seq<Tick>, n: nat, b: Book)
    requires n <= |ticks| && Tracked(r, ticks, n, b)
    ensures b.peak == PeakTo(r, ticks, b.trades, OpenIn(b), n) && b.drawdown == WorstTo(r, ticks, b.trades, OpenIn(b), n)
  {
    hide PeakTo, WorstTo;
  }

  lemma {:induction false} WorstNext(r: Rules, ticks: seq<Tick>, trades: seq<Trade>, open: Option<Open>, n: nat)
    requires n < |ticks|
    ensures
      var held, before := HeldAcross(trades, open, ticks[n].bar.start, ticks[n].bar.start), WorstTo(r, ticks, trades, open, n);
      WorstTo(r, ticks, trades, open, n + 1) ==
      if held.None? then before
      else
        Max(before, Ratio(PeakTo(r, ticks, trades, open, n) - LowValue(r, ticks, trades, held.value, n), PeakTo(r, ticks, trades, open, n)))
  {
    hide HeldAcross, PeakTo, LowValue, Ratio;
  }

  lemma {:induction false} SameCashWith(r: Rules, trades: seq<Trade>, more: seq<Trade>, held: Option<real>, at: int)
    requires CashBy(r, more, at) == CashBy(r, trades, at)
    ensures CashWith(r, more, held, at) == CashWith(r, trades, held, at)
  {
    hide CashBy, BuyCost, Amount;
  }

  lemma {:induction false} LowValueIs(r: Rules, ticks: seq<Tick>, trades: seq<Trade>, entry: real, n: nat)
    requires n < |ticks|
    ensures
      var low := LowAmount(r, ticks[n].bar);
      LowValue(r, ticks, trades, entry, n) ==
      CashWith(r, trades, Some(entry), ticks[n].bar.start) + low - SellCost(r.costs, low, Amount(r, entry))
  {
    hide CashWith, SellCost, Amount;
  }

  /** Closing the candle raises the peak to the equity told. */
  lemma {:induction false} FinishTracked(r: Rules, ticks: seq<Tick>, n: nat, fires: bool, b: Book)
    requires n < |ticks| && Past(ticks, n + 1, b) && b.drawdown == WorstTo(r, ticks, b.trades, OpenIn(b), n + 1)
    requires b.peak == PeakTo(r, ticks, b.trades, OpenIn(b), n)
    requires HeldAcross(b.trades, OpenIn(b), ticks[n].bar.start, ticks[n].bar.End()) == if b.position.Some? then Some(b.position.value.entry) else None
    requires b.position.Some? ==> b.position.value.fee == BuyCost(r.costs, Amount(r, b.position.value.entry))
    requires b.cash == r.settings.capital + NetOf(b.trades) - (if b.position.Some? then Amount(r, b.position.value.entry) + b.position.value.fee else 0.0)
    ensures Tracked(r, ticks, n + 1, Finish(r, ticks[n].bar, ticks[n].Last(), fires, b))
  {
    var bar := ticks[n].bar;
    CashIs(r, ticks, n, b.position, b.trades, b.cash, bar.End());
    SameWorth(r, bar.close);
    hide HeldAcross, CashWith, NetOf, BuyCost, Amount, Rules.Worth, Past, WorstTo;
    assert PeakTo(r, ticks, b.trades, OpenIn(b), n + 1) == Max(PeakTo(r, ticks, b.trades, OpenIn(b), n), EquityAfter(r, ticks, b.trades, OpenIn(b), n));
    hide PeakTo;
  }

  // ----- whole runs -----

  lemma {:induction false} NothingTracked(r: Rules, ticks: seq<Tick>)
    ensures Tracked(r, ticks, 0, Opening(r)) && Sound(r, ticks, 0, Opening(r))
  {
  }

  /** A book that is ready, in the past and accounted for is sound. */
  lemma {:induction false} IsSound(r: Rules, ticks: seq<Tick>, f: Feed, n: nat, b: Book)
    requires r.Valid() && 0.0 < r.settings.capital && n <= |ticks| && f.For(ticks) && Exact(r, ticks, f, n, b) && Drawdown.Bounded(r, b) && InTurn(b)
    requires b.position.Some? ==> b.position.value.fee == BuyCost(r.costs, Amount(r, b.position.value.entry))
    ensures Sound(r, ticks, n, b)
  {
    AccountedParts(r, b);
    hide NetOf, Amount, Schedule.Valid, EnteredExactly, BuyCost, InTurn, Past, Drawdown.Bounded, Drawdown.Accounted;
  }

  lemma {:induction false} AccountedParts(r: Rules, b: Book)
    requires 0.0 < r.settings.capital && Drawdown.Bounded(r, b)
    ensures b.cash == r.settings.capital + NetOf(b.trades) - (if b.position.Some? then Amount(r, b.position.value.entry) + b.position.value.fee else 0.0)
    ensures b.pending.Some? ==> b.position.None?
  {
    if b.position.Some? { SameWorth(r, b.position.value.entry); }
    hide NetOf, Amount, Rules.Worth;
  }

  /** What a run keeps: its book tracked, or, once halted, tracked to the candle it halted on. */
  ghost predicate RunTracked(r: Rules, ticks: seq<Tick>, n: nat, run: Run)
    requires n <= |ticks|
  {
    && InTurn(run.book)
    && (run.book.position.Some? ==> run.book.position.value.fee == BuyCost(r.costs, Amount(r, run.book.position.value.entry)))
    && (run.unresolved == [] ==> Tracked(r, ticks, n, run.book))
    && (run.unresolved != [] ==> exists h: nat :: HaltedOn(r, ticks, n, run, h))
  }

  ghost predicate HaltedOn(r: Rules, ticks: seq<Tick>, n: nat, run: Run, h: nat)
    requires n <= |ticks|
  {
    && h < n && run.unresolved != [] && run.unresolved[0].exitAt == ticks[h].bar.End()
    && run.book.drawdown == WorstTo(r, ticks, run.book.trades, OpenIn(run.book), h + 1)
  }

  lemma {:induction false} RunIsTracked(r: Rules, d: Definition, ticks: seq<Tick>, n: nat)
    requires r.Valid() && WellFormed(ticks) && n <= |ticks| && RunTo(r, d, ticks, n).Ok?
    ensures RunTracked(r, ticks, n, RunTo(r, d, ticks, n).value)
  {
    hide *;
    if n == 0 {
      StartTracked(r, d, ticks);
    } else {
      RunOpens(r, d, ticks, n);
      RunIsTracked(r, d, ticks, n - 1);
      RunExact(r, d, ticks, n - 1);
      RunIsTold(r, d, ticks, n - 1);
      Drawdown.CapitalPositive(r);
      Drawdown.RunBounded(r, d, ticks, n - 1);
      Drawdown.RunBounded(r, d, ticks, n);
      var before := RunTo(r, d, ticks, n - 1).value;
      if before.unresolved == [] {
        StepTracked(r, d, ticks, n - 1, before);
      } else {
        StillHalted(r, ticks, n - 1, before);
      }
    }
  }

  lemma {:induction false} StartTracked(r: Rules, d: Definition, ticks: seq<Tick>)
    ensures RunTo(r, d, ticks, 0).Ok? && RunTracked(r, ticks, 0, RunTo(r, d, ticks, 0).value)
  {
    NothingTracked(r, ticks);
  }

  lemma {:induction false} RunOpens(r: Rules, d: Definition, ticks: seq<Tick>, n: nat)
    requires 0 < n <= |ticks| && RunTo(r, d, ticks, n).Ok?
    ensures RunTo(r, d, ticks, n - 1).Ok?
    ensures
      var before := RunTo(r, d, ticks, n - 1).value;
      RunTo(r, d, ticks, n) == if before.unresolved != [] then Ok(before) else Step(r, d, ticks, n - 1, before)
  {
    hide Step;
  }

  lemma {:induction false} StillHalted(r: Rules, ticks: seq<Tick>, n: nat, run: Run)
    requires n < |ticks| && RunTracked(r, ticks, n, run) && run.unresolved != []
    ensures RunTracked(r, ticks, n + 1, run)
  {
    hide InTurn, WorstTo, BuyCost;
    var h: nat :| HaltedOn(r, ticks, n, run, h);
    assert HaltedOn(r, ticks, n + 1, run, h);
  }

  lemma {:induction false} StepTracked(r: Rules, d: Definition, ticks: seq<Tick>, n: nat, run: Run)
    requires r.Valid() && 0.0 < r.settings.capital && WellFormed(ticks) && n < |ticks| && RunTold(r, ticks, n, run) && run.unresolved == []
    requires Exact(r, ticks, FeedOf(r, d, ticks), n, run.book) && Drawdown.Bounded(r, run.book) && RunTracked(r, ticks, n, run)
    requires Step(r, d, ticks, n, run).Ok? && Drawdown.Bounded(r, Step(r, d, ticks, n, run).value.book)
    ensures RunTracked(r, ticks, n + 1, Step(r, d, ticks, n, run).value)
  {
    hide *;
    var f, b := FeedOf(r, d, ticks), run.book;
    FeedSizes(f, ticks);
    RunReady(r, ticks, n, run);
    ReadyParts(r, ticks, n, b);
    TrackedRun(r, ticks, n, run);
    IsSound(r, ticks, f, n, b);
    var entered, m := StepBooks(r, d, ticks, n, run);
    CandleTracked(r, ticks, f, n, b, entered, m);
    var after := Step(r, d, ticks, n, run).value;
    AccountedParts(r, after.book);
    if m.Going? {
      FinishTold(r, ticks[n].bar, ticks[n].Last(), f.fires[n], m.book);
      FinishTracked(r, ticks, n, f.fires[n], m.book);
      Carries(r, ticks, n, after, m.book);
    } else {
      StuckTracked(r, d, ticks, n, run, m);
    }
  }

  lemma {:induction false} RunReady(r: Rules, ticks: seq<Tick>, n: nat, run: Run)
    requires n <= |ticks| && RunTold(r, ticks, n, run) && run.unresolved == []
    ensures Ready(r, ticks, n, run.book)
  {
    hide Ready, AllTold;
  }

  lemma {:induction false} TrackedRun(r: Rules, ticks: seq<Tick>, n: nat, run: Run)
    requires n <= |ticks| && RunTracked(r, ticks, n, run) && run.unresolved == []
    ensures Tracked(r, ticks, n, run.book) && InTurn(run.book)
    ensures run.book.position.Some? ==> run.book.position.value.fee == BuyCost(r.costs, Amount(r, run.book.position.value.entry))
  {
    hide Tracked, InTurn, BuyCost, Amount;
  }

  lemma {:induction false} Carries(r: Rules, ticks: seq<Tick>, n: nat, run: Run, m: Book)
    requires n < |ticks| && Tracked(r, ticks, n + 1, run.book) && run.unresolved == [] && InTurn(m)
    requires run.book.trades == m.trades && run.book.position == m.position
    requires m.position.Some? ==> m.position.value.fee == BuyCost(r.costs, Amount(r, m.position.value.entry))
    ensures RunTracked(r, ticks, n + 1, run)
  {
    hide Tracked, BuyCost, Amount;
  }

  lemma {:induction false} StuckTracked(r: Rules, d: Definition, ticks: seq<Tick>, n: nat, run: Run, m: Managed)
    requires n < |ticks| && run.unresolved == [] && Step(r, d, ticks, n, run).Ok? && m.Stuck?
    requires Step(r, d, ticks, n, run).value.unresolved != [] && Step(r, d, ticks, n, run).value.book == m.book
    requires m.book.drawdown == WorstTo(r, ticks, m.book.trades, OpenIn(m.book), n + 1) && InTurn(m.book)
    requires m.book.position.Some? ==> m.book.position.value.fee == BuyCost(r.costs, Amount(r, m.book.position.value.entry))
    ensures RunTracked(r, ticks, n + 1, Step(r, d, ticks, n, run).value)
  {
    StuckAt(r, d, ticks, n, run);
    hide Step, WorstTo, InTurn, BuyCost, Amount;
    assert HaltedOn(r, ticks, n + 1, Step(r, d, ticks, n, run).value, n);
  }

  lemma {:induction false} StuckAt(r: Rules, d: Definition, ticks: seq<Tick>, n: nat, run: Run)
    requires n < |ticks| && run.unresolved == [] && Step(r, d, ticks, n, run).Ok? && Step(r, d, ticks, n, run).value.unresolved != []
    ensures Step(r, d, ticks, n, run).value.unresolved[0].exitAt == ticks[n].bar.End()
  {
    hide Enter, Manage, Finish, EntrySignal, History;
  }

  lemma {:induction false} OldRunTracked(r: Rules, s: Strategy, ticks: seq<Tick>, n: nat)
    requires r.Valid() && s.Valid() && WellFormed(ticks) && n <= |ticks| && OldRunTo(r, s, ticks, n).Ok?
    ensures
      var b := OldRunTo(r, s, ticks, n).value;
      && Tracked(r, ticks, n, b) && InTurn(b) && (b.position.Some? ==> b.position.value.fee == BuyCost(r.costs, Amount(r, b.position.value.entry)))
  {
    hide *;
    if n == 0 {
      OldStartTracked(r, s, ticks);
    } else {
      OldRunOpens(r, s, ticks, n);
      OldRunTracked(r, s, ticks, n - 1);
      OldRunExact(r, s, ticks, n - 1);
      OldRunIsTold(r, s, ticks, n - 1);
      Drawdown.CapitalPositive(r);
      Drawdown.OldRunBounded(r, s, ticks, n - 1);
      Drawdown.OldRunBounded(r, s, ticks, n);
      var k, b, f := n - 1, OldRunTo(r, s, ticks, n - 1).value, OldFeedOf(r, s, ticks);
      FeedSizes(f, ticks);
      ReadyParts(r, ticks, k, b);
      IsSound(r, ticks, f, k, b);
      var entered, m := OldStepBooks(r, s, ticks, k, b);
      CandleTracked(r, ticks, f, k, b, entered, m);
      AccountedParts(r, OldRunTo(r, s, ticks, n).value);
      FinishTold(r, ticks[k].bar, ticks[k].Last(), f.fires[k], m.book);
      FinishTracked(r, ticks, k, f.fires[k], m.book);
      SameTurn(m.book, OldRunTo(r, s, ticks, n).value);
    }
  }

  lemma {:induction false} SameTurn(a: Book, b: Book)
    requires InTurn(a) && a.trades == b.trades && a.position == b.position
    ensures InTurn(b)
  {
  }

  lemma {:induction false} OldStartTracked(r: Rules, s: Strategy, ticks: seq<Tick>)
    requires s.Valid()
    ensures OldRunTo(r, s, ticks, 0) == Ok(Opening(r)) && Tracked(r, ticks, 0, Opening(r)) && InTurn(Opening(r)) && Opening(r).position.None?
  {
    NothingTracked(r, ticks);
  }

  lemma {:induction false} OldRunOpens(r: Rules, s: Strategy, ticks: seq<Tick>, n: nat)
    requires s.Valid() && 0 < n <= |ticks| && OldRunTo(r, s, ticks, n).Ok?
    ensures OldRunTo(r, s, ticks, n - 1).Ok? && OldRunTo(r, s, ticks, n) == OldStep(r, s, ticks, n - 1, OldRunTo(r, s, ticks, n - 1).value)
  {
    hide OldStep, Strategy.Valid;
  }

  // ----- results -----

  function OpenOfUnresolved(us: seq<Unresolved>): Option<Open> { if us == [] then None else Some(Open(us[0].entryAt, us[0].entry)) }

  /** The phase14 executor's marked drawdown is the worst fall over all candles. */
  lemma {:induction false} OldDrawdownIsWorstFall(series: PriceSeries, s: Strategy, settings: Settings, costs: Schedule)
    requires series.Valid() && settings.Valid() && costs.Valid() && s.Valid() && Simulated(series, s, settings, costs).Ok?
    ensures
      var e, r, ticks := Simulated(series, s, settings, costs).value, RulesOf(settings, costs, s.stop, s.target), AllTicks(series);
      e.drawdown == WorstTo(r, ticks, e.trades, None, |ticks|)
  {
    hide *;
    var r, ticks := RulesOf(settings, costs, s.stop, s.target), AllTicks(series);
    StrategyValid(s);
    ValidRules(settings, costs, s.stop, s.target);
    SimulatedOpens(series, s, settings, costs);
    SimulatedDrawdown(series, s, settings, costs);
    ExecutionOrder.SeriesTicks(series);
    OldRunTracked(r, s, ticks, |ticks|);
    OldRunIsTold(r, s, ticks, |ticks|);
    LastTick(series);
    FlatAtEnd(r, ticks, OldRunTo(r, s, ticks, |ticks|).value);
    NoOpen(OldRunTo(r, s, ticks, |ticks|).value);
    TrackedParts(r, ticks, |ticks|, OldRunTo(r, s, ticks, |ticks|).value);
  }

  lemma {:induction false} SimulatedDrawdown(series: PriceSeries, s: Strategy, settings: Settings, costs: Schedule)
    requires series.Valid() && settings.Valid() && s.Valid() && Simulated(series, s, settings, costs).Ok?
    ensures
      var r, ticks := RulesOf(settings, costs, s.stop, s.target), AllTicks(series);
      OldRunTo(r, s, ticks, |ticks|).Ok? && Simulated(series, s, settings, costs).value.drawdown == OldRunTo(r, s, ticks, |ticks|).value.drawdown
  {
    hide OldRunTo, Ticks, MetricsOf, PriceSeries.Valid, Strategy.Valid;
  }

  lemma {:induction false} NoOpen(b: Book)
    requires OpenAt(b) == None
    ensures OpenIn(b) == None
  {
  }

  /** The causal executor's marked drawdown is the worst fall over all candles, or over those up to the one whose exit could
      not be filled: on each candle on which a position is held, how far cash and what a sale at the low would leave, after
      slippage and fee, lie below the highest equity of the candles before. */
  lemma {:induction false} DrawdownIsWorstFall(series: PriceSeries, d: Definition, settings: Settings, costs: Schedule)
    requires series.Valid() && settings.Valid() && costs.Valid() && d.Valid() && Executed(series, d, settings, costs).Ok?
    ensures
      var e, r, ticks := Executed(series, d, settings, costs).value, RulesOf(settings, costs, d.stop, d.target), AllTicks(series);
      exists n: nat :: n <= |ticks| && e.drawdown == WorstTo(r, ticks, e.trades, OpenOfUnresolved(e.unresolved), n) &&
                       if e.unresolved == [] then n == |ticks| else n > 0 && ticks[n - 1].bar.End() == e.unresolved[0].exitAt
  {
    hide *;
    var r, ticks := RulesOf(settings, costs, d.stop, d.target), AllTicks(series);
    DefinitionValid(d);
    ValidRules(settings, costs, d.stop, d.target);
    ExecutionOrder.ExecutedOpens(series, d, settings, costs);
    ExecutionOrder.SeriesTicks(series);
    RunIsTracked(r, d, ticks, |ticks|);
    ExecutionOrder.RunOrderly(r, d, ticks, |ticks|);
    LastTick(series);
    var run := RunTo(r, d, ticks, |ticks|).value;
    OpenIs(r, d, ticks, run);
    ExecutedDrawdown(r, run);
    if run.unresolved == [] {
      TrackedRun(r, ticks, |ticks|, run);
      TrackedParts(r, ticks, |ticks|, run.book);
    } else {
      var h := HaltedWhere(r, ticks, |ticks|, run);
      assert h + 1 <= |ticks| && ticks[h + 1 - 1].bar.End() == run.unresolved[0].exitAt;
    }
  }

  lemma {:induction false} ExecutedDrawdown(r: Rules, run: Run)
    requires 0.0 < r.settings.capital
    ensures ExecutionOf(r, run).drawdown == run.book.drawdown && ExecutionOf(r, run).trades == run.book.trades
    ensures ExecutionOf(r, run).unresolved == run.unresolved
  {
    hide MetricsOf;
  }

  lemma {:induction false} HaltedWhere(r: Rules, ticks: seq<Tick>, n: nat, run: Run) returns (h: nat)
    requires n <= |ticks| && RunTracked(r, ticks, n, run) && run.unresolved != []
    ensures h < n && run.unresolved[0].exitAt == ticks[h].bar.End() && run.book.drawdown == WorstTo(r, ticks, run.book.trades, OpenIn(run.book), h + 1)
  {
    hide WorstTo, InTurn, BuyCost, Amount;
    h :| HaltedOn(r, ticks, n, run, h);
  }

  lemma {:induction false} OpenIs(r: Rules, d: Definition, ticks: seq<Tick>, run: Run)
    requires |ticks| > 0 && ticks[|ticks| - 1].Last() && ExecutionOrder.Orderly(d, ticks, |ticks|, run)
    ensures OpenIn(run.book) == OpenOfUnresolved(run.unresolved)
  {
    hide EntrySignal, History;
  }
}
