/** A single session of eight candles on which both executors can be made to trade once or twice at
    chosen prices: the days on which a harsh tariff breaks the drawdown bound. */
module WildDay {
  import opened Wrappers
  import opened Clock
  import opened Series
  import opened Strategies
  import opened Executor

  // ----- the day -----

  /** Candles stand at the range price except for two breakouts, each followed by a purchase at `price`; the
      first one happens only if `twice`. The purchases fall to `dip` and to `low`. */
  datatype Day = Day(date: int, range: real, price: real, twice: bool, dip: real, low: real)
  {
    ghost predicate Valid() { 0.0 < low <= dip <= price <= range }

    function Open(): int { Combine(date, 555) }
  }

  function Still(at: int, p: real): Candle { Candle(at, p, p, p, p, 1) }

  function Breakout(at: int, p: real): Candle { Candle(at, p, 2.0 * p, p, 2.0 * p, 1) }

  function CandleOf(w: Day, i: nat): Candle {
    var at := w.Open() + FIVE * i;
    if i == 3 && w.twice then Breakout(at, w.range)
    else if i == 4 && w.twice then Candle(at, w.price, w.range, w.price, w.range, 1)
    else if i == 5 then
      if w.twice then Candle(at, w.price, 2.0 * w.range, w.dip, 2.0 * w.range, 1) else Breakout(at, w.range)
    else if i == 6 then Candle(at, w.price, 2.0 * w.range, w.low, 2.0 * w.range, 1)
    else Still(at, w.range)
  }

  function CandlesOf(w: Day, n: nat): (r: seq<Candle>)
    ensures |r| == n && forall i :: 0 <= i < n ==> r[i] == CandleOf(w, i)
  {
    seq(n, i requires 0 <= i < n => CandleOf(w, i))
  }

  const LENGTH := 8

  function SeriesOf(w: Day): PriceSeries {
    PriceSeries("DAY", w.Open(), w.Open() + 40, w.Open() + 40, true, [Session(w.Open(), w.Open() + 40)], {}, CandlesOf(w, LENGTH))
  }

  lemma {:induction false} ClockOf(w: Day, k: int)
    requires 0 <= k < 40
    ensures DateOf(w.Open() + k) == w.date && TimeOfDay(w.Open() + k) == 555 + k && w.Open() % FIVE == 0
  {
  }

  lemma {:induction false} CandlesValid(w: Day, i: nat)
    requires w.Valid() && i < LENGTH
    ensures CandleOf(w, i).Valid() && CandleOf(w, i).start == w.Open() + FIVE * i && CandleOf(w, i).volume == 1
  {
    ClockOf(w, 0);
    hide Day.Open;
  }

  lemma {:induction false} DaySessions(w: Day)
    requires w.Valid()
    ensures SeriesOf(w).CalendarKnown() && InOrder(SeriesOf(w).sessions)
    ensures DateOf(w.Open()) == w.date && DateOf(w.Open() + 40) == w.date
  {
    ClockOf(w, 0);
    ClockOf(w, 39);
    var series := SeriesOf(w);
    var s := series.sessions[0];
    assert DateOf(w.Open() + 40) == w.date;
    hide Day.Open;
    var active := set x | x in series.sessions :: DateOf(x.start);
    assert s in series.sessions && active == {w.date};
  }

  lemma {:induction false} DayCandles(w: Day)
    requires w.Valid()
    ensures Sound(CandlesOf(w, LENGTH)) && Increasing(CandlesOf(w, LENGTH))
    ensures forall b :: b in CandlesOf(w, LENGTH) ==> w.Open() <= b.start && b.End() <= w.Open() + 40
  {
    forall i: nat | i < LENGTH ensures CandleOf(w, i).Valid() && CandleOf(w, i).start == w.Open() + FIVE * i { CandlesValid(w, i); }
    hide CandleOf, Day.Open, Day.Valid;
  }

  lemma {:induction false} DayValid(w: Day)
    requires w.Valid()
    ensures SeriesOf(w).Valid()
  {
    hide PriceSeries.CalendarKnown, InOrder, Sound, Increasing, CandlesOf, DateOf, Day.Open;
    DaySessions(w);
    DayCandles(w);
  }

  lemma {:induction false} DayComplete(w: Day)
    requires w.Valid()
    ensures Complete(SeriesOf(w)) && SeriesOf(w).sessions != [] && |SeriesOf(w).bars| == LENGTH
  {
    var series := SeriesOf(w);
    var s := series.sessions[0];
    forall i: nat | i < LENGTH ensures CandleOf(w, i).start == s.Slot(i) { CandlesValid(w, i); }
    hide CandleOf, Day.Open;
    assert series.sessions[..0] == [];
    assert Owed(series.sessions) == Grid(s);
    forall at ensures at in Grid(s) <==> at in Starts(series.bars) {
      if at in Grid(s) {
        var i: nat :| i < s.Slots() && s.Slot(i) == at;
        assert series.bars[i] in series.bars;
      }
      if at in Starts(series.bars) {
        var b :| b in series.bars && b.start == at;
        var i: nat :| i < |series.bars| && series.bars[i] == b;
      }
    }
  }

  // ----- its ticks -----

  /** Ticks that are the day's candles, in one session. */
  ghost predicate OneSession(w: Day, ticks: seq<Tick>) {
    |ticks| == LENGTH && forall i :: 0 <= i < LENGTH ==> ticks[i] == Tick(CandleOf(w, i), 0, w.Open() + 40)
  }

  lemma {:induction false} DayTicks(w: Day)
    requires w.Valid()
    ensures OneSession(w, AllTicks(SeriesOf(w)))
  {
    var series := SeriesOf(w);
    var s := series.sessions[0];
    DayComplete(w);
    CompleteCovers(series);
    DayCandles(w);
    hide ByStart, BarAt, Complete, Covered, Sound, CandleOf, Day.Open;
    assert Ticks(series, 0) == [];
    assert AllTicks(series) == [] + SessionTicks(series, s, 0, s.Slots());
    var ticks := SessionTicks(series, s, 0, s.Slots());
    assert AllTicks(series) == ticks;
    forall i: nat | i < LENGTH ensures ticks[i] == Tick(CandleOf(w, i), 0, w.Open() + 40) {
      SlotHasBar(series, 0, i);
      BarIs(w, BarAt(series, s.Slot(i)), i);
    }
  }

  /** A candle of the day is known by its start. */
  lemma {:induction false} BarIs(w: Day, b: Candle, i: nat)
    requires w.Valid() && i < LENGTH && b in CandlesOf(w, LENGTH) && b.start == w.Open() + FIVE * i
    ensures b == CandleOf(w, i)
  {
    var j: nat :| j < LENGTH && CandlesOf(w, LENGTH)[j] == b;
    CandlesValid(w, j);
    hide CandleOf, Day.Open;
  }

  lemma {:induction false} DayHistory(w: Day, ticks: seq<Tick>, n: nat)
    requires OneSession(w, ticks) && n < LENGTH
    ensures History(ticks, n) == CandlesOf(w, n + 1)
  {
    hide CandleOf, Day.Open;
    assert ticks[n].origin == 0;
  }

  // ----- when the rules fire -----

  /** A breakout happens at candles 3, if wanted, and 5. */
  predicate Breaks(w: Day, n: nat) { (n == 3 && w.twice) || n == 5 }

  lemma {:induction false} OpeningRangeFires(w: Day, d: Definition, n: nat)
    requires w.Valid() && d.identifier == S06 && n < LENGTH - 1
    ensures EntrySignal(CandlesOf(w, n + 1), d) <==> Breaks(w, n)
  {
    hide Day.Open;
    var bars := CandlesOf(w, n + 1);
    var closes := Closes(bars);
    if n >= 3 {
      assert OpeningRange(bars).value.0 == w.range;
      assert closes[n] == CandleOf(w, n).close && closes[n - 1] == CandleOf(w, n - 1).close;
    }
  }

  /** The close crossing above a fixed level. */
  function LevelCross(level: real): Cross {
    Cross(Operand(CLOSE, 1, 0.0, 0), Operand(CONSTANT, 1, level, 0), true)
  }

  lemma {:induction false} LevelFires(w: Day, n: nat)
    requires w.Valid() && n < LENGTH - 1
    ensures Signal(Closes(CandlesOf(w, n + 1)), [LevelCross(w.range)]) <==> Breaks(w, n)
  {
    hide Day.Open;
    var rules := [LevelCross(w.range)];
    var closes := Closes(CandlesOf(w, n + 1));
    assert Signal(closes, rules) <==> RuleFires(closes, rules[0]);
    assert closes[n] == CandleOf(w, n).close;
    assert IndicatorOf(closes, rules[0].left) == Some(closes[n]) && IndicatorOf(closes, rules[0].right) == Some(w.range);
    if n > 0 {
      var before := Previous(closes);
      assert closes[n - 1] == CandleOf(w, n - 1).close;
      assert IndicatorOf(before, rules[0].left) == Some(closes[n - 1]) && IndicatorOf(before, rules[0].right) == Some(w.range);
    }
  }
}
