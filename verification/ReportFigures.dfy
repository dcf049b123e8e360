/** What the figures of a report mean, told from its trades, its fills and its equity curve. */
module ReportFigures {
  import opened RealFacts
  import opened Costs
  import opened Series
  import opened Strategies
  import opened Executor
  import opened TradeLaws
  import Backtest

  // ----- closed trades of the five-minute executors -----

  /** Closed equity after the first k trades. */
  function EquityAt(trades: seq<Trade>, capital: real, k: nat): real
    requires k <= |trades|
  {
    capital + NetOf(trades[..k])
  }

  /** The value after i trades is the highest up to j trades. */
  ghost predicate Highest(trades: seq<Trade>, capital: real, i: nat, j: nat) {
    i <= j <= |trades| && forall k: nat :: k <= j ==> EquityAt(trades, capital, k) <= EquityAt(trades, capital, i)
  }

  /** The fall from one equity to another, as a share of the first. */
  function Fall(from: real, to: real): real
    requires from > 0.0
  {
    (from - to) / from
  }

  lemma {:induction false} EquityPrefix(trades: seq<Trade>, capital: real, n: nat, k: nat)
    requires k <= n <= |trades|
    ensures EquityAt(trades[..n], capital, k) == EquityAt(trades, capital, k)
  {
    assert trades[..n][..k] == trades[..k];
  }

  lemma {:induction false} PeakIsHighest(trades: seq<Trade>, capital: real) returns (i: nat)
    ensures Highest(trades, capital, i, |trades|) && EquityAt(trades, capital, i) == ClosedPeak(trades, capital)
  {
    var n := |trades|;
    assert trades[..n] == trades;
    i := 0;
    if n > 0 {
      var k := PeakIsHighest(trades[..n - 1], capital);
      i := if EquityAt(trades, capital, n) <= EquityAt(trades[..n - 1], capital, k) then k else n;
      EquityPrefix(trades, capital, n - 1, k);
      forall m: nat | m <= n ensures EquityAt(trades, capital, m) <= EquityAt(trades, capital, i) {
        if m < n { EquityPrefix(trades, capital, n - 1, m); }
      }
    }
  }

  /** The closed drawdown is one of the falls from the highest equity so far, and no such fall is greater. */
  lemma {:induction false} WorstFall(trades: seq<Trade>, capital: real) returns (i: nat, j: nat)
    requires 0.0 < capital
    ensures Highest(trades, capital, i, j) && 0.0 < EquityAt(trades, capital, i)
    ensures ClosedDrawdown(trades, capital) == Fall(EquityAt(trades, capital, i), EquityAt(trades, capital, j))
  {
    var n := |trades|;
    assert trades[..n] == trades;
    if n == 0 {
      i, j := 0, 0;
    } else {
      i := PeakIsHighest(trades, capital);
      j := n;
      var a, b := WorstFall(trades[..n - 1], capital);
      if ClosedDrawdown(trades, capital) == ClosedDrawdown(trades[..n - 1], capital) {
        EquityPrefix(trades, capital, n - 1, a);
        EquityPrefix(trades, capital, n - 1, b);
        forall m: nat | m <= b ensures EquityAt(trades, capital, m) <= EquityAt(trades, capital, a) { EquityPrefix(trades, capital, n - 1, m); }
        i, j := a, b;
      }
    }
  }

  lemma {:induction false} NoWorseFall(trades: seq<Trade>, capital: real, i: nat, j: nat)
    requires 0.0 < capital && Highest(trades, capital, i, j)
    ensures 0.0 < EquityAt(trades, capital, i)
    ensures Fall(EquityAt(trades, capital, i), EquityAt(trades, capital, j)) <= ClosedDrawdown(trades, capital)
  {
    var n := |trades|;
    assert trades[..n] == trades;
    assert EquityAt(trades, capital, 0) == capital;
    if j == n {
      var k := PeakIsHighest(trades, capital);
      assert EquityAt(trades, capital, i) == EquityAt(trades, capital, k);
      if n == 0 { assert Fall(capital, capital) == 0.0; }
    } else {
      EquityPrefix(trades, capital, n - 1, i);
      EquityPrefix(trades, capital, n - 1, j);
      var front := trades[..n - 1];
      forall m: nat | m <= j ensures EquityAt(front, capital, m) <= EquityAt(front, capital, i) { EquityPrefix(trades, capital, n - 1, m); }
      NoWorseFall(front, capital, i, j);
    }
  }

  /** The trades that gain, and those that lose. */
  function Winners(trades: seq<Trade>): set<int> { set i | 0 <= i < |trades| && trades[i].net > 0.0 }

  function Losers(trades: seq<Trade>): set<int> { set i | 0 <= i < |trades| && trades[i].net < 0.0 }

  lemma {:induction false} WinsCounted(trades: seq<Trade>)
    ensures WinsOf(trades) == |Winners(trades)|
  {
    if trades != [] {
      var front, n := trades[..|trades| - 1], |trades| - 1;
      WinsCounted(front);
      assert Winners(trades) == if trades[n].net > 0.0 then Winners(front) + {n} else Winners(front);
    } else {
      assert Winners(trades) == {};
    }
  }

  lemma {:induction false} LossesCounted(trades: seq<Trade>)
    ensures LossesOf(trades) == |Losers(trades)|
  {
    if trades != [] {
      var front, n := trades[..|trades| - 1], |trades| - 1;
      LossesCounted(front);
      assert Losers(trades) == if trades[n].net < 0.0 then Losers(front) + {n} else Losers(front);
    } else {
      assert Losers(trades) == {};
    }
  }

  function GrossOf(trades: seq<Trade>): real {
    if trades == [] then 0.0 else GrossOf(trades[..|trades| - 1]) + trades[|trades| - 1].gross
  }

  lemma {:induction false} NetIsGrossLessFees(trades: seq<Trade>)
    requires forall t :: t in trades ==> t.net == t.gross - t.fees
    ensures NetOf(trades) == GrossOf(trades) - FeesOf(trades)
  {
    if trades != [] { NetIsGrossLessFees(trades[..|trades| - 1]); }
  }

  lemma {:induction false} Averages(total: real, n: int)
    requires n > 0
    ensures (total / n as real) * n as real == total
  {
    Quotient(total, n as real);
  }

  /** A drawdown that is the greatest fall of closed equity below its highest value so far. */
  ghost predicate Greatest(trades: seq<Trade>, capital: real, drawdown: real) {
    && (forall i, j :: Highest(trades, capital, i, j) ==>
          0.0 < EquityAt(trades, capital, i) && Fall(EquityAt(trades, capital, i), EquityAt(trades, capital, j)) <= drawdown)
    && (exists i, j :: Highest(trades, capital, i, j) && 0.0 < EquityAt(trades, capital, i) &&
          drawdown == Fall(EquityAt(trades, capital, i), EquityAt(trades, capital, j)))
  }

  /** What metrics say of trades: how many gained and lost, the sums and averages, and the greatest fall. */
  ghost predicate Figures(trades: seq<Trade>, capital: real, m: Metrics) {
    var n := |trades|;
    && m.trades == n && m.wins == |Winners(trades)| && m.losses == |Losers(trades)| && m.wins + m.losses + m.breakeven == n
    && m.net == GrossOf(trades) - m.costs && m.netReturn * capital == m.net
    && m.winRate * n as real == m.wins as real && m.expectancy * n as real == m.net
    && Greatest(trades, capital, m.drawdown)
  }

  lemma {:induction false} DrawdownIsGreatest(trades: seq<Trade>, capital: real)
    requires 0.0 < capital
    ensures Greatest(trades, capital, ClosedDrawdown(trades, capital))
  {
    hide ClosedDrawdown, EquityAt, Fall;
    forall i, j | Highest(trades, capital, i, j)
      ensures 0.0 < EquityAt(trades, capital, i) && Fall(EquityAt(trades, capital, i), EquityAt(trades, capital, j)) <= ClosedDrawdown(trades, capital)
    {
      NoWorseFall(trades, capital, i, j);
    }
    var i, j := WorstFall(trades, capital);
  }

  lemma {:induction false} MetricsAreTold(trades: seq<Trade>, capital: real)
    requires 0.0 < capital && forall t :: t in trades ==> t.net == t.gross - t.fees
    ensures Figures(trades, capital, MetricsOf(trades, capital))
  {
    hide WinsOf, LossesOf, NetOf, FeesOf, ClosedDrawdown, Greatest, Winners, Losers, GrossOf;
    WinsCounted(trades);
    LossesCounted(trades);
    NetIsGrossLessFees(trades);
    Quotient(NetOf(trades), capital);
    if trades != [] {
      Averages(NetOf(trades), |trades|);
      Averages(WinsOf(trades) as real, |trades|);
    } else {
      NoneTraded(trades);
    }
    DrawdownIsGreatest(trades, capital);
  }

  /** The metrics either executor reports are those of the trades it reports. */
  lemma {:induction false} ExecutedFigures(series: PriceSeries, d: Definition, settings: Settings, costs: Schedule)
    requires series.Valid() && settings.Valid() && Executed(series, d, settings, costs).Ok?
    ensures var e := Executed(series, d, settings, costs).value; Figures(e.trades, settings.capital, e.metrics)
  {
    var r, ticks := RulesOf(settings, costs, d.stop, d.target), AllTicks(series);
    TradesAreTold(series, d, settings, costs);
    hide RunTo, Ticks, Figures, MetricsOf, EnteredOn, LeftOn, Quoted;
    var e := Executed(series, d, settings, costs).value;
    forall t | t in e.trades ensures t.net == t.gross - t.fees { assert TradeTold(r, ticks, |ticks|, t); }
    MetricsAreTold(e.trades, settings.capital);
  }

  lemma {:induction false} SimulatedFigures(series: PriceSeries, s: Strategy, settings: Settings, costs: Schedule)
    requires series.Valid() && settings.Valid() && s.Valid() && Simulated(series, s, settings, costs).Ok?
    ensures var e := Simulated(series, s, settings, costs).value; Figures(e.trades, settings.capital, e.metrics)
  {
    var r, ticks := RulesOf(settings, costs, s.stop, s.target), AllTicks(series);
    OldTradesAreTold(series, s, settings, costs);
    hide OldRunTo, Ticks, Figures, MetricsOf, EnteredOn, LeftOn, Quoted;
    var e := Simulated(series, s, settings, costs).value;
    forall t | t in e.trades ensures t.net == t.gross - t.fees { assert TradeTold(r, ticks, |ticks|, t); }
    MetricsAreTold(e.trades, settings.capital);
  }

  lemma {:induction false} NoneTraded(trades: seq<Trade>)
    requires trades == []
    ensures WinsOf(trades) == 0 && NetOf(trades) == 0.0
  {
  }

  // ----- the one-minute engine -----

  /** Equity before the first bar, and after each. */
  function CurveAt(curve: seq<Backtest.Point>, initial: real, k: nat): real
    requires k <= |curve|
  {
    if k == 0 then initial else curve[k - 1].equity
  }

  /** The curve's drawdown is at least every fall, and is one of them. */
  lemma {:induction false} CurveFalls(curve: seq<Backtest.Point>, initial: real) returns (i: nat, j: nat, top: nat)
    ensures i <= j <= |curve| && Backtest.Drawdown(curve, initial) == CurveAt(curve, initial, i) - CurveAt(curve, initial, j)
    ensures forall a: nat, b: nat :: a <= b <= |curve| ==> CurveAt(curve, initial, a) - CurveAt(curve, initial, b) <= Backtest.Drawdown(curve, initial)
    ensures top <= |curve| && CurveAt(curve, initial, top) == Backtest.PeakEquity(curve, initial)
    ensures forall a: nat :: a <= |curve| ==> CurveAt(curve, initial, a) <= Backtest.PeakEquity(curve, initial)
  {
    var n := |curve|;
    i, j, top := 0, 0, 0;
    if n > 0 {
      var front := curve[..n - 1];
      i, j, top := CurveFalls(front, initial);
      assert forall a: nat :: a < n ==> CurveAt(curve, initial, a) == CurveAt(front, initial, a);
      if CurveAt(curve, initial, top) < curve[n - 1].equity { top := n; }
      if Backtest.Drawdown(front, initial) < CurveAt(curve, initial, top) - curve[n - 1].equity { i, j := top, n; }
    }
  }

  /** The trades that gain, and those that lose. */
  function Gainers(trades: seq<Backtest.Trade>): set<int> { set i | 0 <= i < |trades| && trades[i].net > 0.0 }

  function Decliners(trades: seq<Backtest.Trade>): set<int> { set i | 0 <= i < |trades| && trades[i].net < 0.0 }

  lemma {:induction false} GainsTallied(trades: seq<Backtest.Trade>)
    ensures Backtest.Wins(trades) == |Gainers(trades)|
  {
    if trades != [] {
      var front, n := trades[..|trades| - 1], |trades| - 1;
      GainsTallied(front);
      assert Gainers(trades) == if trades[n].net > 0.0 then Gainers(front) + {n} else Gainers(front);
    } else {
      assert Gainers(trades) == {};
    }
  }

  lemma {:induction false} FallsTallied(trades: seq<Backtest.Trade>)
    ensures Backtest.Losses(trades) == |Decliners(trades)|
  {
    if trades != [] {
      var front, n := trades[..|trades| - 1], |trades| - 1;
      FallsTallied(front);
      assert Decliners(trades) == if trades[n].net < 0.0 then Decliners(front) + {n} else Decliners(front);
    } else {
      assert Decliners(trades) == {};
    }
  }

  /** The report's counts and its drawdown: the greatest fall of equity between two of its values, the initial cash included. */
  lemma {:induction false} ReportFiguresAreTold(m: Backtest.Market, c: Backtest.Config, s: Backtest.Strategy)
    requires m.Valid() && c.Valid() && Backtest.Ran(m, c, s).Ok?
    ensures
      var r := Backtest.Ran(m, c, s).value;
      && r.wins == |Gainers(r.trades)| && r.losses == |Decliners(r.trades)|
      && (forall a: nat, b: nat :: a <= b <= |r.curve| ==> CurveAt(r.curve, c.initialCash, a) - CurveAt(r.curve, c.initialCash, b) <= r.drawdown)
      && (exists a: nat, b: nat :: a <= b <= |r.curve| && CurveAt(r.curve, c.initialCash, a) - CurveAt(r.curve, c.initialCash, b) == r.drawdown)
  {
    hide Backtest.RunTo, Backtest.Wins, Backtest.Losses, Backtest.Drawdown, Backtest.SumCosts, Backtest.SumGross, Backtest.Market.Valid, CurveAt, Gainers, Decliners;
    var r := Backtest.Ran(m, c, s).value;
    GainsTallied(r.trades);
    FallsTallied(r.trades);
    var i, j, top := CurveFalls(r.curve, c.initialCash);
  }
}
