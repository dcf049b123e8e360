/** The one-minute engine does not look ahead: what it has done by an instant depends on no later bar, and on
    the bar that opens then only through its open and whether it trades. */
module BacktestCausality {
  import opened Wrappers
  import opened Clock
  import opened Costs
  import opened Backtest
  import opened BacktestLaws
  import BacktestLoop

  // ----- what a run has recorded by an instant -----

  function OutcomesBy(os: seq<Outcome>, t: int): seq<Outcome> {
    if os == [] then []
    else OutcomesBy(os[..|os| - 1], t) + if os[|os| - 1].resolved <= t then [os[|os| - 1]] else []
  }

  function FillsBy(fills: seq<Fill>, t: int): seq<Fill> {
    if fills == [] then []
    else FillsBy(fills[..|fills| - 1], t) + if fills[|fills| - 1].time <= t then [fills[|fills| - 1]] else []
  }

  function TradesBy(trades: seq<Trade>, t: int): seq<Trade> {
    if trades == [] then []
    else TradesBy(trades[..|trades| - 1], t) + if trades[|trades| - 1].exit.time <= t then [trades[|trades| - 1]] else []
  }

  function PointsBy(curve: seq<Point>, t: int): seq<Point> {
    if curve == [] then []
    else PointsBy(curve[..|curve| - 1], t) + if curve[|curve| - 1].time <= t then [curve[|curve| - 1]] else []
  }

  /** Intents resolved, fills made, trades closed and equity marked by t. */
  datatype View = View(outcomes: seq<Outcome>, fills: seq<Fill>, trades: seq<Trade>, curve: seq<Point>)

  function Seen(desk: Desk, t: int): View {
    View(OutcomesBy(desk.outcomes, t), FillsBy(desk.fills, t), TradesBy(desk.trades, t), PointsBy(desk.curve, t))
  }

  function ViewOf(r: Report, t: int): View {
    View(OutcomesBy(r.outcomes, t), FillsBy(r.fills, t), TradesBy(r.trades, t), PointsBy(r.curve, t))
  }

  // ----- records only grow, and only with later events -----

  /** Between two desks only events after the bound were appended. */
  ghost predicate Grown(a: Desk, b: Desk, bound: int) {
    && a.outcomes <= b.outcomes && (forall i :: |a.outcomes| <= i < |b.outcomes| ==> b.outcomes[i].resolved > bound)
    && a.fills <= b.fills && (forall i :: |a.fills| <= i < |b.fills| ==> b.fills[i].time > bound)
    && a.trades <= b.trades && (forall i :: |a.trades| <= i < |b.trades| ==> b.trades[i].exit.time > bound)
    && a.curve <= b.curve && (forall i :: |a.curve| <= i < |b.curve| ==> b.curve[i].time > bound)
  }

  lemma {:induction false} GrownTwice(a: Desk, b: Desk, c: Desk, bound: int, later: int)
    requires Grown(a, b, bound) && Grown(b, c, later) && bound <= later
    ensures Grown(a, c, bound)
  {
  }

  lemma {:induction false} LaterOutcomes(a: seq<Outcome>, b: seq<Outcome>, t: int)
    requires a <= b && (forall i :: |a| <= i < |b| ==> b[i].resolved > t)
    ensures OutcomesBy(b, t) == OutcomesBy(a, t)
  {
    if |a| < |b| { LaterOutcomes(a, b[..|b| - 1], t); } else { assert a == b; }
  }

  lemma {:induction false} LaterFills(a: seq<Fill>, b: seq<Fill>, t: int)
    requires a <= b && (forall i :: |a| <= i < |b| ==> b[i].time > t)
    ensures FillsBy(b, t) == FillsBy(a, t)
  {
    if |a| < |b| { LaterFills(a, b[..|b| - 1], t); } else { assert a == b; }
  }

  lemma {:induction false} LaterTrades(a: seq<Trade>, b: seq<Trade>, t: int)
    requires a <= b && (forall i :: |a| <= i < |b| ==> b[i].exit.time > t)
    ensures TradesBy(b, t) == TradesBy(a, t)
  {
    if |a| < |b| { LaterTrades(a, b[..|b| - 1], t); } else { assert a == b; }
  }

  lemma {:induction false} LaterPoints(a: seq<Point>, b: seq<Point>, t: int)
    requires a <= b && (forall i :: |a| <= i < |b| ==> b[i].time > t)
    ensures PointsBy(b, t) == PointsBy(a, t)
  {
    if |a| < |b| { LaterPoints(a, b[..|b| - 1], t); } else { assert a == b; }
  }

  /** Growth beyond t leaves what is seen at t alone. */
  lemma {:induction false} SeenKept(a: Desk, b: Desk, bound: int, t: int)
    requires Grown(a, b, bound) && t <= bound
    ensures Seen(b, t) == Seen(a, t)
  {
    LaterOutcomes(a.outcomes, b.outcomes, t);
    LaterFills(a.fills, b.fills, t);
    LaterTrades(a.trades, b.trades, t);
    LaterPoints(a.curve, b.curve, t);
  }

  // ----- one bar -----

  lemma {:induction false} OpenGrown(m: Market, c: Config, bar: Bar, desk: Desk)
    requires 1 <= m.lotSize && AtOpen(m, c, bar, desk).Ok?
    ensures Grown(desk, AtOpen(m, c, bar, desk).value, bar.start - 1)
  {
    hide Value, Adverse, ChargeFor, Rejection, Unaffordable, Forced;
  }

  lemma {:induction false} AfterGrown(m: Market, c: Config, s: Strategy, n: nat, desk: Desk)
    requires n < |m.bars| && AfterOpen(m, c, s, n, desk).Ok?
    ensures Grown(desk, AfterOpen(m, c, s, n, desk).value, m.bars[n].start)
  {
    hide Value, Context, SessionStart, SessionEnds;
  }

  lemma {:induction false} StepGrown(m: Market, c: Config, s: Strategy, n: nat, desk: Desk)
    requires n < |m.bars| && 1 <= m.lotSize && Step(m, c, s, n, desk).Ok?
    ensures AtOpen(m, c, m.bars[n], desk).Ok?
    ensures Grown(AtOpen(m, c, m.bars[n], desk).value, Step(m, c, s, n, desk).value, m.bars[n].start)
    ensures Grown(desk, Step(m, c, s, n, desk).value, m.bars[n].start - 1)
  {
    hide *;
    StepSplits(m, c, s, n, desk);
    OpenGrown(m, c, m.bars[n], desk);
    var filled := AtOpen(m, c, m.bars[n], desk).value;
    AfterGrown(m, c, s, n, filled);
    GrownTwice(desk, filled, Step(m, c, s, n, desk).value, m.bars[n].start - 1, m.bars[n].start);
  }

  // ----- bars in time -----

  lemma {:induction false} BarsAdvance(m: Market, i: nat, j: nat)
    requires m.Valid() && i < j < |m.bars|
    ensures m.bars[i].start < m.bars[j].start
  {
    if i + 1 < j { BarsAdvance(m, i, j - 1); }
    hide Minutes, Combine;
    NextBar(m, j - 1);
  }

  lemma {:induction false} NextBar(m: Market, n: nat)
    requires m.Valid() && n + 1 < |m.bars|
    ensures m.bars[n].start < m.bars[n + 1].start
  {
    var k, j := SlotExists(m.days, m.first, m.last, n);
    var d, minutes := m.days[k], Minutes(m.days, m.first, m.last);
    assert d in m.days && d.Valid();
    if j == d.close - d.open - 1 {
      var l :| k < l < |m.days| && OpensAt(m.days, l, minutes[n + 1]);
      assert m.days[l] in m.days && m.days[l].Valid() && m.days[k].date < m.days[l].date;
    }
    hide Minutes;
  }

  /** From bar n on, only events from that bar's start on are appended. */
  lemma {:induction false} RunGrown(m: Market, c: Config, s: Strategy, n: nat, k: nat)
    requires m.Valid() && n < k <= |m.bars| && RunTo(m, c, s, k).Ok?
    ensures RunTo(m, c, s, n).Ok?
    ensures Grown(RunTo(m, c, s, n).value, RunTo(m, c, s, k).value, m.bars[n].start - 1)
  {
    hide Step, Grown, Market.Valid;
    assert 1 <= m.lotSize by { LotsPositive(m); }
    StepGrown(m, c, s, k - 1, RunTo(m, c, s, k - 1).value);
    if n < k - 1 {
      RunGrown(m, c, s, n, k - 1);
      BarsAdvance(m, n, k - 1);
      GrownTwice(RunTo(m, c, s, n).value, RunTo(m, c, s, k - 1).value, RunTo(m, c, s, k).value,
                 m.bars[n].start - 1, m.bars[k - 1].start - 1);
    }
  }

  lemma {:induction false} LotsPositive(m: Market)
    requires m.Valid()
    ensures 1 <= m.lotSize
  {
  }

  // ----- two markets -----

  /** One calendar and one lot size; equal bars before t, and at t the same open, and volume in both or in neither. */
  ghost predicate AgreeUntil(a: Market, b: Market, t: int) {
    && a.lotSize == b.lotSize && a.days == b.days && a.first == b.first && a.last == b.last && a.sessionView == b.sessionView
    && forall i :: 0 <= i < |a.bars| && i < |b.bars| ==> Alike(a.bars[i], b.bars[i], t)
  }

  ghost predicate Alike(x: Bar, y: Bar, t: int) {
    && (x.start < t ==> x == y)
    && (x.start == t ==> x.open == y.open && (x.volume == 0 <==> y.volume == 0))
  }

  /** One calendar owes both the same minutes. */
  ghost predicate SameShape(a: Market, b: Market) {
    && a.lotSize == b.lotSize && a.days == b.days && a.sessionView == b.sessionView && |a.bars| == |b.bars|
    && forall i :: 0 <= i < |a.bars| ==> a.bars[i].start == b.bars[i].start
  }

  lemma {:induction false} CalendarShapes(a: Market, b: Market, t: int)
    requires a.Valid() && b.Valid() && AgreeUntil(a, b, t)
    ensures SameShape(a, b)
  {
    hide Minutes, Alike;
  }

  lemma {:induction false} SameStart(a: Market, b: Market, n: nat)
    requires SameShape(a, b) && n < |a.bars|
    ensures SessionStart(a, n) == SessionStart(b, n)
  {
    if n > 0 { SameStart(a, b, n - 1); }
  }

  /** A bar's close and callback read no later bar. */
  lemma {:induction false} SameAfter(a: Market, b: Market, c: Config, s: Strategy, n: nat, desk: Desk)
    requires SameShape(a, b) && n < |a.bars| && a.bars[..n + 1] == b.bars[..n + 1]
    ensures AfterOpen(a, c, s, n, desk) == AfterOpen(b, c, s, n, desk)
  {
    hide MarkToMarket, Propose;
    SameStart(a, b, n);
    assert a.bars[n] == a.bars[..n + 1][n] == b.bars[n];
    var from := if a.sessionView then SessionStart(a, n) else 0;
    assert a.bars[from..n + 1] == a.bars[..n + 1][from..] == b.bars[from..n + 1];
    assert SessionEnds(a, n) <==> SessionEnds(b, n);
    hide SessionEnds, SessionStart;
  }

  /** Execution at the open reads the open and whether there was volume. */
  lemma {:induction false} SameAtOpen(a: Market, b: Market, c: Config, x: Bar, y: Bar, desk: Desk)
    requires a.lotSize == b.lotSize && 1 <= a.lotSize && x.start == y.start && x.open == y.open
    requires x.volume == 0 <==> y.volume == 0
    ensures AtOpen(a, c, x, desk) == AtOpen(b, c, y, desk)
  {
    hide Value, Adverse, ChargeFor;
  }

  lemma {:induction false} SameStep(a: Market, b: Market, c: Config, s: Strategy, n: nat, desk: Desk)
    requires SameShape(a, b) && 1 <= a.lotSize && n < |a.bars| && a.bars[..n + 1] == b.bars[..n + 1]
    ensures n < |b.bars| && 1 <= b.lotSize && Step(a, c, s, n, desk) == Step(b, c, s, n, desk)
  {
    hide Step, AtOpen, AfterOpen;
    StepSplits(a, c, s, n, desk);
    StepSplits(b, c, s, n, desk);
    assert a.bars[n] == a.bars[..n + 1][n] == b.bars[n];
    SameAtOpen(a, b, c, a.bars[n], b.bars[n], desk);
    if AtOpen(a, c, a.bars[n], desk).Ok? { SameAfter(a, b, c, s, n, AtOpen(a, c, a.bars[n], desk).value); }
  }

  lemma {:induction false} SameBars(a: Market, b: Market, t: int, n: nat)
    requires a.Valid() && b.Valid() && AgreeUntil(a, b, t) && n <= |a.bars| && (n > 0 ==> a.bars[n - 1].start < t)
    ensures n <= |b.bars| && a.bars[..n] == b.bars[..n]
  {
    CalendarShapes(a, b, t);
    hide Market.Valid;
    forall i | 0 <= i < n ensures a.bars[i] == b.bars[i] {
      if i < n - 1 { BarsAdvance(a, i, n - 1); }
      assert Alike(a.bars[i], b.bars[i], t);
    }
  }

  /** As long as only bars before t are read, the runs are the same, errors included. */
  lemma {:induction false} SameRun(a: Market, b: Market, c: Config, s: Strategy, t: int, n: nat)
    requires a.Valid() && b.Valid() && AgreeUntil(a, b, t) && n <= |a.bars| && (n > 0 ==> a.bars[n - 1].start < t)
    ensures n <= |b.bars| && RunTo(a, c, s, n) == RunTo(b, c, s, n)
  {
    hide Step, Market.Valid, AgreeUntil;
    SameBars(a, b, t, n);
    LotsPositive(a);
    LotsPositive(b);
    if n > 0 {
      if n > 1 { BarsAdvance(a, n - 2, n - 1); }
      SameRun(a, b, c, s, t, n - 1);
      CalendarShapes(a, b, t);
      if RunTo(a, c, s, n - 1).Ok? { SameStep(a, b, c, s, n - 1, RunTo(a, c, s, n - 1).value); }
    }
  }

  // ----- results -----

  lemma {:induction false} SameRefusals(a: Market, b: Market, c: Config)
    requires SameShape(a, b)
    ensures PolicyFits(a, c) <==> PolicyFits(b, c)
    ensures TariffCovers(a, c) <==> TariffCovers(b, c)
  {
    if c.costs.Tariff? { EachCovered(a, c.costs.schedule); EachCovered(b, c.costs.schedule); }
  }

  ghost predicate CoveredAt(m: Market, s: Schedule, i: int)
    requires 0 <= i < |m.bars|
  {
    s.Effective(s.PricingDate(m.bars[i].start))
  }

  lemma {:induction false} EachCovered(m: Market, s: Schedule)
    ensures (forall b :: b in m.bars ==> s.Effective(s.PricingDate(b.start))) <==> (forall i :: 0 <= i < |m.bars| ==> CoveredAt(m, s, i))
  {
    hide Schedule.Effective, Schedule.PricingDate;
    if forall i :: 0 <= i < |m.bars| ==> CoveredAt(m, s, i) {
      forall b | b in m.bars ensures s.Effective(s.PricingDate(b.start)) {
        var i :| 0 <= i < |m.bars| && m.bars[i] == b;
        assert CoveredAt(m, s, i);
      }
    }
  }

  /** The desk before a bar that starts at or before t, and what its open does with a waiting or forced
      order, are the same on both markets, failure included; before t, so is the desk after the bar. An error
      raised up to there ends both runs. */
  lemma {:induction false} DesksAreCausal(a: Market, b: Market, c: Config, s: Strategy, t: int, n: nat)
    requires a.Valid() && b.Valid() && c.Valid() && AgreeUntil(a, b, t) && n < |a.bars| && a.bars[n].start <= t
    ensures n < |b.bars| && 1 <= a.lotSize && 1 <= b.lotSize
    ensures RunTo(a, c, s, n) == RunTo(b, c, s, n)
    ensures RunTo(a, c, s, n).Ok? ==>
      AtOpen(a, c, a.bars[n], RunTo(a, c, s, n).value) == AtOpen(b, c, b.bars[n], RunTo(a, c, s, n).value)
    ensures a.bars[n].start < t ==> RunTo(a, c, s, n + 1) == RunTo(b, c, s, n + 1)
    ensures a.bars[n].start < t && RunTo(a, c, s, n + 1).Err? ==> Ran(a, c, s) == Ran(b, c, s)
  {
    hide Market.Valid, AgreeUntil, Step, AtOpen, PolicyFits, TariffCovers, Finish, RunTo;
    LotsPositive(a);
    LotsPositive(b);
    if n > 0 { BarsAdvance(a, n - 1, n); }
    SameRun(a, b, c, s, t, n);
    CalendarShapes(a, b, t);
    OpensAlike(a, b, t, n);
    if RunTo(a, c, s, n).Ok? { SameAtOpen(a, b, c, a.bars[n], b.bars[n], RunTo(a, c, s, n).value); }
    if a.bars[n].start < t {
      SameRun(a, b, c, s, t, n + 1);
      SameRefusals(a, b, c);
      if RunTo(a, c, s, n + 1).Err? {
        BacktestLoop.Failed(a, c, s, n + 1, |a.bars|);
        BacktestLoop.Failed(b, c, s, n + 1, |b.bars|);
      }
    }
  }

  lemma {:induction false} OpensAlike(a: Market, b: Market, t: int, n: nat)
    requires SameShape(a, b) && AgreeUntil(a, b, t) && n < |a.bars| && a.bars[n].start <= t
    ensures a.bars[n].open == b.bars[n].open && (a.bars[n].volume == 0 <==> b.bars[n].volume == 0) && a.bars[n].start == b.bars[n].start
  {
    assert Alike(a.bars[n], b.bars[n], t);
  }

  /** How many bars start before t. */
  function Before(m: Market, t: int, k: nat): (n: nat)
    requires k <= |m.bars|
    ensures n <= k && (n > 0 ==> m.bars[n - 1].start < t)
  {
    if k == 0 then 0 else if m.bars[k - 1].start < t then k else Before(m, t, k - 1)
  }

  lemma {:induction false} BeforeIsSharp(m: Market, t: int, k: nat)
    requires m.Valid() && k <= |m.bars|
    ensures Before(m, t, k) < k ==> t <= m.bars[Before(m, t, k)].start
  {
    hide Market.Valid;
    if k > 0 && t <= m.bars[k - 1].start { BeforeIsSharp(m, t, k - 1); }
  }

  /** What a completed run has seen at t: what the desk before bar n had recorded, or the open at t. */
  lemma {:induction false} SeenAtCut(m: Market, c: Config, s: Strategy, t: int, n: nat)
    requires m.Valid() && n < |m.bars| && t <= m.bars[n].start && RunTo(m, c, s, |m.bars|).Ok?
    ensures 1 <= m.lotSize && RunTo(m, c, s, n).Ok?
    ensures
      var desk, final := RunTo(m, c, s, n).value, RunTo(m, c, s, |m.bars|).value;
      if t < m.bars[n].start then Seen(final, t) == Seen(desk, t)
      else AtOpen(m, c, m.bars[n], desk).Ok? && Seen(final, t) == Seen(AtOpen(m, c, m.bars[n], desk).value, t)
  {
    hide Market.Valid, Step, Grown, Seen, AtOpen;
    LotsPositive(m);
    RunGrown(m, c, s, n, |m.bars|);
    var desk, final := RunTo(m, c, s, n).value, RunTo(m, c, s, |m.bars|).value;
    if t < m.bars[n].start {
      SeenKept(desk, final, m.bars[n].start - 1, t);
    } else {
      if n + 1 < |m.bars| { RunGrown(m, c, s, n + 1, |m.bars|); BarsAdvance(m, n, n + 1); }
      var stepped := RunTo(m, c, s, n + 1).value;
      StepGrown(m, c, s, n, desk);
      SeenKept(AtOpen(m, c, m.bars[n], desk).value, stepped, m.bars[n].start, t);
      if n + 1 < |m.bars| { SeenKept(stepped, final, m.bars[n + 1].start - 1, t); }
    }
  }

  /** No look-ahead: if two valid markets share a calendar, agree on every bar before t, and at t on the open and
      on whether there is volume, then every completed run, whatever the callback, has resolved the same intents, made the same
      fills, closed the same trades and marked the same equity by t. */
  lemma {:induction false} RunsAreCausal(a: Market, b: Market, c: Config, s: Strategy, t: int)
    requires a.Valid() && b.Valid() && c.Valid() && AgreeUntil(a, b, t)
    requires Ran(a, c, s).Ok? && Ran(b, c, s).Ok?
    ensures ViewOf(Ran(a, c, s).value, t) == ViewOf(Ran(b, c, s).value, t)
  {
    hide *;
    CalendarShapes(a, b, t);
    ShapeSizes(a, b);
    RanIs(a, c, s, t);
    RanIs(b, c, s, t);
    var n := Before(a, t, |a.bars|);
    BeforeIsSharp(a, t, |a.bars|);
    SameRun(a, b, c, s, t, n);
    if n < |a.bars| {
      ShapeStart(a, b, n);
      SeenAtCut(a, c, s, t, n);
      SeenAtCut(b, c, s, t, n);
      if t == a.bars[n].start { DesksAreCausal(a, b, c, s, t, n); }
    }
  }

  lemma {:induction false} ShapeSizes(a: Market, b: Market)
    requires SameShape(a, b)
    ensures |a.bars| == |b.bars|
  {
  }

  lemma {:induction false} ShapeStart(a: Market, b: Market, n: nat)
    requires SameShape(a, b) && n < |a.bars|
    ensures a.bars[n].start == b.bars[n].start
  {
  }

  lemma {:induction false} RanIs(m: Market, c: Config, s: Strategy, t: int)
    requires m.Valid() && c.Valid() && Ran(m, c, s).Ok?
    ensures 1 <= m.lotSize && RunTo(m, c, s, |m.bars|).Ok?
    ensures ViewOf(Ran(m, c, s).value, t) == Seen(RunTo(m, c, s, |m.bars|).value, t)
  {
    hide RunTo, SumCosts, SumGross, Drawdown, OutcomesBy, FillsBy, TradesBy, PointsBy;
  }
}
