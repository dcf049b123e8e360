/** Nothing an executor records up to an instant depends on a later price or volume. */
module Causality {
  import opened Wrappers
  import opened Costs
  import opened Series
  import opened Strategies
  import opened Executor
  import opened ExecutionOrder

  // ----- what a run has recorded by an instant -----

  /** An entry as filled: when it was decided and made, and at what price. */
  datatype Fill = Fill(decided: int, entered: int, entry: real)

  function FillsOf(trades: seq<Trade>): (fills: seq<Fill>)
    ensures |fills| == |trades|
    ensures forall i :: 0 <= i < |fills| ==> fills[i] == Fill(trades[i].signalAt, trades[i].entryAt, trades[i].entry)
  {
    seq(|trades|, i requires 0 <= i < |trades| => Fill(trades[i].signalAt, trades[i].entryAt, trades[i].entry))
  }

  /** All entries made so far, the open one last. */
  function Fills(b: Book): seq<Fill> {
    FillsOf(b.trades) +
    if b.position.Some? then [Fill(b.position.value.decided, b.position.value.entered, b.position.value.entry)] else []
  }

  function FillsUntil(fills: seq<Fill>, t: int): seq<Fill> {
    if fills == [] then []
    else FillsUntil(fills[..|fills| - 1], t) + if fills[|fills| - 1].entered <= t then [fills[|fills| - 1]] else []
  }

  function DecisionsUntil(ds: seq<EntryDecision>, t: int): seq<EntryDecision> {
    if ds == [] then []
    else DecisionsUntil(ds[..|ds| - 1], t) + if ds[|ds| - 1].at <= t then [ds[|ds| - 1]] else []
  }

  function RefusalsUntil(ats: seq<int>, t: int): seq<int> {
    if ats == [] then []
    else RefusalsUntil(ats[..|ats| - 1], t) + if ats[|ats| - 1] <= t then [ats[|ats| - 1]] else []
  }

  function TradesUntil(trades: seq<Trade>, t: int): seq<Trade> {
    if trades == [] then []
    else TradesUntil(trades[..|trades| - 1], t) + if trades[|trades| - 1].exitAt <= t then [trades[|trades| - 1]] else []
  }

  /** Entry decisions, refusals and fills made at or before t, and trades closed by then. */
  datatype View = View(decisions: seq<EntryDecision>, noFills: seq<int>, trades: seq<Trade>, fills: seq<Fill>)

  function Seen(run: Run, t: int): View {
    View(DecisionsUntil(run.decisions, t), RefusalsUntil(run.book.noFills, t),
         TradesUntil(run.book.trades, t), FillsUntil(Fills(run.book), t))
  }

  // ----- records only grow, and only with later events -----

  /** Later than b, the run only appended events after the bound. */
  ghost predicate Grown(a: Run, b: Run, bound: int) {
    && a.decisions <= b.decisions && (forall i :: |a.decisions| <= i < |b.decisions| ==> b.decisions[i].at > bound)
    && a.book.noFills <= b.book.noFills && (forall i :: |a.book.noFills| <= i < |b.book.noFills| ==> b.book.noFills[i] > bound)
    && a.book.trades <= b.book.trades && (forall i :: |a.book.trades| <= i < |b.book.trades| ==> b.book.trades[i].exitAt > bound)
    && Fills(a.book) <= Fills(b.book) && (forall i :: |Fills(a.book)| <= i < |Fills(b.book)| ==> Fills(b.book)[i].entered > bound)
  }

  lemma {:induction false} GrownTwice(a: Run, b: Run, c: Run, bound: int, later: int)
    requires Grown(a, b, bound) && Grown(b, c, later) && bound <= later
    ensures Grown(a, c, bound)
  {
    hide Fills;
  }

  lemma {:induction false} LaterFills(a: seq<Fill>, b: seq<Fill>, t: int)
    requires a <= b && (forall i :: |a| <= i < |b| ==> b[i].entered > t)
    ensures FillsUntil(b, t) == FillsUntil(a, t)
  {
    if |a| < |b| { LaterFills(a, b[..|b| - 1], t); } else { assert a == b; }
  }

  lemma {:induction false} LaterDecisions(a: seq<EntryDecision>, b: seq<EntryDecision>, t: int)
    requires a <= b && (forall i :: |a| <= i < |b| ==> b[i].at > t)
    ensures DecisionsUntil(b, t) == DecisionsUntil(a, t)
  {
    if |a| < |b| { LaterDecisions(a, b[..|b| - 1], t); } else { assert a == b; }
  }

  lemma {:induction false} LaterRefusals(a: seq<int>, b: seq<int>, t: int)
    requires a <= b && (forall i :: |a| <= i < |b| ==> b[i] > t)
    ensures RefusalsUntil(b, t) == RefusalsUntil(a, t)
  {
    if |a| < |b| { LaterRefusals(a, b[..|b| - 1], t); } else { assert a == b; }
  }

  lemma {:induction false} LaterTrades(a: seq<Trade>, b: seq<Trade>, t: int)
    requires a <= b && (forall i :: |a| <= i < |b| ==> b[i].exitAt > t)
    ensures TradesUntil(b, t) == TradesUntil(a, t)
  {
    if |a| < |b| { LaterTrades(a, b[..|b| - 1], t); } else { assert a == b; }
  }

  /** Growth beyond t leaves what is seen at t alone. */
  lemma {:induction false} SeenKept(a: Run, b: Run, t: int)
    requires Grown(a, b, t)
    ensures Seen(b, t) == Seen(a, t)
  {
    hide Fills;
    LaterDecisions(a.decisions, b.decisions, t);
    LaterRefusals(a.book.noFills, b.book.noFills, t);
    LaterTrades(a.book.trades, b.book.trades, t);
    LaterFills(Fills(a.book), Fills(b.book), t);
  }

  // ----- one candle -----

  lemma {:induction false} DecidedGrown(r: Rules, bar: Candle, last: bool, previous: Candle, run: Run)
    requires run.book.position.Some? ==> run.book.pending.None?
    requires Decided(r, bar, last, previous, run).Ok?
    ensures Grown(run, Decided(r, bar, last, previous, run).value, bar.start - 1)
  {
    hide Fee;
    var after := Decided(r, bar, last, previous, run).value;
    assert after.book.trades == run.book.trades;
  }

  lemma {:induction false} ManagedGrown(r: Rules, d: Definition, bar: Candle, last: bool, previous: Candle, history: seq<Candle>, run: Run)
    requires run.book.position.Some? ==> run.book.pending.None?
    requires CandleStep(r, d, bar, last, previous, history, run).Ok?
    ensures Grown(Decided(r, bar, last, previous, run).value, CandleStep(r, d, bar, last, previous, history, run).value, bar.start)
  {
    hide Decided, Manage, EntrySignal;
    var decided := Decided(r, bar, last, previous, run).value;
    var after := CandleStep(r, d, bar, last, previous, history, run).value;
    ManageEffects(r, bar, last, decided.book);
    var managed := Manage(r, bar, last, decided.book).value;
    assert after.book.trades == managed.book.trades && after.book.position == managed.book.position;
    if managed.book.position != decided.book.position {
      assert after.book.trades == decided.book.trades + [after.book.trades[|decided.book.trades|]];
      assert Fills(after.book) == Fills(decided.book);
    }
  }

  // ----- whole runs -----

  /** The same sessions and starts; equal candles before t; equal opens at t. */
  ghost predicate SameUntil(a: seq<Tick>, b: seq<Tick>, t: int) {
    && |a| == |b|
    && forall n :: 0 <= n < |a| ==> Alike(a[n], b[n], t)
  }

  ghost predicate Alike(x: Tick, y: Tick, t: int) {
    && x.origin == y.origin && x.sessionEnd == y.sessionEnd && x.bar.start == y.bar.start
    && (x.bar.start < t ==> x.bar == y.bar)
    && (x.bar.start == t ==> x.bar.open == y.bar.open)
  }

  lemma {:induction false} SameHistory(a: seq<Tick>, b: seq<Tick>, t: int, n: nat)
    requires WellFormed(a) && SameUntil(a, b, t) && n < |a| && a[n].bar.start < t
    ensures a[..n + 1] == b[..n + 1]
    ensures History(a, n) == History(b, n)
  {
    forall i | 0 <= i < n + 1 ensures a[i] == b[i] {
      if i < n { TicksAdvance(a, i, n); }
      assert Alike(a[i], b[i], t);
    }
    forall i | a[n].origin <= i <= n ensures a[i] == b[i] { assert a[..n + 1][i] == b[..n + 1][i]; }
    assert a[a[n].origin..n + 1] == b[b[n].origin..n + 1];
  }

  /** As long as only candles before t are read, the runs are the same. */
  lemma {:induction false} SameRun(r: Rules, d: Definition, a: seq<Tick>, b: seq<Tick>, t: int, n: nat)
    requires WellFormed(a) && SameUntil(a, b, t) && n <= |a|
    requires n > 0 ==> a[n - 1].bar.start < t
    ensures RunTo(r, d, a, n) == RunTo(r, d, b, n)
  {
    if n > 0 {
      hide CandleStep, OpenSession, History;
      if n > 1 { TicksAdvance(a, n - 2, n - 1); }
      SameRun(r, d, a, b, t, n - 1);
      SameHistory(a, b, t, n - 1);
      assert a[n - 1] == a[..n][n - 1] == b[n - 1];
      if n > 1 { assert a[n - 2] == a[..n][n - 2] == b[n - 2]; }
    }
  }

  /** One tick only appends events from its own start on. */
  lemma {:induction false} StepGrown(r: Rules, d: Definition, ticks: seq<Tick>, n: nat, run: Run)
    requires WellFormed(ticks) && n < |ticks|
    requires Orderly(d, ticks, n, run) && run.unresolved == []
    requires Step(r, d, ticks, n, run).Ok?
    ensures Grown(run, Step(r, d, ticks, n, run).value, ticks[n].bar.start - 1)
    ensures
      var previous := if n > 0 then ticks[n - 1].bar else ticks[n].bar;
      var decided := Decided(r, ticks[n].bar, ticks[n].Last(), previous, run);
      decided.Ok? && Grown(decided.value, Step(r, d, ticks, n, run).value, ticks[n].bar.start)
  {
    hide CandleStep, History, Timely, Entries, Grown;
    var t := ticks[n];
    if n > 0 { assert Joined(ticks, n); }
    TimelyParts(run.book, Reached(ticks, n));
    var previous := if n > 0 then ticks[n - 1].bar else t.bar;
    assert Step(r, d, ticks, n, run) == CandleStep(r, d, t.bar, t.Last(), previous, History(ticks, n), run);
    StepDecides(r, d, t.bar, t.Last(), previous, History(ticks, n), run);
    DecidedGrown(r, t.bar, t.Last(), previous, run);
    ManagedGrown(r, d, t.bar, t.Last(), previous, History(ticks, n), run);
    GrownTwice(run, Decided(r, t.bar, t.Last(), previous, run).value, Step(r, d, ticks, n, run).value, t.bar.start - 1, t.bar.start);
  }

  lemma {:induction false} StepDecides(r: Rules, d: Definition, bar: Candle, last: bool, previous: Candle, history: seq<Candle>, run: Run)
    requires CandleStep(r, d, bar, last, previous, history, run).Ok?
    ensures Decided(r, bar, last, previous, run).Ok?
  {
    hide Decided, Manage, EntrySignal;
  }

  /** From the n-th tick on, only events from that tick's start on are appended. */
  lemma {:induction false} RunGrown(r: Rules, d: Definition, ticks: seq<Tick>, n: nat, m: nat)
    requires WellFormed(ticks) && n < m <= |ticks|
    requires RunTo(r, d, ticks, m).Ok?
    ensures RunTo(r, d, ticks, n).Ok?
    ensures Grown(RunTo(r, d, ticks, n).value, RunTo(r, d, ticks, m).value, ticks[n].bar.start - 1)
  {
    hide Step, Grown;
    var before := RunTo(r, d, ticks, m - 1).value;
    RunOrderly(r, d, ticks, m - 1);
    if before.unresolved == [] {
      StepGrown(r, d, ticks, m - 1, before);
    } else {
      GrownNothing(before, ticks[n].bar.start - 1);
    }
    if n < m - 1 {
      RunGrown(r, d, ticks, n, m - 1);
      TicksAdvance(ticks, n, m - 1);
      if before.unresolved == [] {
        GrownTwice(RunTo(r, d, ticks, n).value, before, RunTo(r, d, ticks, m).value,
                   ticks[n].bar.start - 1, ticks[m - 1].bar.start - 1);
      }
    }
  }

  lemma {:induction false} GrownNothing(run: Run, bound: int)
    ensures Grown(run, run, bound)
  {
    hide Fills;
  }

  lemma {:induction false} GrownLess(a: Run, b: Run, bound: int, less: int)
    requires Grown(a, b, bound) && less <= bound
    ensures Grown(a, b, less)
  {
    hide Fills;
  }

  /** How many ticks start before t. */
  function Before(ticks: seq<Tick>, t: int): (n: nat)
    ensures n <= |ticks|
    ensures n > 0 ==> ticks[n - 1].bar.start < t
  {
    if ticks == [] then 0
    else if ticks[|ticks| - 1].bar.start < t then |ticks|
    else Before(ticks[..|ticks| - 1], t)
  }

  lemma {:induction false} BeforeIsSharp(ticks: seq<Tick>, t: int)
    requires forall i, j :: 0 <= i < j < |ticks| ==> ticks[i].bar.start < ticks[j].bar.start
    ensures Before(ticks, t) < |ticks| ==> ticks[Before(ticks, t)].bar.start >= t
  {
    if ticks != [] && ticks[|ticks| - 1].bar.start >= t { BeforeIsSharp(ticks[..|ticks| - 1], t); }
  }

  /** The order pending at the tick that opens at t is decided on that open alone. */
  lemma {:induction false} SameDecision(r: Rules, x: Candle, y: Candle, last: bool, previous: Candle, run: Run)
    requires x.start == y.start && x.open == y.open
    ensures Decided(r, x, last, previous, run) == Decided(r, y, last, previous, run)
  {
    hide Fee;
  }

  /** What a completed run has seen at t: what the common state before t, or the common decision
      at t, had recorded. */
  lemma {:induction false} SeenAtCut(r: Rules, d: Definition, ticks: seq<Tick>, n: nat, t: int)
    requires WellFormed(ticks) && n < |ticks| && t <= ticks[n].bar.start
    requires RunTo(r, d, ticks, |ticks|).Ok?
    ensures RunTo(r, d, ticks, n).Ok?
    ensures
      var run, final := RunTo(r, d, ticks, n).value, RunTo(r, d, ticks, |ticks|).value;
      if run.unresolved != [] || t < ticks[n].bar.start then Seen(final, t) == Seen(run, t)
      else
        var decided := Decided(r, ticks[n].bar, ticks[n].Last(), if n > 0 then ticks[n - 1].bar else ticks[n].bar, run);
        decided.Ok? && Seen(final, t) == Seen(decided.value, t)
  {
    hide Step, Decided, Grown, Seen, Orderly;
    RunGrown(r, d, ticks, n, |ticks|);
    var run, final := RunTo(r, d, ticks, n).value, RunTo(r, d, ticks, |ticks|).value;
    if run.unresolved != [] {
      Stays(r, d, ticks, n, |ticks|);
    } else if t < ticks[n].bar.start {
      GrownLess(run, final, ticks[n].bar.start - 1, t);
      SeenKept(run, final, t);
    } else {
      RunOrderly(r, d, ticks, n);
      if n + 1 < |ticks| { RunGrown(r, d, ticks, n + 1, |ticks|); }
      var stepped := RunTo(r, d, ticks, n + 1).value;
      StepGrown(r, d, ticks, n, run);
      SeenKept(Decided(r, ticks[n].bar, ticks[n].Last(), if n > 0 then ticks[n - 1].bar else ticks[n].bar, run).value, stepped, t);
      if n + 1 < |ticks| {
        TicksAdvance(ticks, n, n + 1);
        GrownLess(stepped, final, ticks[n + 1].bar.start - 1, t);
        SeenKept(stepped, final, t);
      }
    }
  }

  lemma {:induction false} Stays(r: Rules, d: Definition, ticks: seq<Tick>, n: nat, m: nat)
    requires n <= m <= |ticks| && RunTo(r, d, ticks, n).Ok? && RunTo(r, d, ticks, n).value.unresolved != []
    ensures RunTo(r, d, ticks, m) == RunTo(r, d, ticks, n)
  {
    hide Step;
    if n < m { Stays(r, d, ticks, n, m - 1); }
  }

  /** Two runs over ticks that agree until t have seen the same by t. */
  lemma {:induction false} RunsAreCausal(r: Rules, d: Definition, a: seq<Tick>, b: seq<Tick>, t: int)
    requires WellFormed(a) && WellFormed(b) && SameUntil(a, b, t)
    requires RunTo(r, d, a, |a|).Ok? && RunTo(r, d, b, |b|).Ok?
    ensures Seen(RunTo(r, d, a, |a|).value, t) == Seen(RunTo(r, d, b, |b|).value, t)
  {
    hide RunTo, Decided, Seen, Joined;
    var n := Before(a, t);
    forall i, j | 0 <= i < j < |a| ensures a[i].bar.start < a[j].bar.start { TicksAdvance(a, i, j); }
    BeforeIsSharp(a, t);
    SameRun(r, d, a, b, t, n);
    if n < |a| {
      assert Alike(a[n], b[n], t);
      if n > 0 { assert Alike(a[n - 1], b[n - 1], t); }
      SeenAtCut(r, d, a, n, t);
      SeenAtCut(r, d, b, n, t);
      var run := RunTo(r, d, a, n).value;
      if run.unresolved == [] && t == a[n].bar.start {
        PendingLater(r, d, a, n);
        if n > 0 {
          SameDecision(r, a[n].bar, b[n].bar, a[n].Last(), a[n - 1].bar, run);
        } else {
          NothingPending(r, a[n].bar, b[n].bar, a[n].Last(), run);
        }
      }
    }
  }

  lemma {:induction false} PendingLater(r: Rules, d: Definition, ticks: seq<Tick>, n: nat)
    requires WellFormed(ticks) && n <= |ticks| && |ticks| > 0 && RunTo(r, d, ticks, n).Ok?
    ensures n == 0 ==> RunTo(r, d, ticks, n).value.book.pending.None?
  {
  }

  lemma {:induction false} NothingPending(r: Rules, x: Candle, y: Candle, last: bool, run: Run)
    requires run.book.pending.None?
    ensures Decided(r, x, last, x, run) == Decided(r, y, last, y, run)
  {
  }

  // ----- series -----

  /** Two series over the same sessions whose candles agree before t, and in their open at t. */
  ghost predicate AgreeUntil(a: PriceSeries, b: PriceSeries, t: int) {
    && a.sessions == b.sessions
    && forall x, y :: x in a.bars && y in b.bars && x.start == y.start ==>
         (x.start < t ==> x == y) && (x.start == t ==> x.open == y.open)
  }

  lemma {:induction false} SameTicks(a: PriceSeries, b: PriceSeries, t: int, k: nat)
    requires AgreeUntil(a, b, t) && Covered(a) && Covered(b) && k <= |a.sessions|
    ensures k <= |b.sessions| && SameUntil(Ticks(a, k), Ticks(b, k), t)
  {
    hide *;
    SameSessions(a, b, t);
    if k > 0 {
      SameTicks(a, b, t, k - 1);
      SameTicksNext(a, b, t, k);
    } else {
      NoTicks(a, b, t);
    }
  }

  lemma {:induction false} NoTicks(a: PriceSeries, b: PriceSeries, t: int)
    ensures SameUntil(Ticks(a, 0), Ticks(b, 0), t)
  {
    hide Alike;
  }

  lemma {:induction false} SameTicksNext(a: PriceSeries, b: PriceSeries, t: int, k: nat)
    requires AgreeUntil(a, b, t) && Covered(a) && Covered(b) && a.sessions == b.sessions && 0 < k <= |a.sessions|
    requires SameUntil(Ticks(a, k - 1), Ticks(b, k - 1), t)
    ensures SameUntil(Ticks(a, k), Ticks(b, k), t)
  {
    hide *;
    var x, y := Ticks(a, k - 1), Ticks(b, k - 1);
    var origin := |x|;
    SameSize(x, y, t);
    SameSession(a, b, t, k - 1, origin);
    TicksOpen(a, k);
    TicksOpen(b, k);
    SameJoin(x, y, SessionOf(a, k - 1, origin), SessionOf(b, k - 1, origin), t);
  }

  /** The ticks of session k, for the run that starts at an index. */
  function SessionOf(series: PriceSeries, k: nat, origin: nat): seq<Tick>
    requires k < |series.sessions|
  {
    SessionTicks(series, series.sessions[k], origin, series.sessions[k].Slots())
  }

  lemma {:induction false} SameSessions(a: PriceSeries, b: PriceSeries, t: int)
    requires AgreeUntil(a, b, t)
    ensures a.sessions == b.sessions
  {
  }

  lemma {:induction false} TicksOpen(series: PriceSeries, k: nat)
    requires 0 < k <= |series.sessions|
    ensures Ticks(series, k) == Ticks(series, k - 1) + SessionOf(series, k - 1, |Ticks(series, k - 1)|)
  {
    hide SessionTicks;
  }

  lemma {:induction false} SameSize(a: seq<Tick>, b: seq<Tick>, t: int)
    requires SameUntil(a, b, t)
    ensures |a| == |b|
  {
  }

  lemma {:induction false} SameJoin(a: seq<Tick>, b: seq<Tick>, x: seq<Tick>, y: seq<Tick>, t: int)
    requires SameUntil(a, b, t) && SameUntil(x, y, t)
    ensures SameUntil(a + x, b + y, t)
  {
    hide Alike;
  }

  lemma {:induction false} SameSession(a: PriceSeries, b: PriceSeries, t: int, k: nat, origin: nat)
    requires AgreeUntil(a, b, t) && Covered(a) && Covered(b) && k < |a.sessions|
    ensures k < |b.sessions| && SameUntil(SessionOf(a, k, origin), SessionOf(b, k, origin), t)
  {
    hide BarAt, ByStart, Covered;
    var mine, theirs := SessionOf(a, k, origin), SessionOf(b, k, origin);
    forall i | 0 <= i < |mine| ensures Alike(mine[i], theirs[i], t) {
      SlotHasBar(a, k, i);
      SlotHasBar(b, k, i);
    }
  }

  /** The execution's own view at t; an unresolved position counts as a fill. */
  function ViewOf(e: Execution, t: int): View {
    View(DecisionsUntil(e.decisions, t), RefusalsUntil(e.noFills, t), TradesUntil(e.trades, t),
         FillsUntil(FillsOf(e.trades) + UnresolvedFills(e.unresolved), t))
  }

  function UnresolvedFills(us: seq<Unresolved>): (fills: seq<Fill>)
    ensures |fills| == |us|
  {
    seq(|us|, i requires 0 <= i < |us| => Fill(us[i].signalAt, us[i].entryAt, us[i].entry))
  }

  /** Causal noninterference: if two accepted series agree on every candle before t and on the open at t,
      the causal executor makes the same entry decisions, refusals and fills at all times up to t, and
      the same trades closed by t. The current candle's high, low, close and volume, and everything
      later, cannot reach an entry. */
  lemma {:induction false} ExecutionIsCausal(a: PriceSeries, b: PriceSeries, d: Definition, settings: Settings, costs: Schedule, t: int)
    requires a.Valid() && b.Valid() && settings.Valid()
    requires AgreeUntil(a, b, t)
    requires Executed(a, d, settings, costs).Ok? && Executed(b, d, settings, costs).Ok?
    ensures ViewOf(Executed(a, d, settings, costs).value, t) == ViewOf(Executed(b, d, settings, costs).value, t)
  {
    hide RunTo, Ticks, Seen, MetricsOf, PriceSeries.Valid;
    var r := RulesOf(settings, costs, d.stop, d.target);
    SeriesTicks(a);
    SeriesTicks(b);
    CompleteCovers(a);
    CompleteCovers(b);
    SameTicks(a, b, t, |a.sessions|);
    RunsAreCausal(r, d, AllTicks(a), AllTicks(b), t);
    ViewIsSeen(r, d, AllTicks(a), t);
    ViewIsSeen(r, d, AllTicks(b), t);
  }

  lemma {:induction false} ViewIsSeen(r: Rules, d: Definition, ticks: seq<Tick>, t: int)
    requires WellFormed(ticks) && |ticks| > 0 && 0.0 < r.settings.capital
    requires RunTo(r, d, ticks, |ticks|).Ok?
    ensures Seen(RunTo(r, d, ticks, |ticks|).value, t) == ViewOf(ExecutionOf(r, RunTo(r, d, ticks, |ticks|).value), t)
  {
    hide RunTo, MetricsOf;
    var run := RunTo(r, d, ticks, |ticks|).value;
    RunOrderly(r, d, ticks, |ticks|);
    assert Fills(run.book) == FillsOf(run.book.trades) + UnresolvedFills(run.unresolved);
  }

  // ----- errors -----

  /** What is checked before the first candle. */
  ghost predicate Admitted(series: PriceSeries) {
    Complete(series) && series.sessions != [] && |series.bars| <= 30000 && series.reviewed
  }

  lemma {:induction false} ErrorLasts(r: Rules, d: Definition, ticks: seq<Tick>, n: nat, m: nat)
    requires n <= m <= |ticks| && RunTo(r, d, ticks, n).Err?
    ensures RunTo(r, d, ticks, m) == RunTo(r, d, ticks, n)
  {
    hide Step;
    if n < m { ErrorLasts(r, d, ticks, n, m - 1); }
  }

  lemma {:induction false} RunErrors(series: PriceSeries, d: Definition, settings: Settings, costs: Schedule)
    requires series.Valid() && settings.Valid() && Admitted(series)
    ensures
      var run := RunTo(RulesOf(settings, costs, d.stop, d.target), d, AllTicks(series), |AllTicks(series)|);
      && (Executed(series, d, settings, costs).Err? <==> run.Err?)
      && (run.Err? ==> Executed(series, d, settings, costs) == Err(run.error))
  {
    hide RunTo, AllTicks, PriceSeries.Valid, MetricsOf;
  }

  /** Errors are causal too: if two admitted series agree before t, an error that a candle before t raises
      in one run is raised by the same candle in the other, and both executions end in it. */
  lemma {:induction false} ErrorsAreCausal(a: PriceSeries, b: PriceSeries, d: Definition, settings: Settings, costs: Schedule, t: int, n: nat)
    requires a.Valid() && b.Valid() && settings.Valid() && Admitted(a) && Admitted(b)
    requires AgreeUntil(a, b, t) && n < |AllTicks(a)| && AllTicks(a)[n].bar.start < t
    ensures |AllTicks(b)| == |AllTicks(a)|
    ensures
      var r := RulesOf(settings, costs, d.stop, d.target);
      && RunTo(r, d, AllTicks(b), n) == RunTo(r, d, AllTicks(a), n)
      && RunTo(r, d, AllTicks(b), n + 1) == RunTo(r, d, AllTicks(a), n + 1)
      && (RunTo(r, d, AllTicks(a), n + 1).Err? ==>
            Executed(a, d, settings, costs) == Executed(b, d, settings, costs) == Err(RunTo(r, d, AllTicks(a), n + 1).error))
  {
    hide *;
    var r, x, y := RulesOf(settings, costs, d.stop, d.target), AllTicks(a), AllTicks(b);
    AdmittedTicks(a);
    AdmittedTicks(b);
    SameTicks(a, b, t, |a.sessions|);
    SameSessions(a, b, t);
    SameSize(x, y, t);
    if n > 0 { Earlier(x, n); }
    SameRun(r, d, x, y, t, n);
    SameRun(r, d, x, y, t, n + 1);
    if RunTo(r, d, x, n + 1).Err? {
      ErrorLasts(r, d, x, n + 1, |x|);
      ErrorLasts(r, d, y, n + 1, |x|);
      RunErrors(a, d, settings, costs);
      RunErrors(b, d, settings, costs);
    }
  }

  lemma {:induction false} Earlier(ticks: seq<Tick>, n: nat)
    requires WellFormed(ticks) && 0 < n < |ticks|
    ensures ticks[n - 1].bar.start < ticks[n].bar.start
  {
    TicksAdvance(ticks, n - 1, n);
  }

  lemma {:induction false} AdmittedTicks(series: PriceSeries)
    requires series.Valid() && Admitted(series)
    ensures Covered(series) && WellFormed(AllTicks(series)) && AllTicks(series) == Ticks(series, |series.sessions|)
  {
    hide Ticks, PriceSeries.Valid;
    CompleteCovers(series);
    SeriesTicks(series);
  }
}
