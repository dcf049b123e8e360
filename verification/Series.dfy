/** Five-minute candles, dated sessions and a complete series (phase14/engine.py). */
module Series {
  import opened Clock
  import opened RealFacts

  datatype Candle = Candle(start: int, open: real, high: real, low: real, close: real, volume: int)
  {
    function End(): int { start + FIVE }

    ghost predicate Valid() {
      && start % FIVE == 0
      && 0.0 < low <= Min(open, close)
      && Max(open, close) <= high
      && 0 <= volume
    }
  }

  datatype Session = Session(start: int, end: int)
  {
    /** A whole number of candles, on the five-minute grid. */
    ghost predicate Aligned() {
      start < end && (end - start) % FIVE == 0 && start % FIVE == 0
    }

    /** Number of candles the session holds. */
    function Slots(): nat {
      if start < end then (end - start) / FIVE else 0
    }

    function Slot(i: int): int { start + FIVE * i }
  }

  datatype PriceSeries = PriceSeries(
    symbol: string, fromInclusive: int, toExclusive: int, asOf: int, reviewed: bool,
    sessions: seq<Session>, nonTradingDays: set<int>, bars: seq<Candle>)
  {
    /** What the series validator guarantees to every engine. */
    ghost predicate Valid() {
      && fromInclusive < toExclusive <= asOf
      && toExclusive - fromInclusive <= 366 * MINUTES_PER_DAY
      && InOrder(sessions)
      && (forall s :: s in sessions ==> DateOf(s.start) == DateOf(s.end))
      && (forall s :: s in sessions ==> fromInclusive <= s.start && s.end <= toExclusive)
      && CalendarKnown()
      && Sound(bars)
      && (forall b :: b in bars ==> fromInclusive <= b.start && b.End() <= toExclusive)
      && Increasing(bars)
    }

    /** Every date of the window is either a session date or a declared closed day, never both. */
    ghost predicate CalendarKnown() {
      var active := set s | s in sessions :: DateOf(s.start);
      var first, last := DateOf(fromInclusive), DateOf(toExclusive - 1);
      && active !! nonTradingDays
      && forall d :: d in active + nonTradingDays <==> first <= d <= last
    }
  }

  /** Sessions on the grid, one after the other. */
  ghost predicate InOrder(sessions: seq<Session>) {
    && (forall k :: 0 <= k < |sessions| ==> sessions[k].Aligned())
    && (forall k :: 0 < k < |sessions| ==> Precedes(sessions, k))
  }

  ghost predicate Precedes(sessions: seq<Session>, k: int)
    requires 0 < k < |sessions|
  {
    sessions[k - 1].end <= sessions[k].start
  }

  ghost predicate Sound(bars: seq<Candle>) {
    forall b :: b in bars ==> b.Valid()
  }

  ghost predicate Increasing(bars: seq<Candle>) {
    forall i, j :: 0 <= i < j < |bars| ==> bars[i].start < bars[j].start
  }

  /** The instants at which the sessions owe a candle. */
  function Owed(sessions: seq<Session>): set<int> {
    if sessions == [] then {}
    else Owed(sessions[..|sessions| - 1]) + Grid(sessions[|sessions| - 1])
  }

  function Grid(s: Session): set<int> {
    set i | 0 <= i < s.Slots() :: s.Slot(i)
  }

  function Starts(bars: seq<Candle>): set<int> {
    set b | b in bars :: b.start
  }

  /** The series' own completeness report: owed candles that are missing, present ones nobody owes. */
  method Quality(series: PriceSeries) returns (missing: set<int>, unexpected: set<int>)
    requires InOrder(series.sessions)
    ensures missing == Owed(series.sessions) - Starts(series.bars)
    ensures unexpected == Starts(series.bars) - Owed(series.sessions)
  {
    var expected: set<int> := {};
    for k := 0 to |series.sessions|
      invariant expected == Owed(series.sessions[..k])
    {
      var session := series.sessions[k];
      assert series.sessions[..k + 1][..k] == series.sessions[..k];
      var at, i := session.start, 0;
      while at < session.end
        invariant 0 <= i <= session.Slots() && at == session.Slot(i)
        invariant expected == Owed(series.sessions[..k]) + set j | 0 <= j < i :: session.Slot(j)
        decreases session.end - at
      {
        expected := expected + {at};
        at, i := at + FIVE, i + 1;
      }
      assert i == session.Slots();
    }
    assert series.sessions[..|series.sessions|] == series.sessions;
    var actual := set b | b in series.bars :: b.start;
    missing, unexpected := expected - actual, actual - expected;
  }

  /** A complete series: candles exactly where the sessions owe them. */
  ghost predicate Complete(series: PriceSeries) {
    Owed(series.sessions) == Starts(series.bars)
  }

  /** Every owed instant has its candle. */
  ghost predicate Covered(series: PriceSeries) {
    forall j :: 0 <= j < |series.sessions| ==> Grid(series.sessions[j]) <= Starts(series.bars)
  }

  /** What an executor relies on once it has accepted a series. */
  ghost predicate Usable(series: PriceSeries) {
    InOrder(series.sessions) && Sound(series.bars) && Increasing(series.bars) && Covered(series)
  }

  /** Candles by their start; a later duplicate would win. */
  function ByStart(bars: seq<Candle>): (m: map<int, Candle>)
    ensures m.Keys == Starts(bars)
  {
    if bars == [] then map[]
    else
      var rest := bars[..|bars| - 1];
      var final := bars[|bars| - 1];
      assert bars == rest + [final];
      ByStart(rest)[final.start := final]
  }

  lemma {:induction false} ByStartFinds(bars: seq<Candle>, at: int)
    requires at in Starts(bars)
    ensures ByStart(bars)[at] in bars && ByStart(bars)[at].start == at
  {
    var rest, final := bars[..|bars| - 1], bars[|bars| - 1];
    assert bars == rest + [final];
    if final.start != at { ByStartFinds(rest, at); }
  }

  /** One candle as an executor meets it: the candle, the index of its session's first candle
      in the running count, and the session's end. */
  datatype Tick = Tick(bar: Candle, origin: nat, sessionEnd: int)
  {
    predicate Last() { bar.End() == sessionEnd }
  }

  /** The candle that starts at an instant; complete series have one wherever a session owes it. */
  function BarAt(series: PriceSeries, at: int): Candle {
    var m := ByStart(series.bars);
    if at in m then m[at] else Candle(at, 0.0, 0.0, 0.0, 0.0, 0)
  }

  /** The run of ticks of the first sessions, in order. */
  function Ticks(series: PriceSeries, k: nat): (ticks: seq<Tick>)
    requires k <= |series.sessions|
  {
    if k == 0 then []
    else
      var before := Ticks(series, k - 1);
      before + SessionTicks(series, series.sessions[k - 1], |before|, series.sessions[k - 1].Slots())
  }

  function SessionTicks(series: PriceSeries, s: Session, origin: nat, n: nat): (ticks: seq<Tick>)
    ensures |ticks| == n
    ensures forall i :: 0 <= i < n ==> ticks[i] == Tick(BarAt(series, s.Slot(i)), origin, s.end)
  {
    if n == 0 then [] else SessionTicks(series, s, origin, n - 1) + [Tick(BarAt(series, s.Slot(n - 1)), origin, s.end)]
  }

  /** A covered session finds every candle it owes. */
  lemma {:induction false} SlotHasBar(series: PriceSeries, k: nat, i: nat)
    requires Covered(series) && k < |series.sessions| && i < series.sessions[k].Slots()
    ensures series.sessions[k].Slot(i) in ByStart(series.bars)
    ensures BarAt(series, series.sessions[k].Slot(i)) == ByStart(series.bars)[series.sessions[k].Slot(i)]
    ensures BarAt(series, series.sessions[k].Slot(i)) in series.bars
    ensures BarAt(series, series.sessions[k].Slot(i)).start == series.sessions[k].Slot(i)
  {
    var s := series.sessions[k];
    assert s.Slot(i) in Grid(s);
    ByStartFinds(series.bars, s.Slot(i));
  }

  /** Reading more sessions only appends. */
  lemma {:induction false} TicksPrefix(series: PriceSeries, k: nat, m: nat)
    requires k <= m <= |series.sessions|
    ensures Ticks(series, k) <= Ticks(series, m)
  {
    if k < m { TicksPrefix(series, k, m - 1); }
  }

  /** No tick claims a session that begins after it. */
  ghost predicate Numbered(ticks: seq<Tick>) {
    forall n :: 0 <= n < |ticks| ==> ticks[n].origin <= n
  }

  /** The shape every run of ticks of a valid series has. */
  ghost predicate WellFormed(ticks: seq<Tick>) {
    && Numbered(ticks)
    && (forall n :: 0 <= n < |ticks| ==> ticks[n].bar.Valid())
    && (forall n :: 0 <= n < |ticks| ==> ticks[n].bar.End() <= ticks[n].sessionEnd)
    && (forall n :: 0 < n < |ticks| ==> Joined(ticks, n))
    && (|ticks| > 0 ==> ticks[|ticks| - 1].Last())
  }

  /** Consecutive ticks: the next candle of one session, or the first of a later one. */
  ghost predicate Joined(ticks: seq<Tick>, n: int)
    requires 0 < n < |ticks|
  {
    var a, b := ticks[n - 1], ticks[n];
    if b.origin == n then a.Last() && a.bar.End() <= b.bar.start
    else !a.Last() && b.origin == a.origin && b.sessionEnd == a.sessionEnd && b.bar.start == a.bar.End()
  }

  lemma {:induction false} GridOwed(sessions: seq<Session>, j: nat)
    requires j < |sessions|
    ensures Grid(sessions[j]) <= Owed(sessions)
  {
    if j < |sessions| - 1 {
      GridOwed(sessions[..|sessions| - 1], j);
    }
  }

  lemma {:induction false} CompleteCovers(series: PriceSeries)
    requires Complete(series)
    ensures Covered(series)
  {
    forall j | 0 <= j < |series.sessions| ensures Grid(series.sessions[j]) <= Starts(series.bars) {
      GridOwed(series.sessions, j);
    }
  }

  /** The ticks of a valid series are well formed, and the run ends with the last session read. */
  lemma {:induction false} TicksWellFormed(series: PriceSeries, k: nat)
    requires InOrder(series.sessions) && Sound(series.bars) && k <= |series.sessions|
    requires Covered(series)
    ensures WellFormed(Ticks(series, k))
    ensures k > 0 ==> |Ticks(series, k)| > 0
    ensures |Ticks(series, k)| > 0 ==> k > 0 && Ticks(series, k)[|Ticks(series, k)| - 1].sessionEnd == series.sessions[k - 1].end
  {
    if k > 0 {
      TicksWellFormed(series, k - 1);
      SessionOpens(series, k);
    }
  }

  lemma {:induction false} SessionOpens(series: PriceSeries, k: nat)
    requires InOrder(series.sessions) && Sound(series.bars) && 0 < k <= |series.sessions|
    requires Covered(series)
    requires WellFormed(Ticks(series, k - 1))
    requires k > 1 ==> |Ticks(series, k - 1)| > 0
    requires |Ticks(series, k - 1)| > 0 ==>
      k > 1 && Ticks(series, k - 1)[|Ticks(series, k - 1)| - 1].sessionEnd == series.sessions[k - 2].end
    ensures WellFormed(Ticks(series, k)) && |Ticks(series, k)| > 0
    ensures Ticks(series, k)[|Ticks(series, k)| - 1].sessionEnd == series.sessions[k - 1].end
  {
    hide Ticks, ByStart, InOrder, Covered, Sound, WellFormed, BarAt, SessionTicks, Session.Aligned, Tick.Last;
    var before, s := Ticks(series, k - 1), series.sessions[k - 1];
    TicksUnfold(series, k);
    SessionsOrdered(series.sessions, k - 1);
    var mine := SessionTicks(series, s, |before|, s.Slots());
    SessionTicksPlaced(series, k - 1, |before|);
    SessionAppended(before, mine, s);
    assert (before + mine)[|before + mine| - 1] == mine[|mine| - 1];
  }

  lemma {:induction false} TicksUnfold(series: PriceSeries, k: nat)
    requires 0 < k <= |series.sessions|
    ensures
      var before, s := Ticks(series, k - 1), series.sessions[k - 1];
      Ticks(series, k) == before + SessionTicks(series, s, |before|, s.Slots())
  {
    hide SessionTicks;
  }

  lemma {:induction false} SessionsOrdered(sessions: seq<Session>, k: nat)
    requires InOrder(sessions) && k < |sessions|
    ensures sessions[k].Aligned() && sessions[k].start < sessions[k].end && (sessions[k].end - sessions[k].start) % FIVE == 0
    ensures k > 0 ==> sessions[k - 1].end <= sessions[k].start
  {
    assert k > 0 ==> Precedes(sessions, k);
  }

  lemma {:induction false} SessionTicksPlaced(series: PriceSeries, k: nat, origin: nat)
    requires Sound(series.bars) && Covered(series) && k < |series.sessions|
    ensures
      var s := series.sessions[k];
      var mine := SessionTicks(series, s, origin, s.Slots());
      forall i :: 0 <= i < |mine| ==>
        mine[i].bar.start == s.Slot(i) && mine[i].origin == origin && mine[i].sessionEnd == s.end && mine[i].bar.Valid()
  {
    hide BarAt, Covered, ByStart;
    var s := series.sessions[k];
    var mine := SessionTicks(series, s, origin, s.Slots());
    forall i | 0 <= i < |mine|
      ensures mine[i].bar.start == s.Slot(i) && mine[i].origin == origin && mine[i].sessionEnd == s.end && mine[i].bar.Valid()
    {
      SlotHasBar(series, k, i);
    }
  }

  lemma {:induction false} SessionAppended(before: seq<Tick>, mine: seq<Tick>, s: Session)
    requires WellFormed(before)
    requires s.start < s.end && (s.end - s.start) % FIVE == 0
    requires |mine| == s.Slots()
    requires |before| > 0 ==> before[|before| - 1].sessionEnd <= s.start
    requires forall i :: 0 <= i < |mine| ==>
      mine[i].bar.start == s.Slot(i) && mine[i].origin == |before| && mine[i].sessionEnd == s.end && mine[i].bar.Valid()
    ensures |mine| > 0 && mine[|mine| - 1].Last()
    ensures WellFormed(before + mine)
  {
    var all := before + mine;
    assert s.Slot(s.Slots()) == s.end;
    forall n | 0 < n < |all| ensures Joined(all, n) {
      if n < |before| {
        assert Joined(before, n);
      } else if n == |before| {
        assert all[n] == mine[0] && all[n - 1] == before[n - 1];
      } else {
        assert all[n] == mine[n - |before|] && all[n - 1] == mine[n - 1 - |before|];
      }
    }
  }

  /** Well-formed ticks advance strictly, by at least one candle each. */
  lemma {:induction false} TicksAdvance(ticks: seq<Tick>, i: nat, j: nat)
    requires WellFormed(ticks) && i < j < |ticks|
    ensures ticks[i].bar.End() <= ticks[j].bar.start
    ensures ticks[i].bar.start + FIVE * (j - i) <= ticks[j].bar.start
  {
    assert Joined(ticks, j);
    if i < j - 1 { TicksAdvance(ticks, i, j - 1); }
  }

  /** Within its session a tick's candle sits at its distance from the session's first candle. */
  lemma {:induction false} SessionRun(ticks: seq<Tick>, n: nat, m: nat)
    requires WellFormed(ticks) && n < |ticks| && ticks[n].origin <= m <= n
    ensures ticks[m].origin == ticks[n].origin && ticks[m].sessionEnd == ticks[n].sessionEnd
    ensures ticks[m].bar.start == ticks[n].bar.start - FIVE * (n - m)
  {
    if m < n {
      assert Joined(ticks, n);
      SessionRun(ticks, n - 1, m);
    }
  }

  /** The candles of the current session up to and including tick n. */
  function History(ticks: seq<Tick>, n: nat): seq<Candle>
    requires n < |ticks|
  {
    Bars(ticks[if ticks[n].origin <= n then ticks[n].origin else n..n + 1])
  }

  function Bars(ticks: seq<Tick>): (bars: seq<Candle>)
    ensures |bars| == |ticks|
    ensures forall i :: 0 <= i < |ticks| ==> bars[i] == ticks[i].bar
  {
    seq(|ticks|, i requires 0 <= i < |ticks| => ticks[i].bar)
  }

  /** A complete series has no more ticks than candles. */
  lemma {:induction false} TickCount(series: PriceSeries)
    requires InOrder(series.sessions) && Sound(series.bars)
    requires Covered(series)
    ensures |Ticks(series, |series.sessions|)| <= |series.bars|
  {
    var ticks := Ticks(series, |series.sessions|);
    TicksWellFormed(series, |series.sessions|);
    TicksFromBars(series, |series.sessions|);
    CountDrawn(ticks, series.bars);
  }

  lemma {:induction false} CountDrawn(ticks: seq<Tick>, bars: seq<Candle>)
    requires WellFormed(ticks)
    requires forall n :: 0 <= n < |ticks| ==> ticks[n].bar in bars
    ensures |ticks| <= |bars|
  {
    var starts := seq(|ticks|, i requires 0 <= i < |ticks| => ticks[i].bar.start);
    var owed := seq(|bars|, i requires 0 <= i < |bars| => bars[i].start);
    forall i, j | 0 <= i < j < |starts| ensures starts[i] < starts[j] {
      TicksAdvance(ticks, i, j);
    }
    forall i | 0 <= i < |starts| ensures starts[i] in owed {
      var j :| 0 <= j < |bars| && bars[j] == ticks[i].bar;
      assert owed[j] == starts[i];
    }
    Pigeonhole(starts, owed);
  }

  lemma {:induction false} TicksFromBars(series: PriceSeries, k: nat)
    requires k <= |series.sessions|
    requires Covered(series)
    ensures forall n :: 0 <= n < |Ticks(series, k)| ==> Ticks(series, k)[n].bar in series.bars
  {
    if k > 0 {
      TicksFromBars(series, k - 1);
      var s, before := series.sessions[k - 1], Ticks(series, k - 1);
      var mine := SessionTicks(series, s, |before|, s.Slots());
      assert Ticks(series, k) == before + mine;
      forall i | 0 <= i < |mine| ensures mine[i].bar in series.bars {
        SlotHasBar(series, k - 1, i);
      }
    }
  }

  /** A strictly increasing sequence drawn from another is no longer than it. */
  lemma {:induction false} Pigeonhole(a: seq<int>, b: seq<int>)
    requires forall i, j :: 0 <= i < j < |a| ==> a[i] < a[j]
    requires forall i :: 0 <= i < |a| ==> a[i] in b
    ensures |a| <= |b|
  {
    var small, large := set x | x in a, set x | x in b;
    DistinctSize(a);
    BoundedSize(b);
    SubsetSize(small, large);
  }

  lemma {:induction false} DistinctSize(a: seq<int>)
    requires forall i, j :: 0 <= i < j < |a| ==> a[i] < a[j]
    ensures |set x | x in a| == |a|
  {
    if a != [] {
      var rest, final := a[..|a| - 1], a[|a| - 1];
      DistinctSize(rest);
      assert (set x | x in a) == (set x | x in rest) + {final};
    }
  }

  lemma {:induction false} BoundedSize(b: seq<int>)
    ensures |set x | x in b| <= |b|
  {
    if b != [] {
      var rest, final := b[..|b| - 1], b[|b| - 1];
      BoundedSize(rest);
      assert (set x | x in b) == (set x | x in rest) + {final};
    }
  }

  lemma {:induction false} SubsetSize<T>(small: set<T>, large: set<T>)
    requires small <= large
    ensures |small| <= |large|
  {
    if |small| > 0 {
      var x :| x in small;
      SubsetSize(small - {x}, large - {x});
    }
  }
}
