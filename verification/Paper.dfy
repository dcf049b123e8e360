/** The offline paper simulation (phase1417/paper.py): every candidate of an execution is walked
    through its lifecycle, sized, filled and closed, and each step is recorded in the audit log. */
module Paper {
  import opened Wrappers
  import opened Clock
  import opened RealFacts
  import opened Costs
  import opened Series
  import opened Strategies
  import opened Executor
  import opened ExecutionOrder
  import opened ExecutorLoops
  import Refinement

  // ----- candidates in time order -----

  /** A position the execution entered; one it could not leave has no exit price. */
  datatype Held = Held(signalAt: int, entry: real, exitAt: int, exit: Option<real>, reason: Reason)

  /** What the execution did at an entry time: a position, or a refusal. */
  datatype Candidate = Candidate(at: int, held: Option<Held>)
  {
    function Until(): int { if held.Some? then held.value.exitAt else at }
  }

  function OfTrades(trades: seq<Trade>): (cs: seq<Candidate>)
    ensures |cs| == |trades|
    ensures forall i :: 0 <= i < |cs| ==>
      cs[i] == Candidate(trades[i].entryAt, Some(Held(trades[i].signalAt, trades[i].entry, trades[i].exitAt, Some(trades[i].exit), trades[i].reason)))
  {
    seq(|trades|, i requires 0 <= i < |trades| =>
      Candidate(trades[i].entryAt, Some(Held(trades[i].signalAt, trades[i].entry, trades[i].exitAt, Some(trades[i].exit), trades[i].reason))))
  }

  function OfUnresolved(us: seq<Unresolved>): (cs: seq<Candidate>)
    ensures |cs| == |us|
    ensures forall i :: 0 <= i < |cs| ==> cs[i] == Candidate(us[i].entryAt, Some(Held(us[i].signalAt, us[i].entry, us[i].exitAt, None, us[i].reason)))
  {
    seq(|us|, i requires 0 <= i < |us| => Candidate(us[i].entryAt, Some(Held(us[i].signalAt, us[i].entry, us[i].exitAt, None, us[i].reason))))
  }

  function OfRefusals(ats: seq<int>): (cs: seq<Candidate>)
    ensures |cs| == |ats|
    ensures forall i :: 0 <= i < |cs| ==> cs[i] == Candidate(ats[i], None)
  {
    seq(|ats|, i requires 0 <= i < |ats| => Candidate(ats[i], None))
  }

  function Candidates(e: Execution): seq<Candidate> {
    OfTrades(e.trades) + OfUnresolved(e.unresolved) + OfRefusals(e.noFills)
  }

  /** Stable sorting by entry time. */
  function Inserted(c: Candidate, cs: seq<Candidate>): seq<Candidate> {
    if cs == [] then [c]
    else if cs[|cs| - 1].at <= c.at then cs + [c]
    else Inserted(c, cs[..|cs| - 1]) + [cs[|cs| - 1]]
  }

  function SortedByTime(cs: seq<Candidate>): seq<Candidate> {
    if cs == [] then [] else Inserted(cs[|cs| - 1], SortedByTime(cs[..|cs| - 1]))
  }

  ghost predicate InOrderOfTime(cs: seq<Candidate>) {
    forall i, j :: 0 <= i < j < |cs| ==> cs[i].at <= cs[j].at
  }

  lemma {:induction false} InsertedKeeps(c: Candidate, cs: seq<Candidate>)
    ensures multiset(Inserted(c, cs)) == multiset(cs) + multiset{c}
  {
    if cs != [] {
      var rest, last := cs[..|cs| - 1], cs[|cs| - 1];
      assert cs == rest + [last];
      if last.at > c.at { InsertedKeeps(c, rest); }
    }
  }

  lemma {:induction false} InsertedSorts(c: Candidate, cs: seq<Candidate>)
    requires InOrderOfTime(cs)
    ensures InOrderOfTime(Inserted(c, cs))
  {
    if cs != [] && cs[|cs| - 1].at > c.at {
      var rest, last := cs[..|cs| - 1], cs[|cs| - 1];
      InsertedSorts(c, rest);
      InsertedKeeps(c, rest);
      var sorted := Inserted(c, rest);
      forall i | 0 <= i < |sorted| ensures sorted[i].at <= last.at {
        assert sorted[i] in multiset(sorted);
        if sorted[i] != c { assert sorted[i] in rest; }
      }
    }
  }

  lemma {:induction false} SortingSorts(cs: seq<Candidate>)
    ensures InOrderOfTime(SortedByTime(cs)) && multiset(SortedByTime(cs)) == multiset(cs)
    ensures |SortedByTime(cs)| == |cs|
  {
    if cs != [] {
      hide *;
      var front, last := cs[..|cs| - 1], cs[|cs| - 1];
      SortingSorts(front);
      SortedOpens(cs);
      InsertedSorts(last, SortedByTime(front));
      InsertedKeeps(last, SortedByTime(front));
      assert cs == front + [last];
    }
    assert |SortedByTime(cs)| == |multiset(SortedByTime(cs))|;
  }

  lemma {:induction false} SortedOpens(cs: seq<Candidate>)
    requires cs != []
    ensures SortedByTime(cs) == Inserted(cs[|cs| - 1], SortedByTime(cs[..|cs| - 1]))
  {
    hide Inserted;
  }

  /** Two candidates of one execution: distinct times, and the earlier is over when the later begins. */
  ghost predicate Apart(a: Candidate, b: Candidate) {
    (a.at < b.at && a.Until() <= b.at) || (b.at < a.at && b.Until() <= a.at)
  }

  ghost predicate AllApart(cs: seq<Candidate>) {
    && (forall i :: 0 <= i < |cs| ==> cs[i].at <= cs[i].Until())
    && forall i, j :: 0 <= i < j < |cs| ==> Apart(cs[i], cs[j])
  }

  lemma {:induction false} CandidatesApart(e: Execution)
    requires Chronological(e)
    ensures AllApart(Candidates(e))
  {
    var cs := Candidates(e);
    forall i, j | 0 <= i < j < |cs| ensures Apart(cs[i], cs[j]) {
      if j < |e.trades| {
        assert e.trades[i].exitAt <= e.trades[j].entryAt;
      } else if i >= |e.trades| + |e.unresolved| {
        var k := |e.trades| + |e.unresolved|;
        assert e.noFills[i - k] < e.noFills[j - k];
      }
    }
  }

  /** Candidates apart from one another stay so in any order. */
  lemma {:induction false} ApartPermutes(xs: seq<Candidate>, ys: seq<Candidate>)
    requires AllApart(xs) && multiset(xs) == multiset(ys)
    ensures AllApart(ys)
  {
    forall i | 0 <= i < |ys| ensures ys[i].at <= ys[i].Until() {
      assert ys[i] in multiset(ys);
    }
    forall i, j | 0 <= i < j < |ys| ensures Apart(ys[i], ys[j]) {
      assert ys[i] in multiset(ys) && ys[j] in multiset(ys);
      AtMostOnce(xs, ys[i]);
      if ys[i] == ys[j] { TwiceIn(ys, i, j); }
      var k :| 0 <= k < |xs| && xs[k] == ys[i];
      var l :| 0 <= l < |xs| && xs[l] == ys[j];
      assert Apart(xs[if k < l then k else l], xs[if k < l then l else k]);
    }
  }

  lemma {:induction false} AtMostOnce(cs: seq<Candidate>, c: Candidate)
    requires AllApart(cs)
    ensures multiset(cs)[c] <= 1
  {
    if multiset(cs)[c] >= 2 {
      var k, l := PlacesOf(cs, c);
    }
  }

  lemma {:induction false} TwiceIn(cs: seq<Candidate>, i: nat, j: nat)
    requires i < j < |cs| && cs[i] == cs[j]
    ensures multiset(cs)[cs[i]] >= 2
  {
    assert cs == cs[..j] + [cs[j]] + cs[j + 1..];
    assert cs[i] in cs[..j];
  }

  lemma {:induction false} PlacesOf(cs: seq<Candidate>, c: Candidate) returns (k: nat, l: nat)
    requires multiset(cs)[c] >= 2
    ensures k < l < |cs| && cs[k] == c && cs[l] == c
  {
    var last := |cs| - 1;
    assert cs == cs[..last] + [cs[last]];
    if cs[last] == c {
      l := last;
      assert c in multiset(cs[..last]);
      k :| 0 <= k < last && cs[k] == c;
    } else {
      k, l := PlacesOf(cs[..last], c);
    }
  }

  // ----- signals -----

  datatype PaperEvent = PaperEvent(signalAt: int, reference: real, stop: real, target: real, expiry: int, key: string)

  /** The offline event of a completed candle; keys stand for the hash of symbol, strategy and candle. */
  function EventOf(d: Definition, keyOf: Candle -> string, candle: Candle, now: int): Result<PaperEvent> {
    if candle.End() > now then Err("INCOMPLETE_SIGNAL_CANDLE")
    else
      var stop, target := candle.close * (1.0 - d.stop), candle.close * (1.0 + d.target);
      if !(0.0 < stop < candle.close < target) then Err("INVALID_PAPER_EVENT")
      else Ok(PaperEvent(candle.End(), candle.close, stop, target, candle.End() + FIVE, keyOf(candle)))
  }

  lemma {:induction false} EventSucceeds(d: Definition, keyOf: Candle -> string, candle: Candle, now: int)
    requires d.Valid() && candle.Valid() && candle.End() <= now
    ensures EventOf(d, keyOf, candle, now).Ok?
    ensures EventOf(d, keyOf, candle, now).value.key == keyOf(candle)
    ensures EventOf(d, keyOf, candle, now).value.expiry == candle.End() + FIVE
  {
    var c := candle.close;
    MulPositive(c, d.stop);
    MulPositive(c, d.target);
    MulPositive(c, 1.0 - d.stop);
    assert c * (1.0 - d.stop) == c - c * d.stop;
    assert c * (1.0 + d.target) == c + c * d.target;
  }

  // ----- what a candidate can rely on -----

  /** The candle before an entry exists, measures its liquidity, and carries its signal; the tariff is
      in force at entry and, for a position, at exit, whose candle exists too. */
  ghost predicate Grounded(series: PriceSeries, costs: Schedule, c: Candidate) {
    && c.at - FIVE in ByStart(series.bars)
    && LiquidityBar(series, c.at).Ok?
    && (c.held.Some? ==>
          && c.held.value.signalAt == c.at && 0.0 < c.held.value.entry
          && costs.Effective(costs.PricingDate(c.at))
          && c.held.value.exitAt - FIVE in ByStart(series.bars)
          && (c.held.value.exit.Some? ==> 0.0 < c.held.value.exit.value &&
                                          costs.Effective(costs.PricingDate(c.held.value.exitAt - FIVE))))
  }

  lemma {:induction false} TickGrounded(series: PriceSeries, m: nat)
    requires series.Valid() && Complete(series)
    requires WellFormed(AllTicks(series)) && 0 < m < |AllTicks(series)| && AllTicks(series)[m].origin < m
    ensures AllTicks(series)[m].bar.start - FIVE in ByStart(series.bars)
    ensures LiquidityBar(series, AllTicks(series)[m].bar.start).Ok?
  {
    hide Ticks, SessionTicks, ByStart, PriceSeries.CalendarKnown, WellFormed, Complete, Covered;
    var s := TickInside(series, m);
    var previous := AllTicks(series)[m - 1].bar;
    assert previous in series.bars && previous.End() == AllTicks(series)[m].bar.start by { TickBefore(series, m); }
    EndingAtFinds(series.bars, previous);
    assert previous.start in Starts(series.bars);
  }

  /** A tick after its session's first lies inside that session. */
  lemma {:induction false} TickInside(series: PriceSeries, m: nat) returns (s: Session)
    requires series.Valid() && Complete(series)
    requires WellFormed(AllTicks(series)) && 0 < m < |AllTicks(series)| && AllTicks(series)[m].origin < m
    ensures s in series.sessions && s.start < AllTicks(series)[m].bar.start < s.end
  {
    hide Ticks, SessionTicks, ByStart, PriceSeries.CalendarKnown;
    CompleteCovers(series);
    Refinement.TicksInSessions(series, |series.sessions|);
    var ticks := AllTicks(series);
    var o := ticks[m].origin;
    assert Joined(ticks, m);
    SessionRun(ticks, m, o);
    assert Refinement.InSomeSession(series, ticks[o]);
    s :| s in series.sessions && s.start <= ticks[o].bar.start && ticks[o].sessionEnd == s.end;
  }

  lemma {:induction false} TickBefore(series: PriceSeries, m: nat)
    requires Complete(series) && WellFormed(AllTicks(series)) && 0 < m < |AllTicks(series)| && AllTicks(series)[m].origin < m
    ensures AllTicks(series)[m - 1].bar in series.bars && AllTicks(series)[m - 1].bar.End() == AllTicks(series)[m].bar.start
  {
    hide Ticks, SessionTicks, ByStart;
    CompleteCovers(series);
    TicksFromBars(series, |series.sessions|);
    assert Joined(AllTicks(series), m);
  }

  lemma {:induction false} ExitGrounded(series: PriceSeries, x: nat)
    requires Usable(series) && x < |AllTicks(series)|
    ensures AllTicks(series)[x].bar.start in ByStart(series.bars)
  {
    hide Ticks, SessionTicks, ByStart;
    TicksFromBars(series, |series.sessions|);
    assert AllTicks(series)[x].bar.start in Starts(series.bars);
  }

  lemma {:induction false} HeldGrounded(series: PriceSeries, r: Rules, at: int, entry: real, exitAt: int)
    requires series.Valid() && Complete(series) && WellFormed(AllTicks(series)) && r.Valid()
    requires Stayed(r, AllTicks(series), |AllTicks(series)|, at, entry, exitAt)
    ensures at - FIVE in ByStart(series.bars) && LiquidityBar(series, at).Ok?
    ensures 0.0 < entry && Priced(r, at)
    ensures exitAt - FIVE in ByStart(series.bars) && Priced(r, exitAt - FIVE)
  {
    hide Ticks, ByStart, LiquidityBar, PriceSeries.CalendarKnown;
    var ticks := AllTicks(series);
    var m: nat, x: nat :| Spot(r, ticks, |ticks|, at, entry, exitAt, m, x);
    CompleteCovers(series);
    TickGrounded(series, m);
    ExitGrounded(series, x);
    assert entry == r.BuyPrice(ticks[m].bar.open);
    BuyPricePositive(r, ticks[m].bar.open);
  }

  lemma {:induction false} BuyPricePositive(r: Rules, open: real)
    requires r.Valid() && 0.0 < open
    ensures 0.0 < r.BuyPrice(open)
  {
    MulNonNegative(open, r.Slip());
  }

  lemma {:induction false} RefusalGrounded(series: PriceSeries, at: int)
    requires series.Valid() && Complete(series) && WellFormed(AllTicks(series))
    requires Refused(AllTicks(series), |AllTicks(series)|, at)
    ensures at - FIVE in ByStart(series.bars) && LiquidityBar(series, at).Ok?
  {
    hide Ticks, ByStart, LiquidityBar, PriceSeries.CalendarKnown;
    var ticks := AllTicks(series);
    var m: nat :| 0 < m < |ticks| && ticks[m].origin < m && ticks[m].bar.start == at;
    TickGrounded(series, m);
  }

  /** The execution a paper run takes its candidates from fills one share at a time. */
  function UnitSettings(settings: Settings): Settings { settings.(quantity := 1) }

  /** Every candidate of an execution stands on candles and tariffs that exist. */
  lemma {:induction false} CandidatesGrounded(series: PriceSeries, d: Definition, settings: Settings, costs: Schedule)
    requires series.Valid() && settings.Valid() && costs.Valid() && d.Valid()
    requires Executed(series, d, UnitSettings(settings), costs).Ok?
    ensures forall c :: c in Candidates(Executed(series, d, UnitSettings(settings), costs).value) ==> Grounded(series, costs, c)
  {
    var unit := UnitSettings(settings);
    var e, r := Executed(series, d, unit, costs).value, RulesOf(unit, costs, d.stop, d.target);
    ExecutionsArePlaced(series, d, unit, costs);
    ExecutionsAreChronological(series, d, unit, costs);
    SignalsAreEntries(e);
    AcceptedIsComplete(series, d, unit, costs);
    SeriesTicks(series);
    hide Executed, AllTicks, LiquidityBar, ByStart, PriceSeries.Valid, Settings.Valid, Grounded, Candidates;
    forall c | c in Candidates(e) ensures Grounded(series, costs, c) {
      var i: nat :| 0 <= i < |Candidates(e)| && Candidates(e)[i] == c;
      CandidateGrounded(series, r, e, i);
    }
  }

  lemma {:induction false} CandidateGrounded(series: PriceSeries, r: Rules, e: Execution, i: nat)
    requires series.Valid() && Complete(series) && WellFormed(AllTicks(series)) && r.Valid() && r.settings.quantity == 1
    requires forall t :: t in e.trades ==> TradePlaced(r, AllTicks(series), |AllTicks(series)|, t)
    requires forall t :: t in e.trades ==> t.signalAt == t.entryAt
    requires forall u :: u in e.unresolved ==> UnresolvedPlaced(r, AllTicks(series), |AllTicks(series)|, u) && u.signalAt == u.entryAt
    requires forall at :: at in e.noFills ==> Refused(AllTicks(series), |AllTicks(series)|, at)
    requires i < |Candidates(e)|
    ensures Grounded(series, r.costs, Candidates(e)[i])
  {
    hide AllTicks, LiquidityBar, ByStart, PriceSeries.Valid, Schedule.Valid, Refused;
    if i < |e.trades| {
      var t := e.trades[i];
      assert TradePlaced(r, AllTicks(series), |AllTicks(series)|, t);
      HeldGrounded(series, r, t.entryAt, t.entry, t.exitAt);
      OneShare(r, t.exit);
    } else if i < |e.trades| + |e.unresolved| {
      var u := e.unresolved[i - |e.trades|];
      assert UnresolvedPlaced(r, AllTicks(series), |AllTicks(series)|, u);
      HeldGrounded(series, r, u.entryAt, u.entry, u.exitAt);
    } else {
      RefusalGrounded(series, e.noFills[i - |e.trades| - |e.unresolved|]);
    }
  }

  lemma {:induction false} SignalsAreEntries(e: Execution)
    requires Chronological(e)
    ensures forall t :: t in e.trades ==> t.signalAt == t.entryAt
    ensures forall u :: u in e.unresolved ==> u.signalAt == u.entryAt
  {
  }

  lemma {:induction false} OneShare(r: Rules, price: real)
    requires r.settings.quantity == 1
    ensures r.Worth(price) == price
  {
  }

  lemma {:induction false} AcceptedIsComplete(series: PriceSeries, d: Definition, settings: Settings, costs: Schedule)
    requires series.Valid() && settings.Valid() && Executed(series, d, settings, costs).Ok?
    ensures Complete(series) && series.sessions != []
  {
    hide RunTo, Ticks;
  }
}
