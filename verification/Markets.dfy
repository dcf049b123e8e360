/** A valid dataset or corpus is the complete market data the one-minute engine relies on. */
module Markets {
  import opened Wrappers
  import opened Clock
  import opened Backtest
  import opened Corpora
  import opened CorpusLaws
  import BacktestLaws

  /** A calendar day as the engine uses it: the first session, if one is expected. The program checks its
      policy against every session of a day, so it refuses runs that are accepted here, never the reverse. */
  function EngineDay(d: CalendarDay): Day {
    if d.status == EXPECTED_SESSION && d.sessions != [] then Trading(d.date, d.sessions[0].open, d.sessions[0].close)
    else Closed(d.date)
  }

  function EngineDays(days: seq<CalendarDay>): (r: seq<Day>)
    ensures |r| == |days| && forall i :: 0 <= i < |r| ==> r[i] == EngineDay(days[i])
  {
    seq(|days|, i requires 0 <= i < |days| => EngineDay(days[i]))
  }

  // ----- ascending minutes -----

  predicate Ascending(ts: seq<int>) { forall i, j :: 0 <= i < j < |ts| ==> ts[i] < ts[j] }

  /** Ascending sequences are determined by their members. */
  lemma {:induction false} AscendingDetermined(a: seq<int>, b: seq<int>)
    requires Ascending(a) && Ascending(b) && forall t :: t in a <==> t in b
    ensures a == b
  {
    assert (a != [] ==> a[0] in a && a[0] in b) && (b != [] ==> b[0] in b && b[0] in a);
    if a != [] {
      TailWithin(a, b);
      TailWithin(b, a);
      AscendingDetermined(a[1..], b[1..]);
      assert a == [a[0]] + a[1..] && b == [b[0]] + b[1..];
    }
  }

  lemma {:induction false} TailWithin(a: seq<int>, b: seq<int>)
    requires Ascending(a) && a != [] && b != [] && a[0] == b[0] && forall t :: t in a ==> t in b
    ensures forall t :: t in a[1..] ==> t in b[1..]
  {
    forall t | t in a[1..] ensures t in b[1..] {
      var i :| 0 < i < |a| && a[i] == t;
      assert t in b && t != b[0];
    }
  }

  lemma {:induction false} AscendingJoin(a: seq<int>, b: seq<int>)
    requires Ascending(a) && Ascending(b) && forall x, y :: x in a && y in b ==> x < y
    ensures Ascending(a + b)
  {
    forall i, j | 0 <= i < j < |a + b| ensures (a + b)[i] < (a + b)[j] {
      if i < |a| <= j { assert a[i] in a && b[j - |a|] in b; }
    }
  }

  // ----- the minutes of a calendar's sessions -----

  /** The minutes of a day's session. */
  predicate MinuteOf(d: CalendarDay, t: int) {
    d.status == EXPECTED_SESSION && d.sessions != [] &&
    Combine(d.date, d.sessions[0].open) <= t < Combine(d.date, d.sessions[0].close)
  }

  predicate Listed(days: seq<CalendarDay>, t: int) {
    DayOf(days, DateOf(t)).Some? && MinuteOf(DayOf(days, DateOf(t)).value, t)
  }

  lemma {:induction false} MinuteDated(d: CalendarDay, t: int)
    requires d.Valid() && MinuteOf(d, t)
    ensures DateOf(t) == d.date
  {
    assert d.sessions[0] in d.sessions;
    SameDate(d.date, t - Combine(d.date, 0));
  }

  predicate InDays(days: seq<CalendarDay>, t: int) { exists i :: 0 <= i < |days| && MinuteOf(days[i], t) }

  lemma {:induction false} InDaysOpens(days: seq<CalendarDay>, t: int)
    requires days != []
    ensures InDays(days, t) <==> InDays(days[..|days| - 1], t) || MinuteOf(days[|days| - 1], t)
  {
    var front := days[..|days| - 1];
    if InDays(days, t) && !MinuteOf(days[|days| - 1], t) {
      var i :| 0 <= i < |days| && MinuteOf(days[i], t);
      assert MinuteOf(front[i], t);
    }
    if InDays(front, t) {
      var i :| 0 <= i < |front| && MinuteOf(front[i], t);
      assert MinuteOf(days[i], t);
    }
  }

  lemma {:induction false} MinutesOpens(days: seq<CalendarDay>, first: int, last: int)
    requires days != []
    ensures Minutes(EngineDays(days), first, last) ==
      Minutes(EngineDays(days[..|days| - 1]), first, last) + DayMinutes(days[|days| - 1], first, last)
  {
    assert EngineDays(days)[..|days| - 1] == EngineDays(days[..|days| - 1]);
  }

  lemma {:induction false} FrontValid(days: seq<CalendarDay>)
    requires ValidCalendar(days) && days != []
    ensures ValidCalendar(days[..|days| - 1]) && days[|days| - 1].Valid()
  {
    hide CalendarDay.Valid;
    assert days[|days| - 1] in days;
  }

  /** The calendar's minutes between two dates are those of its sessions dated there, in order. */
  lemma {:induction false} MinutesExactly(days: seq<CalendarDay>, first: int, last: int)
    requires ValidCalendar(days)
    ensures
      var ts := Minutes(EngineDays(days), first, last);
      && Ascending(ts) && forall t :: t in ts <==> first <= DateOf(t) <= last && InDays(days, t)
  {
    if days != [] {
      hide *;
      var front, d := days[..|days| - 1], days[|days| - 1];
      FrontValid(days);
      MinutesExactly(front, first, last);
      MinutesOpens(days, first, last);
      DayMinutesExactly(d, first, last);
      var before, mine := Minutes(EngineDays(front), first, last), DayMinutes(d, first, last);
      forall x, y | x in before && y in mine ensures x < y { EarlierDay(days, x, y); }
      AscendingJoin(before, mine);
      forall t ensures t in before + mine <==> first <= DateOf(t) <= last && InDays(days, t) { InDaysOpens(days, t); }
    }
  }

  function DayMinutes(d: CalendarDay, first: int, last: int): seq<int> {
    var e := EngineDay(d);
    if e.Trading? && first <= e.date <= last && e.open < e.close then Session(e, e.close - e.open) else []
  }

  lemma {:induction false} DayMinutesExactly(d: CalendarDay, first: int, last: int)
    requires d.Valid()
    ensures Ascending(DayMinutes(d, first, last))
    ensures forall t :: t in DayMinutes(d, first, last) <==> first <= DateOf(t) <= last && MinuteOf(d, t)
  {
    var ts := DayMinutes(d, first, last);
    if d.sessions != [] { assert d.sessions[0] in d.sessions; }
    forall t ensures t in ts <==> first <= DateOf(t) <= last && MinuteOf(d, t) {
      if MinuteOf(d, t) {
        MinuteDated(d, t);
        if first <= DateOf(t) <= last { assert ts[t - Combine(d.date, d.sessions[0].open)] == t; }
      }
      if t in ts {
        var i :| 0 <= i < |ts| && ts[i] == t;
        assert t == Combine(d.date, d.sessions[0].open + i);
        assert MinuteOf(d, t);
      }
    }
  }

  lemma {:induction false} EarlierDay(days: seq<CalendarDay>, x: int, y: int)
    requires ValidCalendar(days) && days != [] && MinuteOf(days[|days| - 1], y) && InDays(days[..|days| - 1], x)
    ensures x < y
  {
    var i :| 0 <= i < |days| - 1 && MinuteOf(days[..|days| - 1][i], x);
    assert days[i] in days && days[|days| - 1] in days;
    MinuteDated(days[i], x);
    MinuteDated(days[|days| - 1], y);
    if y <= x { DatesOrdered(y, x); }
  }

  lemma {:induction false} ListedExactly(days: seq<CalendarDay>, t: int)
    requires ValidCalendar(days)
    ensures Listed(days, t) <==> InDays(days, t)
  {
    if InDays(days, t) {
      var i :| 0 <= i < |days| && MinuteOf(days[i], t);
      assert days[i] in days;
      MinuteDated(days[i], t);
      DayFound(days, i);
    }
    if Listed(days, t) {
      DayListed(days, DateOf(t));
      var i :| 0 <= i < |days| && days[i] == DayOf(days, DateOf(t)).value;
    }
  }

  // ----- the minutes a dataset owes -----

  lemma {:induction false} OwedExactly(s: Shard, date: int)
    requires ValidCalendar(s.days) && Owed(s, date).Ok?
    ensures Ascending(Owed(s, date).value)
    ensures forall t :: t in Owed(s, date).value <==> DateOf(t) == date && Listed(s.days, t)
  {
    DayListed(s.days, date);
    var ts := Owed(s, date).value;
    assert DayOf(s.days, date).value.Valid();
    forall t ensures t in ts <==> DateOf(t) == date && Listed(s.days, t) {
      if t in ts {
        OwedPlaced(s, date, t);
        var i :| 0 <= i < |ts| && ts[i] == t;
      }
      if DateOf(t) == date && Listed(s.days, t) {
        assert ts[t - Combine(date, DayOf(s.days, date).value.sessions[0].open)] == t;
      }
    }
  }

  lemma {:induction false} OwedToExactly(s: Shard, n: nat)
    requires ValidCalendar(s.days) && OwedTo(s, n).Ok?
    ensures Ascending(OwedTo(s, n).value)
    ensures forall t :: t in OwedTo(s, n).value <==> s.First() <= DateOf(t) < s.First() + n && Listed(s.days, t)
  {
    hide Owed, Listed, ValidCalendar;
    if n > 0 {
      OwedToExactly(s, n - 1);
      var date := s.First() + n - 1;
      OwedExactly(s, date);
      var before, here := OwedTo(s, n - 1).value, Owed(s, date).value;
      forall x, y | x in before && y in here ensures x < y { if y <= x { DatesOrdered(y, x); } }
      AscendingJoin(before, here);
      assert forall t :: t in before + here <==> t in before || t in here;
    }
  }

  /** A valid dataset's bars start at the listed minutes of its window, in order. */
  lemma {:induction false} StartsExactly(s: Shard)
    requires ValidCalendar(s.days) && ShardError(s).None?
    ensures Ascending(Starts(s.bars))
    ensures forall t :: t in Starts(s.bars) <==> s.First() <= DateOf(t) <= s.Last() && Listed(s.days, t)
  {
    DatesOrdered(s.from, s.to - 1);
    OwedToExactly(s, Dates(s.First(), s.Last()));
    hide OwedTo, Listed, ValidCalendar, Starts;
  }

  // ----- results -----

  predicate PricedBars(bars: seq<Bar>) { forall i :: 0 <= i < |bars| ==> Priced(bars[i]) }

  predicate Priced(b: Bar) {
    0.0 < b.low && b.low <= b.open && b.low <= b.close && b.open <= b.high && b.close <= b.high && 0 <= b.volume
  }

  function DatasetMarket(s: Shard, lotSize: int): Market {
    Market(lotSize, EngineDays(s.days), s.First(), s.Last(), s.bars, false)
  }

  function CorpusMarket(c: Corpus, lotSize: int): Market {
    Market(lotSize, EngineDays(Joined(c.calendars)), c.First(), c.Last(), BarsOf(c.shards), true)
  }

  /** Bars at exactly the minutes of the calendar's sessions make complete market data. */
  lemma {:induction false} CompleteMarket(lotSize: int, days: seq<CalendarDay>, first: int, last: int, bars: seq<Bar>, view: bool)
    requires 1 <= lotSize && ValidCalendar(days) && PricedBars(bars) && bars != []
    requires Ascending(Starts(bars))
    requires forall t :: t in Starts(bars) <==> first <= DateOf(t) <= last && Listed(days, t)
    ensures Market(lotSize, EngineDays(days), first, last, bars, view).Valid()
  {
    MinutesExactly(days, first, last);
    forall t ensures t in Starts(bars) <==> t in Minutes(EngineDays(days), first, last) { ListedExactly(days, t); }
    AscendingDetermined(Starts(bars), Minutes(EngineDays(days), first, last));
    EngineDaysValid(days);
    assert |bars| == |Starts(bars)|;
    forall i | 0 <= i < |bars| ensures bars[i].start == Minutes(EngineDays(days), first, last)[i] { assert Starts(bars)[i] == bars[i].start; }
    forall b | b in bars ensures b.Valid() { assert Priced(b); }
    hide Minutes, EngineDays, Listed, ValidCalendar, Starts;
  }

  lemma {:induction false} EngineDaysValid(days: seq<CalendarDay>)
    requires ValidCalendar(days)
    ensures forall d :: d in EngineDays(days) ==> d.Valid()
    ensures forall i, j :: 0 <= i < j < |days| ==> EngineDays(days)[i].date < EngineDays(days)[j].date
  {
    forall d | d in EngineDays(days) ensures d.Valid() {
      var i :| 0 <= i < |days| && EngineDays(days)[i] == d;
      assert days[i] in days && days[i].Valid();
      if days[i].sessions != [] { assert days[i].sessions[0] in days[i].sessions; }
    }
  }

  /** A valid dataset is complete market data for the engine. */
  lemma {:induction false} DatasetFeedsEngine(s: Shard, lotSize: int)
    requires ValidCalendar(s.days) && ShardError(s).None? && PricedBars(s.bars) && 1 <= lotSize
    ensures DatasetMarket(s, lotSize).Valid()
  {
    StartsExactly(s);
    assert s.bars != [];
    hide *;
    CompleteMarket(lotSize, s.days, s.First(), s.Last(), s.bars, false);
  }

  lemma {:induction false} CorpusStarts(c: Corpus, k: nat)
    requires c.Typed() && k <= |c.shards| && Passed(c, k)
    ensures Ascending(Starts(BarsOf(c.shards[..k])))
    ensures forall t :: t in Starts(BarsOf(c.shards[..k])) <==> exists j :: 0 <= j < k && StartsAt(c.shards[j], t)
    ensures forall t :: t in Starts(BarsOf(c.shards[..k])) ==> k > 0 && t < c.shards[k - 1].to
  {
    hide StartsAt, ShardError, ShardsTo, ValidCalendar;
    if k > 0 {
      var s, before := c.shards[k - 1], c.shards[..k - 1];
      assert s in c.shards && c.shards[..k][..k - 1] == before;
      PassedBefore(c, k);
      CorpusStarts(c, k - 1);
      ShardStarts(s);
      hide Passed;
      assert Starts(BarsOf(c.shards[..k])) == Starts(BarsOf(before)) + Starts(s.bars);
      hide BarsOf, Starts;
      AscendingJoin(Starts(BarsOf(before)), Starts(s.bars));
    }
  }

  lemma {:induction false} PassedBefore(c: Corpus, k: nat)
    requires 0 < k <= |c.shards| && Passed(c, k)
    ensures Passed(c, k - 1) && ShardError(c.shards[k - 1]).None?
    ensures c.shards[k - 1].from < c.shards[k - 1].to
    ensures k > 1 ==> c.shards[k - 2].to <= c.shards[k - 1].from
  {
    hide Seeing;
    ShardWindow(c.shards[k - 1]);
    hide ShardError;
    if k > 1 { ShardsOrdered(c, k - 1); }
  }

  /** A bar of a dataset starts at a minute. */
  predicate StartsAt(s: Shard, t: int) { t in Starts(s.bars) }

  lemma {:induction false} ShardStarts(s: Shard)
    requires ValidCalendar(s.days) && ShardError(s).None?
    ensures Ascending(Starts(s.bars))
    ensures forall t :: t in Starts(s.bars) <==> StartsAt(s, t)
    ensures forall t :: t in Starts(s.bars) ==> s.from <= t < s.to
  {
    StartsExactly(s);
    forall t | t in Starts(s.bars) ensures s.from <= t < s.to {
      var i :| 0 <= i < |Starts(s.bars)| && Starts(s.bars)[i] == t;
      BarsPlaced(s, i);
    }
  }

  /** A minute is in some shard exactly when the corpus's own calendar lists it in range. */
  lemma {:induction false} ShardMinutes(c: Corpus, t: int)
    requires c.Typed() && Sound(c)
    ensures (exists j :: 0 <= j < |c.shards| && StartsAt(c.shards[j], t)) <==>
      c.First() <= DateOf(t) <= c.Last() && Listed(Joined(c.calendars), t)
  {
    if exists j :: 0 <= j < |c.shards| && StartsAt(c.shards[j], t) {
      var j :| 0 <= j < |c.shards| && StartsAt(c.shards[j], t);
      MinuteExpected(c, j, t);
    }
    if c.First() <= DateOf(t) <= c.Last() && Listed(Joined(c.calendars), t) { MinuteHeld(c, t); }
  }

  lemma {:induction false} ExpectedDay(days: seq<CalendarDay>, first: int, last: int, date: int)
    requires CoversDates(days, first, last)
    ensures date in Expected(days) <==> DayOf(days, date).Some? && DayOf(days, date).value.status == EXPECTED_SESSION
    ensures date in Expected(days) ==> DayOf(days, date) == Some(Expected(days)[date])
  {
    AscendsWhenCovering(days, first, last);
    ExpectedHas(days, date);
    DayListed(days, date);
    if DayOf(days, date).Some? { var i :| 0 <= i < |days| && days[i] == DayOf(days, date).value; }
    if date in Expected(days) {
      var i :| 0 <= i < |days| && days[i].date == date && days[i].status == EXPECTED_SESSION;
      DayFound(days, i);
    }
  }

  lemma {:induction false} MinuteExpected(c: Corpus, j: nat, t: int)
    requires c.Typed() && Sound(c) && j < |c.shards| && StartsAt(c.shards[j], t)
    ensures c.First() <= DateOf(t) <= c.Last() && Listed(Joined(c.calendars), t)
  {
    hide ShardError, ShardsTo, ValidCalendar, Joined, Expected, DayOf;
    var s, days, date := c.shards[j], Joined(c.calendars), DateOf(t);
    assert s in c.shards;
    StartsExactly(s);
    ShardStarts(s);
    var i :| 0 <= i < |Starts(s.bars)| && Starts(s.bars)[i] == t;
    assert DateOf(s.bars[i].start) == date;
    assert Active(s, date);
    ExpectedDay(days, c.First(), c.Last(), date);
    assert Shows(s, date, Expected(days)[date]);
    DatesOrdered(c.from, t);
    DatesOrdered(t, c.to - 1);
  }

  lemma {:induction false} MinuteHeld(c: Corpus, t: int)
    requires c.Typed() && Sound(c) && c.First() <= DateOf(t) <= c.Last() && Listed(Joined(c.calendars), t)
    ensures exists j :: 0 <= j < |c.shards| && StartsAt(c.shards[j], t)
  {
    hide ShardError, ShardsTo, ValidCalendar, Joined, Expected, DayOf;
    var days, date := Joined(c.calendars), DateOf(t);
    ExpectedDay(days, c.First(), c.Last(), date);
    var j :| 0 <= j < |c.shards| && Shows(c.shards[j], date, Expected(days)[date]);
    var s := c.shards[j];
    assert s in c.shards;
    ActiveListed(s, date);
    StartsExactly(s);
    assert StartsAt(s, t);
  }

  /** A valid corpus is complete market data for the engine. */
  lemma {:induction false} CorpusFeedsEngine(c: Corpus, lotSize: int)
    requires c.Typed() && CorpusError(c).None? && PricedBars(BarsOf(c.shards)) && 1 <= lotSize
    ensures CorpusMarket(c, lotSize).Valid()
  {
    hide *;
    ValidIsSound(c);
    CorpusCalendarValid(c);
    var bars := BarsOf(c.shards);
    SoundPassed(c);
    CorpusStarts(c, |c.shards|);
    assert c.shards[..|c.shards|] == c.shards;
    forall t ensures t in Starts(bars) <==> c.First() <= DateOf(t) <= c.Last() && Listed(Joined(c.calendars), t) {
      ShardMinutes(c, t);
    }
    SomeBars(c);
    CompleteMarket(lotSize, Joined(c.calendars), c.First(), c.Last(), bars, true);
    CorpusMarketIs(c, lotSize);
  }

  lemma {:induction false} CorpusMarketIs(c: Corpus, lotSize: int)
    ensures CorpusMarket(c, lotSize) == Market(lotSize, EngineDays(Joined(c.calendars)), c.First(), c.Last(), BarsOf(c.shards), true)
  {
  }

  lemma {:induction false} SoundPassed(c: Corpus)
    requires Sound(c)
    ensures Passed(c, |c.shards|)
  {
    hide Passed, SeenBy, CoversDates;
  }

  lemma {:induction false} SomeBars(c: Corpus)
    requires c.Typed() && CorpusError(c).None?
    ensures BarsOf(c.shards) != []
  {
    var n := |c.shards| - 1;
    ShardsOrdered(c, |c.shards|);
    hide ShardsTo, Expected, CoversDates, Joined;
    assert ShardError(c.shards[n]).None?;
    hide OwedTo;
  }

  lemma {:induction false} CorpusCalendarValid(c: Corpus)
    requires c.Typed() && CorpusError(c).None?
    ensures ValidCalendar(Joined(c.calendars))
  {
    hide ShardsTo, Expected, BarsOf;
    AscendsWhenCovering(Joined(c.calendars), c.First(), c.Last());
    JoinedValid(c.calendars);
  }

  lemma {:induction false} JoinedValid(calendars: seq<seq<CalendarDay>>)
    requires forall c :: c in calendars ==> ValidCalendar(c)
    ensures forall d :: d in Joined(calendars) ==> d.Valid()
  {
    if calendars != [] {
      JoinedValid(calendars[..|calendars| - 1]);
      assert ValidCalendar(calendars[|calendars| - 1]);
    }
  }

  /** On every validated dataset or corpus, for every configuration and callback, the engine's ledger and
      overnight guards never fire. */
  lemma {:induction false} GuardsUnreachableOnValidData(s: Shard, c: Corpus, lotSize: int, config: Config, callback: Strategy)
    requires config.Valid() && 1 <= lotSize
    ensures ValidCalendar(s.days) && ShardError(s).None? && PricedBars(s.bars) ==>
      DatasetMarket(s, lotSize).Valid() &&
      (Ran(DatasetMarket(s, lotSize), config, callback).Err? ==> Ran(DatasetMarket(s, lotSize), config, callback).error in BacktestLaws.POSSIBLE)
    ensures c.Typed() && CorpusError(c).None? && PricedBars(BarsOf(c.shards)) ==>
      CorpusMarket(c, lotSize).Valid() &&
      (Ran(CorpusMarket(c, lotSize), config, callback).Err? ==> Ran(CorpusMarket(c, lotSize), config, callback).error in BacktestLaws.POSSIBLE)
  {
    hide *;
    if ValidCalendar(s.days) && ShardError(s).None? && PricedBars(s.bars) {
      DatasetFeedsEngine(s, lotSize);
      BacktestLaws.GuardsAreUnreachable(DatasetMarket(s, lotSize), config, callback);
    }
    if c.Typed() && CorpusError(c).None? && PricedBars(BarsOf(c.shards)) {
      CorpusFeedsEngine(c, lotSize);
      BacktestLaws.GuardsAreUnreachable(CorpusMarket(c, lotSize), config, callback);
    }
  }
}
