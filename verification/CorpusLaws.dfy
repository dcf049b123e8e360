/** No slice of a valid corpus is a silent subset. */
module CorpusLaws {
  import opened Wrappers
  import opened Clock
  import opened Backtest
  import opened Corpora

  // ----- a valid dataset's bars -----

  /** A minute owed by a dataset: inside its window, on an expected day its calendar holds. */
  ghost predicate Placed(s: Shard, t: int) {
    && s.from <= t < s.to
    && DayOf(s.days, DateOf(t)).Some? && DayOf(s.days, DateOf(t)).value.status == EXPECTED_SESSION
  }

  lemma {:induction false} DayListed(days: seq<CalendarDay>, date: int)
    ensures DayOf(days, date).Some? ==> DayOf(days, date).value in days && DayOf(days, date).value.date == date
  {
    if days != [] && days[|days| - 1].date != date { DayListed(days[..|days| - 1], date); }
  }

  lemma {:induction false} SameDate(date: int, time: int)
    requires 0 <= time < MINUTES_PER_DAY
    ensures DateOf(Combine(date, time)) == date
  {
  }

  lemma {:induction false} OwedPlaced(s: Shard, date: int, t: int)
    requires ValidCalendar(s.days) && Owed(s, date).Ok? && t in Owed(s, date).value
    ensures Placed(s, t) && DateOf(t) == date
  {
    DayListed(s.days, date);
    var day := DayOf(s.days, date).value;
    var h := day.sessions[0];
    assert day.Valid() && h in day.sessions;
    var i :| 0 <= i < |Owed(s, date).value| && Owed(s, date).value[i] == t;
    SameDate(date, h.open + i);
    assert t == Combine(date, h.open + i);
  }

  lemma {:induction false} OwedToPlaced(s: Shard, n: nat, t: int)
    requires ValidCalendar(s.days) && OwedTo(s, n).Ok? && t in OwedTo(s, n).value
    ensures Placed(s, t)
  {
    hide Owed, Placed;
    var before := OwedTo(s, n - 1).value;
    if t in before { OwedToPlaced(s, n - 1, t); } else { OwedPlaced(s, s.First() + n - 1, t); }
  }

  /** Every bar of a valid dataset is inside its window, on an expected day of its calendar. */
  lemma {:induction false} BarsPlaced(s: Shard, i: nat)
    requires ValidCalendar(s.days) && ShardError(s).None? && i < |s.bars|
    ensures Placed(s, s.bars[i].start)
  {
    hide Owed, OwedTo, Placed;
    var owed := OwedTo(s, Dates(s.First(), s.Last()));
    assert owed.value[i] == s.bars[i].start;
    OwedToPlaced(s, Dates(s.First(), s.Last()), s.bars[i].start);
  }

  lemma {:induction false} ActiveListed(s: Shard, date: int)
    requires ValidCalendar(s.days) && ShardError(s).None? && Active(s, date)
    ensures DayOf(s.days, date).Some? && DayOf(s.days, date).value.status == EXPECTED_SESSION
    ensures s.First() <= date <= s.Last()
  {
    var i :| 0 <= i < |s.bars| && DateOf(s.bars[i].start) == date;
    BarsPlaced(s, i);
    hide ShardError;
  }

  // ----- what the loop over shards has seen -----

  lemma {:induction false} DayFound(days: seq<CalendarDay>, i: nat)
    requires i < |days| && forall j, k :: 0 <= j < k < |days| ==> days[j].date < days[k].date
    ensures DayOf(days, days[i].date) == Some(days[i])
  {
    if i < |days| - 1 { DayFound(days[..|days| - 1], i); }
  }

  /** The active ones among a shard's first n days are new, and added. */
  ghost predicate Added(s: Shard, seen: Seen, n: nat, more: Seen)
    requires n <= |s.days|
  {
    && (forall date :: date in seen ==> date in more && more[date] == seen[date])
    && (forall date :: date in more && date !in seen ==> Active(s, date) && DayOf(s.days, date) == Some(more[date]))
    && (forall m :: 0 <= m < n && Active(s, s.days[m].date) ==> s.days[m].date !in seen && s.days[m].date in more)
  }

  lemma {:induction false} SeeingAdds(s: Shard, seen: Seen, n: nat)
    requires ValidCalendar(s.days) && n <= |s.days| && Seeing(s, seen, n).Ok?
    ensures Added(s, seen, n, Seeing(s, seen, n).value)
  {
    hide Active, DayOf;
    if n > 0 {
      SeeingAdds(s, seen, n - 1);
      DayFound(s.days, n - 1);
    }
  }

  /** The days seen after k shards are those active in one of them, and in one only. */
  ghost predicate SeenBy(c: Corpus, k: nat, seen: Seen)
    requires k <= |c.shards|
  {
    && (forall date :: date in seen ==> exists j :: 0 <= j < k && Shows(c.shards[j], date, seen[date]))
    && (forall j, date :: 0 <= j < k && Active(c.shards[j], date) ==> date in seen && Shows(c.shards[j], date, seen[date]))
    && (forall i, j, date :: 0 <= i < j < k && Active(c.shards[i], date) ==> !Active(c.shards[j], date))
  }

  ghost predicate Shows(s: Shard, date: int, day: CalendarDay) {
    Active(s, date) && DayOf(s.days, date) == Some(day)
  }

  lemma {:induction false} AddedShows(s: Shard, seen: Seen, more: Seen, date: int)
    requires ValidCalendar(s.days) && ShardError(s).None? && Added(s, seen, |s.days|, more) && Active(s, date)
    ensures date !in seen && date in more && Shows(s, date, more[date])
  {
    hide ShardError, Active;
    ActiveListed(s, date);
    DayListed(s.days, date);
    var m :| 0 <= m < |s.days| && s.days[m] == DayOf(s.days, date).value;
    assert s.days[m].date == date;
  }

  lemma {:induction false} SeenNext(c: Corpus, k: nat, seen: Seen, more: Seen)
    requires k < |c.shards| && SeenBy(c, k, seen)
    requires ValidCalendar(c.shards[k].days) && ShardError(c.shards[k]).None? && Added(c.shards[k], seen, |c.shards[k].days|, more)
    ensures SeenBy(c, k + 1, more)
  {
    hide ShardError, Active, DayOf, ValidCalendar;
    var s := c.shards[k];
    forall date | date in more ensures exists j :: 0 <= j < k + 1 && Shows(c.shards[j], date, more[date]) {
      if date in seen {
        var j :| 0 <= j < k && Shows(c.shards[j], date, seen[date]);
      } else {
        assert Shows(c.shards[k], date, more[date]);
      }
    }
    forall j, date | 0 <= j < k + 1 && Active(c.shards[j], date)
      ensures date in more && Shows(c.shards[j], date, more[date])
    {
      if j == k { AddedShows(s, seen, more, date); }
    }
    forall i, j, date | 0 <= i < j < k + 1 && Active(c.shards[i], date) ensures !Active(c.shards[j], date) {
      if j == k && Active(s, date) { AddedShows(s, seen, more, date); assert false; }
    }
  }

  /** What holds of the first k shards once they have passed. */
  ghost predicate Passed(c: Corpus, k: nat)
    requires k <= |c.shards|
  {
    && (forall j :: 0 <= j < k ==> ShardError(c.shards[j]).None? && c.shards[j].identity == c.shards[0].identity)
    && (forall j :: 0 <= j < k ==> c.from <= c.shards[j].from && c.shards[j].to <= c.to)
    && (forall i, j :: 0 <= i < j < k ==> c.shards[i].to <= c.shards[j].from)
    && (k > 0 ==> ShardsTo(c, k).Ok? && ShardsTo(c, k).value.0 == c.shards[k - 1].to)
  }

  lemma {:induction false} ShardsSeen(c: Corpus, k: nat)
    requires c.Typed() && k <= |c.shards| && ShardsTo(c, k).Ok?
    ensures SeenBy(c, k, ShardsTo(c, k).value.1)
  {
    hide Active, ShardError, Seeing, SeenBy, Added, ValidCalendar;
    if k == 0 {
      NothingSeen(c);
    } else {
      ShardsSeen(c, k - 1);
      var s, seen := c.shards[k - 1], ShardsTo(c, k - 1).value.1;
      assert s in c.shards;
      SeeingAdds(s, seen, |s.days|);
      SeenNext(c, k - 1, seen, Seeing(s, seen, |s.days|).value);
    }
  }

  lemma {:induction false} NothingSeen(c: Corpus)
    ensures SeenBy(c, 0, map[])
  {
  }

  lemma {:induction false} ShardsOrdered(c: Corpus, k: nat)
    requires k <= |c.shards| && ShardsTo(c, k).Ok?
    ensures Passed(c, k)
    ensures k == 0 ==> ShardsTo(c, k).value.0 == c.from
  {
    hide Seeing, ShardError;
    if k > 0 {
      ShardsOrdered(c, k - 1);
      ShardsOpen(c, k);
      hide ShardsTo;
      ShardWindow(c.shards[k - 1]);
      if k > 1 {
        ShardWindow(c.shards[k - 2]);
        assert forall i :: 0 <= i < k - 2 ==> c.shards[i].to <= c.shards[k - 2].from;
      }
    }
  }

  lemma {:induction false} ShardsOpen(c: Corpus, k: nat)
    requires 0 < k <= |c.shards| && ShardsTo(c, k).Ok?
    ensures ShardsTo(c, k - 1).Ok? && ShardError(c.shards[k - 1]).None? && c.shards[k - 1].identity == c.shards[0].identity
    ensures ShardsTo(c, k - 1).value.0 <= c.shards[k - 1].from && c.shards[k - 1].to <= c.to
    ensures ShardsTo(c, k).value.0 == c.shards[k - 1].to
  {
    hide Seeing, ShardError;
  }

  lemma {:induction false} ShardWindow(s: Shard)
    ensures ShardError(s).None? ==> s.from < s.to
  {
    hide OwedTo;
  }

  // ----- calendars -----

  lemma {:induction false} ExpectedHas(days: seq<CalendarDay>, date: int)
    requires forall i, j :: 0 <= i < j < |days| ==> days[i].date < days[j].date
    ensures date in Expected(days) <==> exists i :: 0 <= i < |days| && days[i].date == date && days[i].status == EXPECTED_SESSION
    ensures forall i :: 0 <= i < |days| && days[i].date == date && days[i].status == EXPECTED_SESSION ==> Expected(days)[date] == days[i]
  {
    if days != [] { ExpectedHas(days[..|days| - 1], date); }
  }

  lemma {:induction false} WithinHas(days: seq<CalendarDay>, first: int, last: int)
    requires forall i, j :: 0 <= i < j < |days| ==> days[i].date < days[j].date
    ensures
      var r := Within(days, first, last);
      && (forall i, j :: 0 <= i < j < |r| ==> r[i].date < r[j].date)
      && (forall d :: d in r <==> d in days && first <= d.date <= last)
  {
    if days != [] {
      var front := days[..|days| - 1];
      WithinHas(front, first, last);
      assert days == front + [days[|days| - 1]];
      var r := Within(front, first, last);
      forall i | 0 <= i < |r| ensures r[i].date < days[|days| - 1].date {
        assert r[i] in front;
      }
    }
  }

  lemma {:induction false} WithinJoin(a: seq<CalendarDay>, b: seq<CalendarDay>, first: int, last: int)
    ensures Within(a + b, first, last) == Within(a, first, last) + Within(b, first, last)
  {
    if b == [] {
      assert a + b == a;
    } else {
      assert (a + b)[..|a + b| - 1] == a + b[..|b| - 1];
      WithinJoin(a, b[..|b| - 1], first, last);
    }
  }

  /** Narrowing calendar by calendar narrows the whole. */
  lemma {:induction false} NarrowedJoins(calendars: seq<seq<CalendarDay>>, first: int, last: int)
    ensures Joined(Narrowed(calendars, first, last)) == Within(Joined(calendars), first, last)
  {
    if calendars != [] {
      var front, here := calendars[..|calendars| - 1], calendars[|calendars| - 1];
      NarrowedJoins(front, first, last);
      WithinJoin(Joined(front), here, first, last);
      var before, part := Narrowed(front, first, last), Within(here, first, last);
      if part != [] {
        assert (before + [part])[..|before|] == before;
      } else {
        assert Within(Joined(front), first, last) + [] == Within(Joined(front), first, last);
      }
    }
  }

  lemma {:induction false} AscendsWhenCovering(days: seq<CalendarDay>, first: int, last: int)
    requires CoversDates(days, first, last)
    ensures forall i, j :: 0 <= i < j < |days| ==> days[i].date < days[j].date
  {
  }

  /** The sessions expected in a range are those expected of the whole that lie in it. */
  lemma {:induction false} ExpectedWithin(days: seq<CalendarDay>, first: int, last: int, date: int)
    requires forall i, j :: 0 <= i < j < |days| ==> days[i].date < days[j].date
    ensures date in Expected(Within(days, first, last)) <==> date in Expected(days) && first <= date <= last
    ensures date in Expected(Within(days, first, last)) ==> Expected(Within(days, first, last))[date] == Expected(days)[date]
  {
    var r := Within(days, first, last);
    WithinHas(days, first, last);
    ExpectedHas(days, date);
    ExpectedHas(r, date);
    hide Within, Expected;
    if date in Expected(r) {
      var i :| 0 <= i < |r| && r[i].date == date && r[i].status == EXPECTED_SESSION;
      assert r[i] in days;
    }
    if date in Expected(days) && first <= date <= last {
      var i :| 0 <= i < |days| && days[i].date == date && days[i].status == EXPECTED_SESSION;
      assert days[i] in r;
    }
  }

  // ----- shards and bars of a slice -----

  lemma {:induction false} KeptHas(shards: seq<Shard>, start: int, end: int)
    ensures forall s :: s in Kept(shards, start, end) <==> s in shards && Inside(s, start, end)
  {
    if shards != [] {
      KeptHas(shards[..|shards| - 1], start, end);
      assert shards == shards[..|shards| - 1] + [shards[|shards| - 1]];
    }
  }

  lemma {:induction false} InRangeJoin(a: seq<Bar>, b: seq<Bar>, start: int, end: int)
    ensures InRange(a + b, start, end) == InRange(a, start, end) + InRange(b, start, end)
  {
    if b == [] {
      assert a + b == a;
    } else {
      assert (a + b)[..|a + b| - 1] == a + b[..|b| - 1];
      InRangeJoin(a, b[..|b| - 1], start, end);
    }
  }

  lemma {:induction false} InRangeAll(bars: seq<Bar>, start: int, end: int)
    requires forall i :: 0 <= i < |bars| ==> start <= bars[i].start < end
    ensures InRange(bars, start, end) == bars
  {
    if bars != [] {
      InRangeAll(bars[..|bars| - 1], start, end);
      assert bars == bars[..|bars| - 1] + [bars[|bars| - 1]];
    }
  }

  lemma {:induction false} InRangeNone(bars: seq<Bar>, start: int, end: int)
    requires forall i :: 0 <= i < |bars| ==> !(start <= bars[i].start < end)
    ensures InRange(bars, start, end) == []
  {
    if bars != [] { InRangeNone(bars[..|bars| - 1], start, end); }
  }

  /** A shard is wholly in a range, or none of its bars is. */
  ghost predicate Whole(s: Shard, start: int, end: int) {
    && (Inside(s, start, end) ==> forall i :: 0 <= i < |s.bars| ==> start <= s.bars[i].start < end)
    && (!Inside(s, start, end) ==> forall i :: 0 <= i < |s.bars| ==> !(start <= s.bars[i].start < end))
  }

  lemma {:induction false} KeptBars(shards: seq<Shard>, start: int, end: int)
    requires forall s :: s in shards ==> Whole(s, start, end)
    ensures BarsOf(Kept(shards, start, end)) == InRange(BarsOf(shards), start, end)
  {
    if shards != [] {
      hide InRange, Whole;
      var front, s := shards[..|shards| - 1], shards[|shards| - 1];
      assert s in shards;
      KeptBars(front, start, end);
      InRangeJoin(BarsOf(front), s.bars, start, end);
      WholeBars(s, start, end);
      var before := Kept(front, start, end);
      if Inside(s, start, end) {
        assert (before + [s])[..|before|] == before;
      } else {
        assert InRange(BarsOf(front), start, end) + [] == InRange(BarsOf(front), start, end);
      }
    }
  }

  lemma {:induction false} WholeBars(s: Shard, start: int, end: int)
    requires Whole(s, start, end)
    ensures InRange(s.bars, start, end) == if Inside(s, start, end) then s.bars else []
  {
    if Inside(s, start, end) { InRangeAll(s.bars, start, end); } else { InRangeNone(s.bars, start, end); }
    hide InRange;
  }

  // ----- a valid corpus -----

  /** What validation establishes of a corpus. */
  ghost predicate Sound(c: Corpus) {
    && CoversDates(Joined(c.calendars), c.First(), c.Last())
    && Passed(c, |c.shards|)
    && SeenBy(c, |c.shards|, Expected(Joined(c.calendars)))
  }

  lemma {:induction false} ValidIsSound(c: Corpus)
    requires c.Typed() && CorpusError(c).None?
    ensures Sound(c)
  {
    ShardsSeen(c, |c.shards|);
    ShardsOrdered(c, |c.shards|);
    hide Joined, Expected, ShardsTo, SeenBy, Passed, CoversDates, BarsOf;
  }

  lemma {:induction false} CutTyped(c: Corpus, start: int, end: int)
    requires c.Typed()
    ensures Cut(c, start, end).Typed()
  {
    KeptHas(c.shards, start, end);
    NarrowedTyped(c.calendars, DateOf(start), DateOf(end - 1));
    hide Kept, Narrowed, ValidCalendar;
  }

  lemma {:induction false} NarrowedTyped(calendars: seq<seq<CalendarDay>>, first: int, last: int)
    requires forall c :: c in calendars ==> ValidCalendar(c)
    ensures forall c :: c in Narrowed(calendars, first, last) ==> ValidCalendar(c)
  {
    if calendars != [] {
      NarrowedTyped(calendars[..|calendars| - 1], first, last);
      assert ValidCalendar(calendars[|calendars| - 1]);
      WithinHas(calendars[|calendars| - 1], first, last);
    }
  }

  lemma {:induction false} InsideBars(c: Corpus, s: Shard, start: int, end: int)
    requires c.Typed() && s in c.shards && Sound(c) && Inside(s, start, end)
    ensures forall i :: 0 <= i < |s.bars| ==> start <= s.bars[i].start < end
  {
    forall i | 0 <= i < |s.bars| ensures start <= s.bars[i].start < end {
      BarsPlaced(s, i);
    }
  }

  /** If the slice is sound, a shard left out has no bar in its range: the day of such a bar would be
      expected, so seen in a kept shard, but it is active in one shard only. */
  lemma {:induction false} OutsideBars(c: Corpus, j: nat, start: int, end: int)
    requires c.Typed() && Sound(c) && Sound(Cut(c, start, end)) && j < |c.shards| && !Inside(c.shards[j], start, end)
    ensures forall i :: 0 <= i < |c.shards[j].bars| ==> !(start <= c.shards[j].bars[i].start < end)
  {
    var s, cut := c.shards[j], Cut(c, start, end);
    assert s in c.shards && ShardError(s).None?;
    forall i | 0 <= i < |s.bars| ensures !(start <= s.bars[i].start < end) {
      var t := s.bars[i].start;
      if start <= t < end {
        var date := DateOf(t);
        assert Active(s, date) && DateOf(start) <= date <= DateOf(end - 1);
        KeptShows(c, start, end, date, j);
        assert false;
      }
    }
  }

  lemma {:induction false} KeptShows(c: Corpus, start: int, end: int, date: int, j: nat)
    requires c.Typed() && Sound(c) && Sound(Cut(c, start, end)) && j < |c.shards| && Active(c.shards[j], date)
    requires DateOf(start) <= date <= DateOf(end - 1)
    ensures Inside(c.shards[j], start, end)
  {
    hide Active, Shows, Passed, Expected, Joined, Kept, Narrowed, Corpus.Typed, Within;
    var days, cut := Joined(c.calendars), Cut(c, start, end);
    NarrowedJoins(c.calendars, DateOf(start), DateOf(end - 1));
    AscendsWhenCovering(days, c.First(), c.Last());
    ExpectedWithin(days, DateOf(start), DateOf(end - 1), date);
    var seen := Expected(Joined(cut.calendars));
    assert date in seen;
    var n :| 0 <= n < |cut.shards| && Shows(cut.shards[n], date, seen[date]);
    ShownActive(cut.shards[n], date, seen[date]);
    KeptHas(c.shards, start, end);
    assert cut.shards[n] in c.shards;
    var m :| 0 <= m < |c.shards| && c.shards[m] == cut.shards[n];
    assert m == j;
  }

  lemma {:induction false} ShownActive(s: Shard, date: int, day: CalendarDay)
    requires Shows(s, date, day)
    ensures Active(s, date)
  {
  }

  // ----- results -----

  /** A slice that succeeds holds exactly the corpus's bars that start in its range, in order. */
  lemma {:induction false} NoSilentSubset(c: Corpus, start: int, end: int)
    requires c.Typed() && CorpusError(c).None? && Slice(c, start, end).Ok?
    ensures BarsOf(Slice(c, start, end).value.shards) == InRange(BarsOf(c.shards), start, end)
  {
    hide *;
    SliceOpens(c, start, end);
    var cut := Cut(c, start, end);
    ValidIsSound(c);
    CutTyped(c, start, end);
    ValidIsSound(cut);
    forall s | s in c.shards ensures Whole(s, start, end) {
      var j :| 0 <= j < |c.shards| && c.shards[j] == s;
      ShardWhole(c, j, start, end);
    }
    KeptBars(c.shards, start, end);
  }

  lemma {:induction false} SliceOpens(c: Corpus, start: int, end: int)
    requires Slice(c, start, end).Ok?
    ensures Slice(c, start, end).value == Cut(c, start, end) && CorpusError(Cut(c, start, end)).None?
    ensures Cut(c, start, end).shards == Kept(c.shards, start, end)
  {
    hide CorpusError;
  }

  lemma {:induction false} ShardWhole(c: Corpus, j: nat, start: int, end: int)
    requires c.Typed() && Sound(c) && Sound(Cut(c, start, end)) && j < |c.shards|
    ensures Whole(c.shards[j], start, end)
  {
    hide Sound, Corpus.Typed;
    assert c.shards[j] in c.shards;
    if Inside(c.shards[j], start, end) { InsideBars(c, c.shards[j], start, end); } else { OutsideBars(c, j, start, end); }
  }

  // ----- exactly when a slice succeeds -----

  /** Shards that can stand in one corpus: valid, alike, one after the other, no date active in two. */
  ghost predicate Compatible(shards: seq<Shard>, identity: string) {
    && (forall s :: s in shards ==> ValidCalendar(s.days) && ShardError(s).None? && s.identity == identity)
    && (forall i, j :: 0 <= i < j < |shards| ==> Follows(shards[i], shards[j]))
  }

  ghost predicate Follows(a: Shard, b: Shard) {
    a.to <= b.from && forall date :: Active(a, date) ==> !Active(b, date)
  }

  lemma {:induction false} SoundCompatible(c: Corpus)
    requires c.Typed() && Sound(c) && c.shards != []
    ensures Compatible(c.shards, c.shards[0].identity)
  {
    hide Active, ShardError, ValidCalendar, Joined, Expected, Shows, ShardsTo;
  }

  lemma {:induction false} KeptCompatible(shards: seq<Shard>, identity: string, start: int, end: int)
    requires Compatible(shards, identity)
    ensures Compatible(Kept(shards, start, end), identity)
  {
    hide Follows, ValidCalendar, ShardError;
    if shards != [] {
      var front, s := shards[..|shards| - 1], shards[|shards| - 1];
      KeptCompatible(front, identity, start, end);
      KeptHas(front, start, end);
      var before := Kept(front, start, end);
      assert s in shards;
      forall i | 0 <= i < |before| ensures Follows(before[i], s) {
        assert before[i] in front;
        var n :| 0 <= n < |front| && front[n] == before[i];
        assert Follows(shards[n], shards[|shards| - 1]);
      }
    }
  }

  lemma {:induction false} SeeingSucceeds(s: Shard, seen: Seen, n: nat)
    requires ValidCalendar(s.days) && n <= |s.days| && forall date :: date in seen ==> !Active(s, date)
    ensures Seeing(s, seen, n).Ok?
    ensures forall date :: date in Seeing(s, seen, n).value ==> date in seen || exists m :: 0 <= m < n && s.days[m].date == date
  {
    hide Active;
    if n > 0 {
      SeeingSucceeds(s, seen, n - 1);
      var before := Seeing(s, seen, n - 1).value;
      if Active(s, s.days[n - 1].date) { assert s.days[n - 1].date !in before; }
    }
  }

  lemma {:induction false} CompatibleShardsPass(c: Corpus, k: nat)
    requires c.Typed() && k <= |c.shards| && c.shards != [] && Compatible(c.shards, c.shards[0].identity)
    requires forall s :: s in c.shards ==> Inside(s, c.from, c.to)
    ensures ShardsTo(c, k).Ok? && ShardsTo(c, k).value.0 == if k == 0 then c.from else c.shards[k - 1].to
  {
    hide Seeing, ShardError, ValidCalendar, Shows, Active;
    if k > 0 {
      CompatibleShardsPass(c, k - 1);
      ShardsSeen(c, k - 1);
      var s, seen := c.shards[k - 1], ShardsTo(c, k - 1).value.1;
      assert s in c.shards;
      if k > 1 { assert Follows(c.shards[k - 2], s); }
      forall date | date in seen ensures !Active(s, date) {
        var j :| 0 <= j < k - 1 && Shows(c.shards[j], date, seen[date]);
        ShownActive(c.shards[j], date, seen[date]);
        assert Follows(c.shards[j], s);
      }
      SeeingSucceeds(s, seen, |s.days|);
    }
  }

  /** The part of a calendar of consecutive dates. */
  lemma {:induction false} WithinIsSlice(days: seq<CalendarDay>, base: int, first: int, last: int)
    requires forall i :: 0 <= i < |days| ==> days[i].date == base + i
    requires base <= first <= last
    ensures Within(days, first, last) ==
      if |days| <= first - base then [] else days[first - base..if |days| <= last - base then |days| else last - base + 1]
  {
    if days != [] {
      WithinIsSlice(days[..|days| - 1], base, first, last);
    }
  }

  lemma {:induction false} WithinCovers(days: seq<CalendarDay>, base: int, top: int, first: int, last: int)
    requires CoversDates(days, base, top) && base <= first <= last <= top
    ensures CoversDates(Within(days, first, last), first, last)
  {
    WithinIsSlice(days, base, first, last);
  }

  lemma {:induction false} NarrowedSize(calendars: seq<seq<CalendarDay>>, first: int, last: int)
    ensures |Narrowed(calendars, first, last)| <= |calendars|
  {
    if calendars != [] { NarrowedSize(calendars[..|calendars| - 1], first, last); }
  }

  lemma {:induction false} KeptSize(shards: seq<Shard>, start: int, end: int)
    ensures |Kept(shards, start, end)| <= |shards| && |BarsOf(Kept(shards, start, end))| <= |BarsOf(shards)|
  {
    if shards != [] {
      KeptSize(shards[..|shards| - 1], start, end);
      var before, s := Kept(shards[..|shards| - 1], start, end), shards[|shards| - 1];
      assert (before + [s])[..|before|] == before;
    }
  }

  /** Every shard with a session dated in the range lies in the range. */
  ghost predicate NoneCut(c: Corpus, start: int, end: int) {
    forall j, date :: 0 <= j < |c.shards| && DateOf(start) <= date <= DateOf(end - 1) && Active(c.shards[j], date) ==>
      Inside(c.shards[j], start, end)
  }

  /** What the kept shards show is what the narrowed calendar expects. */
  lemma {:induction false} SeenIsExpected(c: Corpus, start: int, end: int, seen: Seen)
    requires c.Typed() && Sound(c) && NoneCut(c, start, end)
    requires SeenBy(Cut(c, start, end), |Cut(c, start, end).shards|, seen)
    ensures seen == Expected(Joined(Cut(c, start, end).calendars))
  {
    hide Active, Shows, Passed, Expected, Joined, Kept, Narrowed, Within, Corpus.Typed;
    var days, cut := Joined(c.calendars), Cut(c, start, end);
    var whole, part := Expected(days), Expected(Joined(cut.calendars));
    NarrowedJoins(c.calendars, DateOf(start), DateOf(end - 1));
    AscendsWhenCovering(days, c.First(), c.Last());
    KeptHas(c.shards, start, end);
    forall date ensures date in seen <==> date in part {
      ExpectedWithin(days, DateOf(start), DateOf(end - 1), date);
      if date in seen { SeenExpected(c, start, end, seen, date); }
      if date in part { ExpectedSeen(c, start, end, seen, date); }
    }
    forall date | date in seen ensures seen[date] == part[date] {
      ExpectedWithin(days, DateOf(start), DateOf(end - 1), date);
      SeenExpected(c, start, end, seen, date);
    }
  }

  lemma {:induction false} SeenExpected(c: Corpus, start: int, end: int, seen: Seen, date: int)
    requires c.Typed() && Sound(c) && date in seen
    requires SeenBy(Cut(c, start, end), |Cut(c, start, end).shards|, seen)
    ensures DateOf(start) <= date <= DateOf(end - 1)
    ensures date in Expected(Joined(c.calendars)) && Expected(Joined(c.calendars))[date] == seen[date]
  {
    hide Active, Expected, Joined, Kept, Narrowed, ShardError, DayOf, ValidCalendar;
    var cut := Cut(c, start, end);
    var n :| 0 <= n < |cut.shards| && Shows(cut.shards[n], date, seen[date]);
    KeptHas(c.shards, start, end);
    var s := cut.shards[n];
    assert s in c.shards;
    var j :| 0 <= j < |c.shards| && c.shards[j] == s;
    assert Shows(c.shards[j], date, Expected(Joined(c.calendars))[date]);
    ActiveListed(s, date);
    DatesOrdered(start, s.from);
    DatesOrdered(s.to - 1, end - 1);
  }

  lemma {:induction false} ExpectedSeen(c: Corpus, start: int, end: int, seen: Seen, date: int)
    requires Sound(c) && NoneCut(c, start, end) && date in Expected(Joined(c.calendars)) && DateOf(start) <= date <= DateOf(end - 1)
    requires SeenBy(Cut(c, start, end), |Cut(c, start, end).shards|, seen)
    ensures date in seen
  {
    hide Active, Expected, Joined, Kept, Narrowed, Passed, DayOf;
    var cut, whole := Cut(c, start, end), Expected(Joined(c.calendars));
    var j :| 0 <= j < |c.shards| && Shows(c.shards[j], date, whole[date]);
    assert Inside(c.shards[j], start, end);
    KeptHas(c.shards, start, end);
    assert c.shards[j] in cut.shards;
    var n :| 0 <= n < |cut.shards| && cut.shards[n] == c.shards[j];
  }

  lemma {:induction false} CutShardsPass(c: Corpus, start: int, end: int)
    requires c.Typed() && Sound(c) && Kept(c.shards, start, end) != []
    ensures ShardsTo(Cut(c, start, end), |Cut(c, start, end).shards|).Ok?
  {
    hide Sound, Corpus.Typed, Compatible, Kept, ShardsTo;
    var cut := Cut(c, start, end);
    KeptHas(c.shards, start, end);
    assert cut.shards[0] in c.shards;
    SoundCompatible(c);
    KeptCompatible(c.shards, c.shards[0].identity, start, end);
    FirstIdentity(cut.shards, c.shards[0].identity);
    CutTyped(c, start, end);
    CompatibleShardsPass(cut, |cut.shards|);
  }

  lemma {:induction false} FirstIdentity(shards: seq<Shard>, identity: string)
    requires shards != [] && Compatible(shards, identity)
    ensures shards[0].identity == identity
  {
  }

  /** The checks on the narrowed calendar pass. */
  lemma {:induction false} CutCalendarPasses(c: Corpus, start: int, end: int)
    requires c.Typed() && CorpusError(c).None? && c.from <= start < end <= c.to
    ensures
      var days := Joined(Cut(c, start, end).calendars);
      && CoversDates(days, DateOf(start), DateOf(end - 1)) && 1 <= |Cut(c, start, end).calendars| <= 12
      && forall i :: 0 <= i < |days| ==> days[i].status != UNKNOWN_SESSION
  {
    hide ShardsTo, Expected, BarsOf, Kept;
    var days, first, last := Joined(c.calendars), DateOf(start), DateOf(end - 1);
    DatesOrdered(c.from, start);
    DatesOrdered(start, end - 1);
    DatesOrdered(end - 1, c.to - 1);
    NarrowedJoins(c.calendars, first, last);
    WithinCovers(days, c.First(), c.Last(), first, last);
    NarrowedSize(c.calendars, first, last);
    AscendsWhenCovering(days, c.First(), c.Last());
    WithinHas(days, first, last);
    var part := Within(days, first, last);
    forall i | 0 <= i < |part| ensures part[i].status != UNKNOWN_SESSION { assert part[i] in days; }
    assert part != [];
  }

  /** Within a valid corpus a slice succeeds exactly when it keeps a shard and no shard with a session dated
      in the range reaches outside it; a boundary that would drop a session is refused. */
  lemma {:induction false} SliceSucceedsExactly(c: Corpus, start: int, end: int)
    requires c.Typed() && CorpusError(c).None? && c.from <= start < end <= c.to
    ensures Slice(c, start, end).Ok? <==> Kept(c.shards, start, end) != [] && NoneCut(c, start, end)
  {
    hide *;
    var cut := Cut(c, start, end);
    ValidIsSound(c);
    CutTyped(c, start, end);
    if Slice(c, start, end).Ok? {
      SliceOpens(c, start, end);
      ValidIsSound(cut);
      SliceKeepsSome(c, start, end);
      NothingCut(c, start, end);
    }
    if Kept(c.shards, start, end) != [] && NoneCut(c, start, end) {
      CutShardsPass(c, start, end);
      CutCalendarPasses(c, start, end);
      ShardsSeen(cut, |cut.shards|);
      SeenIsExpected(c, start, end, ShardsTo(cut, |cut.shards|).value.1);
      KeptSize(c.shards, start, end);
      CutPasses(c, start, end);
    }
  }

  lemma {:induction false} SliceKeepsSome(c: Corpus, start: int, end: int)
    requires Slice(c, start, end).Ok?
    ensures Kept(c.shards, start, end) != []
  {
    hide ShardsTo, Expected, BarsOf, Joined, CoversDates;
  }

  lemma {:induction false} NothingCut(c: Corpus, start: int, end: int)
    requires c.Typed() && Sound(c) && Sound(Cut(c, start, end))
    ensures NoneCut(c, start, end)
  {
    hide Sound, Active, Corpus.Typed;
    forall j, date | 0 <= j < |c.shards| && DateOf(start) <= date <= DateOf(end - 1) && Active(c.shards[j], date)
      ensures Inside(c.shards[j], start, end)
    {
      KeptShows(c, start, end, date, j);
    }
  }

  lemma {:induction false} CutPasses(c: Corpus, start: int, end: int)
    requires CorpusError(c).None? && c.from <= start < end <= c.to && Kept(c.shards, start, end) != []
    requires |Kept(c.shards, start, end)| <= |c.shards| && |BarsOf(Kept(c.shards, start, end))| <= |BarsOf(c.shards)|
    requires
      var cut, days := Cut(c, start, end), Joined(Cut(c, start, end).calendars);
      && CoversDates(days, DateOf(start), DateOf(end - 1)) && 1 <= |cut.calendars| <= 12
      && (forall i :: 0 <= i < |days| ==> days[i].status != UNKNOWN_SESSION)
      && ShardsTo(cut, |cut.shards|).Ok? && ShardsTo(cut, |cut.shards|).value.1 == Expected(days)
    ensures Slice(c, start, end).Ok?
  {
    hide ShardsTo, Expected, BarsOf, Joined, CoversDates, Kept, Narrowed;
  }
}
