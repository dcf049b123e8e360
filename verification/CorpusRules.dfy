/** Which datasets and corpora are valid, told without their loops. */
module CorpusRules {
  import opened Wrappers
  import opened Clock
  import opened Corpora
  import opened CorpusLaws
  import opened Markets

  // ----- datasets -----

  /** A date is covered: its day is known, and if sessions are expected there is one, inside the window. */
  ghost predicate Covered(s: Shard, date: int) {
    exists i :: 0 <= i < |s.days| && CoveredBy(s, s.days[i], date)
  }

  ghost predicate CoveredBy(s: Shard, d: CalendarDay, date: int) {
    && d.date == date && d.status != UNKNOWN_SESSION
    && (d.status == EXPECTED_SESSION ==>
          |d.sessions| == 1 && s.from <= Combine(date, d.sessions[0].open) && Combine(date, d.sessions[0].close) <= s.to)
  }

  lemma {:induction false} OwedWhenCovered(s: Shard, date: int)
    requires ValidCalendar(s.days)
    ensures Owed(s, date).Ok? <==> Covered(s, date)
  {
    DayListed(s.days, date);
    if Covered(s, date) {
      var i :| 0 <= i < |s.days| && CoveredBy(s, s.days[i], date);
      DayFound(s.days, i);
    }
    if Owed(s, date).Ok? {
      var d := DayOf(s.days, date).value;
      var i :| 0 <= i < |s.days| && s.days[i] == d;
      assert CoveredBy(s, s.days[i], date);
    }
  }

  lemma {:induction false} OwedToWhenCovered(s: Shard, n: nat)
    requires ValidCalendar(s.days)
    ensures OwedTo(s, n).Ok? <==> forall date :: s.First() <= date < s.First() + n ==> Covered(s, date)
  {
    hide Owed, Covered, ValidCalendar, Shard.First;
    if n > 0 {
      OwedToWhenCovered(s, n - 1);
      OwedWhenCovered(s, s.First() + n - 1);
    }
  }

  /** A dataset is valid exactly when its window is at most 31 days, its data were complete by the cutoff, it has 1 to 44640
      bars, every date is covered, and its bars are, in order, the minutes of its sessions, one bar each. */
  lemma {:induction false} DatasetValidExactly(s: Shard)
    requires ValidCalendar(s.days)
    ensures ShardError(s).None? <==>
      && 0 < s.to - s.from <= 31 * 24 * 60 && s.to <= s.decisionCutoff && 1 <= |s.bars| <= 44640
      && (forall date :: s.First() <= date <= s.Last() ==> Covered(s, date))
      && Ascending(Starts(s.bars))
      && (forall t :: t in Starts(s.bars) <==> s.First() <= DateOf(t) <= s.Last() && Listed(s.days, t))
  {
    var n := Dates(s.First(), s.Last());
    OwedToWhenCovered(s, n);
    if s.from < s.to { DatesOrdered(s.from, s.to - 1); }
    if OwedTo(s, n).Ok? {
      OwedToExactly(s, n);
      SameMinutes(s, n);
    }
    hide OwedTo, Covered, Listed, ValidCalendar, Starts, Ascending;
  }

  lemma {:induction false} SameMinutes(s: Shard, n: nat)
    requires OwedTo(s, n).Ok? && Ascending(OwedTo(s, n).value)
    requires forall t :: t in OwedTo(s, n).value <==> s.First() <= DateOf(t) < s.First() + n && Listed(s.days, t)
    ensures OwedTo(s, n).value == Starts(s.bars) <==>
      Ascending(Starts(s.bars)) && forall t :: t in Starts(s.bars) <==> s.First() <= DateOf(t) < s.First() + n && Listed(s.days, t)
  {
    hide OwedTo, Listed, Starts, Shard.First;
    if Ascending(Starts(s.bars)) && forall t :: t in Starts(s.bars) <==> s.First() <= DateOf(t) < s.First() + n && Listed(s.days, t) {
      AscendingDetermined(OwedTo(s, n).value, Starts(s.bars));
    }
  }

  // ----- corpora -----

  /** The corpus's own calendar expects a session on a date. */
  ghost predicate Calendared(c: Corpus, date: int, day: CalendarDay) {
    exists i :: 0 <= i < |Joined(c.calendars)| && Joined(c.calendars)[i] == day && day.date == date && day.status == EXPECTED_SESSION
  }

  ghost predicate Shown(c: Corpus, date: int, day: CalendarDay) {
    exists j :: 0 <= j < |c.shards| && Shows(c.shards[j], date, day)
  }

  /** Everything but the coverage of sessions. */
  ghost predicate Assembled(c: Corpus) {
    && 0 < c.to - c.from <= 366 * 24 * 60 && 1 <= |c.shards| <= 366 && 1 <= |c.calendars| <= 12
    && CoversDates(Joined(c.calendars), c.First(), c.Last())
    && (forall i :: 0 <= i < |Joined(c.calendars)| ==> Joined(c.calendars)[i].status != UNKNOWN_SESSION)
    && Compatible(c.shards, c.shards[0].identity) && (forall s :: s in c.shards ==> Inside(s, c.from, c.to))
    && |BarsOf(c.shards)| <= 150000
  }

  lemma {:induction false} ShardsPassExactly(c: Corpus)
    requires c.Typed() && c.shards != []
    ensures ShardsTo(c, |c.shards|).Ok? <==> Compatible(c.shards, c.shards[0].identity) && forall s :: s in c.shards ==> Inside(s, c.from, c.to)
  {
    if ShardsTo(c, |c.shards|).Ok? {
      ShardsOrdered(c, |c.shards|);
      ShardsSeen(c, |c.shards|);
      PassedCompatible(c, ShardsTo(c, |c.shards|).value.1);
    }
    if Compatible(c.shards, c.shards[0].identity) && forall s :: s in c.shards ==> Inside(s, c.from, c.to) {
      CompatibleShardsPass(c, |c.shards|);
    }
    hide ShardsTo, Corpus.Typed, Compatible, Passed, SeenBy;
  }

  lemma {:induction false} PassedCompatible(c: Corpus, seen: Seen)
    requires c.Typed() && c.shards != [] && Passed(c, |c.shards|) && SeenBy(c, |c.shards|, seen)
    ensures Compatible(c.shards, c.shards[0].identity) && forall s :: s in c.shards ==> Inside(s, c.from, c.to)
  {
    hide ShardError, ValidCalendar, Active, Shows, ShardsTo;
  }

  lemma {:induction false} SeenExactly(c: Corpus, seen: Seen, date: int, day: CalendarDay)
    requires SeenBy(c, |c.shards|, seen)
    ensures date in seen && seen[date] == day <==> Shown(c, date, day)
  {
    hide Active, DayOf;
    if Shown(c, date, day) {
      var j :| 0 <= j < |c.shards| && Shows(c.shards[j], date, day);
      ShownActive(c.shards[j], date, day);
      assert Shows(c.shards[j], date, seen[date]);
      SameShown(c.shards[j], date, day, seen[date]);
    }
  }

  lemma {:induction false} SameShown(s: Shard, date: int, a: CalendarDay, b: CalendarDay)
    requires Shows(s, date, a) && Shows(s, date, b)
    ensures a == b
  {
  }

  lemma {:induction false} ExpectedExactly(c: Corpus, date: int, day: CalendarDay)
    requires CoversDates(Joined(c.calendars), c.First(), c.Last())
    ensures date in Expected(Joined(c.calendars)) && Expected(Joined(c.calendars))[date] == day <==> Calendared(c, date, day)
  {
    AscendsWhenCovering(Joined(c.calendars), c.First(), c.Last());
    ExpectedHas(Joined(c.calendars), date);
    hide Expected, Joined, CoversDates;
  }

  lemma {:induction false} SeenIsExpectedExactly(c: Corpus, seen: Seen)
    requires CoversDates(Joined(c.calendars), c.First(), c.Last()) && SeenBy(c, |c.shards|, seen)
    ensures seen == Expected(Joined(c.calendars)) <==> forall date, day :: Calendared(c, date, day) <==> Shown(c, date, day)
  {
    hide SeenBy, Calendared, Shown, CoversDates, Joined, Expected;
    var e := Expected(Joined(c.calendars));
    forall date, day ensures (date in seen && seen[date] == day <==> Shown(c, date, day)) && (date in e && e[date] == day <==> Calendared(c, date, day)) {
      SeenExactly(c, seen, date, day);
      ExpectedExactly(c, date, day);
    }
    if forall date, day :: Calendared(c, date, day) <==> Shown(c, date, day) {
      forall date ensures date in seen <==> date in e {
        if date in seen { assert Shown(c, date, seen[date]) && Calendared(c, date, seen[date]); }
        if date in e { assert Calendared(c, date, e[date]) && Shown(c, date, e[date]); }
      }
      forall date | date in seen ensures seen[date] == e[date] { assert Shown(c, date, seen[date]) && Calendared(c, date, seen[date]); }
    }
  }

  /** A corpus is valid exactly when it spans at most 366 days, its calendars run over every date without an unknown session,
      its shards are valid datasets of one identity, one after the other inside it and active on no common date, they show
      exactly the sessions its calendar expects, and they hold at most 150000 bars. */
  lemma {:induction false} CorpusValidExactly(c: Corpus)
    requires c.Typed()
    ensures CorpusError(c).None? <==> Assembled(c) && forall date, day :: Calendared(c, date, day) <==> Shown(c, date, day)
  {
    hide *;
    CorpusOpens(c);
    if c.shards != [] {
      ShardsPassExactly(c);
      if ShardsTo(c, |c.shards|).Ok? && CoversDates(Joined(c.calendars), c.First(), c.Last()) {
        ShardsSeen(c, |c.shards|);
        SeenIsExpectedExactly(c, ShardsTo(c, |c.shards|).value.1);
      }
    }
    AssembledOpens(c);
  }

  lemma {:induction false} CorpusOpens(c: Corpus)
    ensures CorpusError(c).None? <==>
      && 0 < c.to - c.from <= 366 * 24 * 60 && 1 <= |c.shards| <= 366 && 1 <= |c.calendars| <= 12
      && CoversDates(Joined(c.calendars), c.First(), c.Last())
      && (forall i :: 0 <= i < |Joined(c.calendars)| ==> Joined(c.calendars)[i].status != UNKNOWN_SESSION)
      && ShardsTo(c, |c.shards|).Ok? && ShardsTo(c, |c.shards|).value.1 == Expected(Joined(c.calendars)) && |BarsOf(c.shards)| <= 150000
  {
    hide CoversDates, Joined, ShardsTo, Expected, BarsOf;
  }

  lemma {:induction false} AssembledOpens(c: Corpus)
    ensures Assembled(c) <==>
      && 0 < c.to - c.from <= 366 * 24 * 60 && 1 <= |c.shards| <= 366 && 1 <= |c.calendars| <= 12
      && CoversDates(Joined(c.calendars), c.First(), c.Last())
      && (forall i :: 0 <= i < |Joined(c.calendars)| ==> Joined(c.calendars)[i].status != UNKNOWN_SESSION)
      && Compatible(c.shards, c.shards[0].identity) && (forall s :: s in c.shards ==> Inside(s, c.from, c.to))
      && |BarsOf(c.shards)| <= 150000
  {
    hide CoversDates, Joined, Compatible, Inside, BarsOf;
  }
}
