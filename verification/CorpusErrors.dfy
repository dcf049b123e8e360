/** Why a dataset or a corpus is refused: each error has its cause, told without the loops that raise it. */
module CorpusErrors {
  import opened Wrappers
  import opened Clock
  import opened Backtest
  import opened Corpora
  import opened CorpusLaws
  import opened CorpusRules
  import opened Markets

  // ----- datasets -----

  /** What is wrong with the calendar on a date. */
  ghost predicate FlawOn(s: Shard, date: int, error: string) {
    && (error == "UNKNOWN_SESSION" <==> forall i :: 0 <= i < |s.days| && s.days[i].date == date ==> s.days[i].status == UNKNOWN_SESSION)
    && (error == "SPLIT_SESSION_UNSUPPORTED" <==>
          exists i :: 0 <= i < |s.days| && s.days[i].date == date && s.days[i].status == EXPECTED_SESSION && |s.days[i].sessions| > 1)
    && (error == "PARTIAL_SESSION_UNSUPPORTED" <==>
          exists i :: 0 <= i < |s.days| && s.days[i].date == date && s.days[i].status == EXPECTED_SESSION && |s.days[i].sessions| == 1 &&
            !(s.from <= Combine(date, s.days[i].sessions[0].open) && Combine(date, s.days[i].sessions[0].close) <= s.to))
  }

  /** The first date that is not covered. */
  ghost predicate FirstUncovered(s: Shard, date: int) {
    s.First() <= date <= s.Last() && !Covered(s, date) && forall d :: s.First() <= d < date ==> Covered(s, d)
  }

  lemma {:induction false} FlawIs(s: Shard, date: int)
    requires ValidCalendar(s.days) && Owed(s, date).Err?
    ensures FlawOn(s, date, Owed(s, date).error)
  {
    DayListed(s.days, date);
    forall i | 0 <= i < |s.days| && s.days[i].date == date ensures DayOf(s.days, date) == Some(s.days[i]) { DayFound(s.days, i); }
    if DayOf(s.days, date).Some? {
      var i :| 0 <= i < |s.days| && s.days[i] == DayOf(s.days, date).value;
      DayDated(s.days, date);
      assert s.days[i].Valid();
    }
    hide DayOf, ValidCalendar;
  }

  lemma {:induction false} DayDated(days: seq<CalendarDay>, date: int)
    ensures DayOf(days, date).Some? ==> DayOf(days, date).value.date == date
  {
    if days != [] { DayDated(days[..|days| - 1], date); }
  }

  lemma {:induction false} FirstFlaw(s: Shard, n: nat) returns (date: int)
    requires ValidCalendar(s.days) && OwedTo(s, n).Err?
    ensures s.First() <= date < s.First() + n && !Covered(s, date) && forall d :: s.First() <= d < date ==> Covered(s, d)
    ensures FlawOn(s, date, OwedTo(s, n).error)
  {
    hide Owed, Covered, FlawOn, ValidCalendar, Shard.First;
    if OwedTo(s, n - 1).Err? {
      date := FirstFlaw(s, n - 1);
    } else {
      date := s.First() + n - 1;
      OwedToWhenCovered(s, n - 1);
      OwedWhenCovered(s, date);
      FlawIs(s, date);
    }
  }

  /** The minutes a dataset's bars must be. */
  ghost predicate WholeMinutes(s: Shard) {
    && Ascending(Starts(s.bars))
    && forall t :: t in Starts(s.bars) <==> s.First() <= DateOf(t) <= s.Last() && Listed(s.days, t)
  }

  /** A dataset is refused for its window, its cutoff, its size, the first date its calendar does not cover, and then for its
      bars, in this order and each with its own error. */
  lemma {:induction false} DatasetErrors(s: Shard)
    requires ValidCalendar(s.days)
    ensures
      var e := ShardError(s);
      var window, done, sized := 0 < s.to - s.from <= 31 * 24 * 60, s.to <= s.decisionCutoff, 1 <= |s.bars| <= 44640;
      var covered := forall date :: s.First() <= date <= s.Last() ==> Covered(s, date);
      if !window then e == Some("INVALID_WINDOW")
      else if !done then e == Some("INCOMPLETE_DATASET")
      else if !sized then e == Some("INVALID_DATASET_SIZE")
      else if !covered then e.Some? && exists date :: FirstUncovered(s, date) && FlawOn(s, date, e.value)
      else if !WholeMinutes(s) then e == Some("INCOMPLETE_OR_UNORDERED_SESSION")
      else e == None
  {
    DatasetValidExactly(s);
    var n := Dates(s.First(), s.Last());
    if s.from < s.to { DatesOrdered(s.from, s.to - 1); }
    OwedToWhenCovered(s, n);
    hide OwedTo, Covered, Listed, ValidCalendar, Starts, Ascending, FlawOn;
    if OwedTo(s, n).Err? {
      var date := FirstFlaw(s, n);
      assert FirstUncovered(s, date);
    }
  }

  // ----- corpora -----

  /** Up to shard k all is well, and shard k is at fault: invalid, of another identity, out of place, or active on a date on
      which one before it is. */
  ghost predicate FaultOn(c: Corpus, k: nat, error: string)
    requires k < |c.shards|
  {
    var s, previous := c.shards[k], if k == 0 then c.from else c.shards[k - 1].to;
    && Compatible(c.shards[..k], c.shards[0].identity) && (forall q :: q in c.shards[..k] ==> Inside(q, c.from, c.to))
    && if ShardError(s).Some? then error == ShardError(s).value
       else if s.identity != c.shards[0].identity then error == "CORPUS_IDENTITY_MISMATCH"
       else if s.from < previous || c.to < s.to then error == "CORPUS_SHARDS_OVERLAP_OR_OUTSIDE"
       else error == "CORPUS_DUPLICATE_SESSION" && exists j, date :: 0 <= j < k && Active(c.shards[j], date) && Active(s, date)
  }

  lemma {:induction false} FirstFault(c: Corpus, n: nat) returns (k: nat)
    requires c.Typed() && n <= |c.shards| && ShardsTo(c, n).Err?
    ensures k < n && FaultOn(c, k, ShardsTo(c, n).error)
  {
    hide *;
    ShardsUnfold(c, n);
    if ShardsTo(c, n - 1).Err? {
      k := FirstFault(c, n - 1);
    } else {
      k := n - 1;
      ShardsOrdered(c, k);
      ShardsSeen(c, k);
      PassedSofar(c, k, ShardsTo(c, k).value.1);
      CalendarTyped(c, k);
      FaultIs(c, k);
    }
  }

  lemma {:induction false} ShardsUnfold(c: Corpus, n: nat)
    requires n <= |c.shards| && ShardsTo(c, n).Err?
    ensures n > 0 && (ShardsTo(c, n - 1).Err? ==> ShardsTo(c, n) == ShardsTo(c, n - 1))
  {
    hide ShardError, Seeing;
  }

  lemma {:induction false} CalendarTyped(c: Corpus, k: nat)
    requires c.Typed() && k < |c.shards|
    ensures ValidCalendar(c.shards[k].days)
  {
    hide ValidCalendar;
    assert c.shards[k] in c.shards;
  }

  lemma {:induction false} PassedSofar(c: Corpus, k: nat, seen: Seen)
    requires c.Typed() && k <= |c.shards| && Passed(c, k) && SeenBy(c, k, seen)
    ensures c.shards != [] ==>
      Compatible(c.shards[..k], c.shards[0].identity) && forall q :: q in c.shards[..k] ==> Inside(q, c.from, c.to)
  {
    hide ShardError, ValidCalendar, Active, Shows, ShardsTo;
    forall q | q in c.shards[..k] ensures q in c.shards { }
  }

  lemma {:induction false} FaultIs(c: Corpus, k: nat)
    requires k < |c.shards| && ShardsTo(c, k).Ok? && ShardsTo(c, k + 1).Err? && Passed(c, k) && SeenBy(c, k, ShardsTo(c, k).value.1)
    requires k == 0 ==> ShardsTo(c, k).value.0 == c.from
    requires ValidCalendar(c.shards[k].days)
    requires Compatible(c.shards[..k], c.shards[0].identity) && forall q :: q in c.shards[..k] ==> Inside(q, c.from, c.to)
    ensures FaultOn(c, k, ShardsTo(c, k + 1).error)
  {
    hide *;
    NextUnfolds(c, k);
    DuplicateIs(c, k, ShardsTo(c, k).value.1);
    PlaceOf(c, k);
    FaultFolds(c, k, ShardsTo(c, k + 1).error);
  }

  lemma {:induction false} NextUnfolds(c: Corpus, k: nat)
    requires k < |c.shards| && ShardsTo(c, k).Ok? && ShardsTo(c, k + 1).Err?
    ensures
      var s, before, error := c.shards[k], ShardsTo(c, k).value, ShardsTo(c, k + 1).error;
      if ShardError(s).Some? then error == ShardError(s).value
      else if s.identity != c.shards[0].identity then error == "CORPUS_IDENTITY_MISMATCH"
      else if s.from < before.0 || c.to < s.to then error == "CORPUS_SHARDS_OVERLAP_OR_OUTSIDE"
      else Seeing(s, before.1, |s.days|) == Err(error)
  {
    hide ShardError, Seeing;
  }

  lemma {:induction false} DuplicateIs(c: Corpus, k: nat, seen: Seen)
    requires k < |c.shards| && SeenBy(c, k, seen) && ValidCalendar(c.shards[k].days)
    ensures Seeing(c.shards[k], seen, |c.shards[k].days|).Err? ==>
      && Seeing(c.shards[k], seen, |c.shards[k].days|).error == "CORPUS_DUPLICATE_SESSION"
      && exists j, date :: 0 <= j < k && Active(c.shards[j], date) && Active(c.shards[k], date)
  {
    var s := c.shards[k];
    SeeingErrs(s, seen, |s.days|);
    hide ValidCalendar, Active, Seeing, DayOf;
    if Seeing(s, seen, |s.days|).Err? {
      if forall date :: date in seen ==> !Active(s, date) { SeeingSucceeds(s, seen, |s.days|); }
      var date :| date in seen && Active(s, date);
      var j :| 0 <= j < k && Shows(c.shards[j], date, seen[date]);
      assert Active(c.shards[j], date);
    }
  }

  lemma {:induction false} PlaceOf(c: Corpus, k: nat)
    requires k < |c.shards| && Passed(c, k) && ShardsTo(c, k).Ok? && (k == 0 ==> ShardsTo(c, k).value.0 == c.from)
    ensures ShardsTo(c, k).value.0 == if k == 0 then c.from else c.shards[k - 1].to
  {
    hide ShardError, ShardsTo;
  }

  lemma {:induction false} FaultFolds(c: Corpus, k: nat, error: string)
    requires k < |c.shards|
    requires Compatible(c.shards[..k], c.shards[0].identity) && forall q :: q in c.shards[..k] ==> Inside(q, c.from, c.to)
    requires
      var s, previous := c.shards[k], if k == 0 then c.from else c.shards[k - 1].to;
      if ShardError(s).Some? then error == ShardError(s).value
      else if s.identity != c.shards[0].identity then error == "CORPUS_IDENTITY_MISMATCH"
      else if s.from < previous || c.to < s.to then error == "CORPUS_SHARDS_OVERLAP_OR_OUTSIDE"
      else error == "CORPUS_DUPLICATE_SESSION" && exists j, date :: 0 <= j < k && Active(c.shards[j], date) && Active(s, date)
    ensures FaultOn(c, k, error)
  {
    hide ShardError, Active, Compatible, Inside;
  }

  lemma {:induction false} SeeingErrs(s: Shard, seen: Seen, n: nat)
    requires n <= |s.days|
    ensures Seeing(s, seen, n).Err? ==> Seeing(s, seen, n).error == "CORPUS_DUPLICATE_SESSION"
  {
    hide Active;
    if n > 0 { SeeingErrs(s, seen, n - 1); }
  }

  /** A corpus is refused for its range, its size, its calendar, the first shard at fault, the sessions it does not show or shows
      in excess, and then for its length, in this order and each with its own error. */
  lemma {:induction false} CorpusRefusals(c: Corpus)
    requires c.Typed()
    ensures
      var e, days := CorpusError(c), Joined(c.calendars);
      if !(0 < c.to - c.from <= 366 * 24 * 60) then e == Some("CORPUS_RANGE_INVALID")
      else if !(1 <= |c.shards| <= 366 && 1 <= |c.calendars| <= 12) then e == Some("CORPUS_SIZE_INVALID")
      else if !CoversDates(days, c.First(), c.Last()) then e == Some("CORPUS_CALENDAR_COVERAGE_INVALID")
      else if exists i :: 0 <= i < |days| && days[i].status == UNKNOWN_SESSION then e == Some("CORPUS_UNKNOWN_SESSION")
      else if !(Compatible(c.shards, c.shards[0].identity) && forall s :: s in c.shards ==> Inside(s, c.from, c.to)) then
        e.Some? && exists k: nat :: k < |c.shards| && FaultOn(c, k, e.value)
      else if !(forall date, day :: Calendared(c, date, day) <==> Shown(c, date, day)) then e == Some("CORPUS_SESSION_COVERAGE_INVALID")
      else if |BarsOf(c.shards)| > 150000 then e == Some("CORPUS_CONTENT_MISMATCH")
      else e == None
  {
    hide *;
    CorpusUnfolds(c);
    if c.shards != [] {
      ShardsPassExactly(c);
      if ShardsTo(c, |c.shards|).Err? {
        var k := FirstFault(c, |c.shards|);
      } else if CoversDates(Joined(c.calendars), c.First(), c.Last()) {
        ShardsSeen(c, |c.shards|);
        SeenIsExpectedExactly(c, ShardsTo(c, |c.shards|).value.1);
      }
    }
  }

  lemma {:induction false} CorpusUnfolds(c: Corpus)
    ensures
      var e, days, r := CorpusError(c), Joined(c.calendars), ShardsTo(c, |c.shards|);
      if !(0 < c.to - c.from <= 366 * 24 * 60) then e == Some("CORPUS_RANGE_INVALID")
      else if !(1 <= |c.shards| <= 366 && 1 <= |c.calendars| <= 12) then e == Some("CORPUS_SIZE_INVALID")
      else if !CoversDates(days, c.First(), c.Last()) then e == Some("CORPUS_CALENDAR_COVERAGE_INVALID")
      else if exists i :: 0 <= i < |days| && days[i].status == UNKNOWN_SESSION then e == Some("CORPUS_UNKNOWN_SESSION")
      else if r.Err? then e == Some(r.error)
      else if r.value.1 != Expected(days) then e == Some("CORPUS_SESSION_COVERAGE_INVALID")
      else if |BarsOf(c.shards)| > 150000 then e == Some("CORPUS_CONTENT_MISMATCH")
      else e == None
  {
    hide CoversDates, Joined, ShardsTo, Expected, BarsOf;
  }
}
