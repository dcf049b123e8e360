/** Datasets, corpora of datasets and their slices (backtest/dataset.py, backtest/corpus.py). */
module Corpora {
  import opened Wrappers
  import opened Clock
  import opened Backtest

  // ----- calendars, datasets, corpora -----

  datatype Hours = Hours(open: int, close: int)

  datatype DayStatus = EXPECTED_SESSION | NON_TRADING_DAY | UNKNOWN_SESSION

  datatype CalendarDay = CalendarDay(date: int, status: DayStatus, sessions: seq<Hours>)
  {
    ghost predicate Valid() {
      && (forall h :: h in sessions ==> 0 <= h.open < h.close < MINUTES_PER_DAY)
      && (status == EXPECTED_SESSION <==> sessions != [])
    }
  }

  ghost predicate ValidCalendar(days: seq<CalendarDay>) {
    (forall d :: d in days ==> d.Valid()) && forall i, j :: 0 <= i < j < |days| ==> days[i].date < days[j].date
  }

  /** A dataset; `identity` stands for the instrument and the other fields that shards must share. */
  datatype Shard = Shard(identity: string, from: int, to: int, decisionCutoff: int, days: seq<CalendarDay>, bars: seq<Bar>)
  {
    function First(): int { DateOf(from) }

    function Last(): int { DateOf(to - 1) }
  }

  datatype Corpus = Corpus(from: int, to: int, calendars: seq<seq<CalendarDay>>, shards: seq<Shard>)
  {
    function First(): int { DateOf(from) }

    function Last(): int { DateOf(to - 1) }

    /** What the field types have established. */
    ghost predicate Typed() {
      (forall c :: c in calendars ==> ValidCalendar(c)) && forall s :: s in shards ==> ValidCalendar(s.days)
    }
  }

  function Joined(calendars: seq<seq<CalendarDay>>): seq<CalendarDay> {
    if calendars == [] then [] else Joined(calendars[..|calendars| - 1]) + calendars[|calendars| - 1]
  }

  function BarsOf(shards: seq<Shard>): seq<Bar> {
    if shards == [] then [] else BarsOf(shards[..|shards| - 1]) + shards[|shards| - 1].bars
  }

  /** The day a calendar has for a date. */
  function DayOf(days: seq<CalendarDay>, date: int): Option<CalendarDay> {
    if days == [] then None
    else if days[|days| - 1].date == date then Some(days[|days| - 1])
    else DayOf(days[..|days| - 1], date)
  }

  // ----- a dataset's validation -----

  function Run(start: int, n: nat): (r: seq<int>)
    ensures |r| == n && forall i :: 0 <= i < n ==> r[i] == start + i
  {
    seq(n, i => start + i)
  }

  /** The minutes owed for one date. */
  function Owed(s: Shard, date: int): Result<seq<int>> {
    var day := DayOf(s.days, date);
    if day.None? || day.value.status == UNKNOWN_SESSION then Err("UNKNOWN_SESSION")
    else if day.value.status == NON_TRADING_DAY then Ok([])
    else if |day.value.sessions| != 1 then Err("SPLIT_SESSION_UNSUPPORTED")
    else
      var start, end := Combine(date, day.value.sessions[0].open), Combine(date, day.value.sessions[0].close);
      if start < s.from || end > s.to then Err("PARTIAL_SESSION_UNSUPPORTED")
      else Ok(Run(start, if start < end then end - start else 0))
  }

  /** The minutes owed for the first n dates. */
  function OwedTo(s: Shard, n: nat): Result<seq<int>> {
    if n == 0 then Ok([])
    else
      var before :- OwedTo(s, n - 1);
      var here :- Owed(s, s.First() + n - 1);
      Ok(before + here)
  }

  function Starts(bars: seq<Bar>): (r: seq<int>)
    ensures |r| == |bars| && forall i :: 0 <= i < |r| ==> r[i] == bars[i].start
  {
    seq(|bars|, i requires 0 <= i < |bars| => bars[i].start)
  }

  function Dates(first: int, last: int): nat { if first <= last then last - first + 1 else 0 }

  function ShardError(s: Shard): Option<string> {
    if !(0 < s.to - s.from <= 31 * MINUTES_PER_DAY) then Some("INVALID_WINDOW")
    else if s.decisionCutoff < s.to then Some("INCOMPLETE_DATASET")
    else if |s.bars| > 44640 || s.bars == [] then Some("INVALID_DATASET_SIZE")
    else
      var owed := OwedTo(s, Dates(s.First(), s.Last()));
      if owed.Err? then Some(owed.error)
      else if owed.value != Starts(s.bars) then Some("INCOMPLETE_OR_UNORDERED_SESSION")
      else None
  }

  lemma {:induction false} OwedErrorLasts(s: Shard, k: nat, n: nat)
    requires k <= n && OwedTo(s, k).Err?
    ensures OwedTo(s, n) == OwedTo(s, k)
  {
    hide Owed;
    if k < n { OwedErrorLasts(s, k, n - 1); }
  }

  /** The loop over a session's minutes. */
  method AppendMinutes(expected: seq<int>, opening: int, end: int) returns (r: seq<int>)
    ensures r == expected + Run(opening, if opening < end then end - opening else 0)
  {
    r := expected;
    var start := opening;
    while start < end
      invariant opening <= start && (start <= end || start == opening)
      invariant r == expected + Run(opening, start - opening)
    {
      r := r + [start];
      start := start + 1;
    }
  }

  lemma {:induction false} OwedNext(s: Shard, k: nat, n: nat, expected: seq<int>)
    requires k < n && OwedTo(s, k) == Ok(expected)
    ensures Owed(s, s.First() + k).Err? ==> OwedTo(s, n) == Err(Owed(s, s.First() + k).error)
    ensures Owed(s, s.First() + k).Ok? ==> OwedTo(s, k + 1) == Ok(expected + Owed(s, s.First() + k).value)
  {
    hide Owed;
    if Owed(s, s.First() + k).Err? { OwedErrorLasts(s, k + 1, n); }
  }

  /** The loop over dates. */
  method OwedMinutes(s: Shard) returns (r: Result<seq<int>>)
    requires s.First() <= s.Last()
    ensures r == OwedTo(s, Dates(s.First(), s.Last()))
  {
    hide OwedTo, DayOf, DateOf, Shard.First, Shard.Last;
    var cursor, last := s.First(), s.Last();
    var expected: seq<int> := [];
    Unstarted(s);
    while cursor <= last
      invariant s.First() <= cursor <= last + 1
      invariant OwedTo(s, cursor - s.First()) == Ok(expected)
    {
      OwedNext(s, cursor - s.First(), last - s.First() + 1, expected);
      var day := DayOf(s.days, cursor);
      if day.None? || day.value.status == UNKNOWN_SESSION { return Err("UNKNOWN_SESSION"); }
      if day.value.status == EXPECTED_SESSION {
        if |day.value.sessions| != 1 { return Err("SPLIT_SESSION_UNSUPPORTED"); }
        var start, end := Combine(cursor, day.value.sessions[0].open), Combine(cursor, day.value.sessions[0].close);
        if start < s.from || end > s.to { return Err("PARTIAL_SESSION_UNSUPPORTED"); }
        expected := AppendMinutes(expected, start, end);
      } else {
        assert expected + [] == expected;
      }
      cursor := cursor + 1;
    }
    r := Ok(expected);
  }

  lemma {:induction false} Unstarted(s: Shard)
    ensures OwedTo(s, 0) == Ok([])
  {
  }

  lemma {:induction false} DatesOrdered(a: int, b: int)
    requires a <= b
    ensures DateOf(a) <= DateOf(b)
  {
  }

  method ValidateShard(s: Shard) returns (error: Option<string>)
    requires ValidCalendar(s.days)
    ensures error == ShardError(s)
  {
    hide OwedTo;
    if !(0 < s.to - s.from <= 31 * MINUTES_PER_DAY) { return Some("INVALID_WINDOW"); }
    if s.decisionCutoff < s.to { return Some("INCOMPLETE_DATASET"); }
    if |s.bars| > 44640 || s.bars == [] { return Some("INVALID_DATASET_SIZE"); }
    DatesOrdered(s.from, s.to - 1);
    var owed := OwedMinutes(s);
    if owed.Err? { return Some(owed.error); }
    if owed.value != Starts(s.bars) { return Some("INCOMPLETE_OR_UNORDERED_SESSION"); }
    error := None;
  }

  // ----- a corpus's validation -----

  predicate Active(s: Shard, date: int) { exists i :: 0 <= i < |s.bars| && DateOf(s.bars[i].start) == date }

  type Seen = map<int, CalendarDay>

  /** The active days among a shard's first n calendar days, added to those seen. */
  function Seeing(s: Shard, seen: Seen, n: nat): Result<Seen>
    requires n <= |s.days|
  {
    if n == 0 then Ok(seen)
    else
      var before :- Seeing(s, seen, n - 1);
      var day := s.days[n - 1];
      if !Active(s, day.date) then Ok(before)
      else if day.date in before then Err("CORPUS_DUPLICATE_SESSION")
      else Ok(before[day.date := day])
  }

  /** The checks on the first k shards; the result is what the loop carries: where the last one ends and the
      days seen. */
  function ShardsTo(c: Corpus, k: nat): Result<(int, Seen)>
    requires k <= |c.shards|
  {
    if k == 0 then Ok((c.from, map[]))
    else
      var before :- ShardsTo(c, k - 1);
      var s := c.shards[k - 1];
      if ShardError(s).Some? then Err(ShardError(s).value)
      else if s.identity != c.shards[0].identity then Err("CORPUS_IDENTITY_MISMATCH")
      else if s.from < before.0 || s.to > c.to then Err("CORPUS_SHARDS_OVERLAP_OR_OUTSIDE")
      else
        var seen :- Seeing(s, before.1, |s.days|);
        Ok((s.to, seen))
  }

  /** The calendar runs over every date of the range, in order. */
  predicate CoversDates(days: seq<CalendarDay>, first: int, last: int) {
    |days| == Dates(first, last) && forall i :: 0 <= i < |days| ==> days[i].date == first + i
  }

  /** The sessions a calendar expects. */
  function Expected(days: seq<CalendarDay>): Seen {
    if days == [] then map[]
    else
      var d, before := days[|days| - 1], Expected(days[..|days| - 1]);
      if d.status == EXPECTED_SESSION then before[d.date := d] else before
  }

  function CorpusError(c: Corpus): Option<string> {
    var days := Joined(c.calendars);
    if !(0 < c.to - c.from <= 366 * MINUTES_PER_DAY) then Some("CORPUS_RANGE_INVALID")
    else if !(1 <= |c.shards| <= 366) || !(1 <= |c.calendars| <= 12) then Some("CORPUS_SIZE_INVALID")
    else if !CoversDates(days, c.First(), c.Last()) then Some("CORPUS_CALENDAR_COVERAGE_INVALID")
    else if exists i :: 0 <= i < |days| && days[i].status == UNKNOWN_SESSION then Some("CORPUS_UNKNOWN_SESSION")
    else
      var r := ShardsTo(c, |c.shards|);
      if r.Err? then Some(r.error)
      else if r.value.1 != Expected(days) then Some("CORPUS_SESSION_COVERAGE_INVALID")
      else if |BarsOf(c.shards)| > 150000 then Some("CORPUS_CONTENT_MISMATCH")
      else None
  }

  lemma {:induction false} ShardsErrorLasts(c: Corpus, k: nat, n: nat)
    requires k <= n <= |c.shards| && ShardsTo(c, k).Err?
    ensures ShardsTo(c, n) == ShardsTo(c, k)
  {
    hide ShardError, Seeing;
    if k < n { ShardsErrorLasts(c, k, n - 1); }
  }

  lemma {:induction false} SeeingErrorLasts(s: Shard, seen: Seen, k: nat, n: nat)
    requires k <= n <= |s.days| && Seeing(s, seen, k).Err?
    ensures Seeing(s, seen, n) == Seeing(s, seen, k)
  {
    hide Active;
    if k < n { SeeingErrorLasts(s, seen, k, n - 1); }
  }

  /** The loops over shards and their days. */
  method ValidateCorpus(c: Corpus) returns (error: Option<string>)
    requires c.Typed()
    ensures error == CorpusError(c)
  {
    hide Seeing, ShardError, Expected, Active, ShardsTo, CoversDates, BarsOf, Joined;
    var days := Joined(c.calendars);
    if !(0 < c.to - c.from <= 366 * MINUTES_PER_DAY) { return Some("CORPUS_RANGE_INVALID"); }
    if !(1 <= |c.shards| <= 366) || !(1 <= |c.calendars| <= 12) { return Some("CORPUS_SIZE_INVALID"); }
    if !CoversDates(days, c.First(), c.Last()) { return Some("CORPUS_CALENDAR_COVERAGE_INVALID"); }
    if exists i :: 0 <= i < |days| && days[i].status == UNKNOWN_SESSION { return Some("CORPUS_UNKNOWN_SESSION"); }
    var r := SeeShards(c);
    if r.Err? { return Some(r.error); }
    if r.value != Expected(days) { return Some("CORPUS_SESSION_COVERAGE_INVALID"); }
    if |BarsOf(c.shards)| > 150000 { return Some("CORPUS_CONTENT_MISMATCH"); }
    error := None;
  }

  method SeeShards(c: Corpus) returns (r: Result<Seen>)
    requires c.Typed()
    ensures ShardsTo(c, |c.shards|).Err? ==> r == Err(ShardsTo(c, |c.shards|).error)
    ensures ShardsTo(c, |c.shards|).Ok? ==> r == Ok(ShardsTo(c, |c.shards|).value.1)
  {
    hide Seeing, ShardError, Active;
    var seen: Seen, previous := map[], c.from;
    for k := 0 to |c.shards|
      invariant ShardsTo(c, k) == Ok((previous, seen))
    {
      var s := c.shards[k];
      assert s in c.shards;
      if ShardsTo(c, k + 1).Err? { ShardsErrorLasts(c, k + 1, |c.shards|); }
      var error := ValidateShard(s);
      if error.Some? { return Err(error.value); }
      if s.identity != c.shards[0].identity { return Err("CORPUS_IDENTITY_MISMATCH"); }
      if s.from < previous || s.to > c.to { return Err("CORPUS_SHARDS_OVERLAP_OR_OUTSIDE"); }
      previous := s.to;
      var more := SeeDays(s, seen);
      if more.Err? { return Err(more.error); }
      seen := more.value;
    }
    r := Ok(seen);
  }

  method SeeDays(s: Shard, seen: Seen) returns (r: Result<Seen>)
    ensures r == Seeing(s, seen, |s.days|)
  {
    hide Active;
    var more := seen;
    for n := 0 to |s.days|
      invariant Seeing(s, seen, n) == Ok(more)
    {
      var day := s.days[n];
      if Active(s, day.date) {
        if day.date in more {
          SeeingErrorLasts(s, seen, n + 1, |s.days|);
          return Err("CORPUS_DUPLICATE_SESSION");
        }
        more := more[day.date := day];
      }
    }
    r := Ok(more);
  }

  // ----- slicing -----

  function Within(days: seq<CalendarDay>, first: int, last: int): seq<CalendarDay> {
    if days == [] then []
    else
      var d, before := days[|days| - 1], Within(days[..|days| - 1], first, last);
      if first <= d.date <= last then before + [d] else before
  }

  /** The parts of the calendars that lie in the range, those that have none left out. */
  function Narrowed(calendars: seq<seq<CalendarDay>>, first: int, last: int): seq<seq<CalendarDay>> {
    if calendars == [] then []
    else
      var before, here := Narrowed(calendars[..|calendars| - 1], first, last), Within(calendars[|calendars| - 1], first, last);
      if here == [] then before else before + [here]
  }

  predicate Inside(s: Shard, start: int, end: int) { start <= s.from && s.to <= end }

  function Kept(shards: seq<Shard>, start: int, end: int): seq<Shard> {
    if shards == [] then []
    else
      var s, before := shards[|shards| - 1], Kept(shards[..|shards| - 1], start, end);
      if Inside(s, start, end) then before + [s] else before
  }

  function Cut(c: Corpus, start: int, end: int): Corpus {
    Corpus(start, end, Narrowed(c.calendars, DateOf(start), DateOf(end - 1)), Kept(c.shards, start, end))
  }

  /** A slice on whole shards, validated like any corpus. */
  function Slice(c: Corpus, start: int, end: int): Result<Corpus> {
    if !(c.from <= start < end <= c.to) then Err("PARTITION_OUTSIDE_CORPUS")
    else
      var error := CorpusError(Cut(c, start, end));
      if error.Some? then Err(error.value) else Ok(Cut(c, start, end))
  }

  /** The bars of a range. */
  function InRange(bars: seq<Bar>, start: int, end: int): seq<Bar> {
    if bars == [] then []
    else
      var b, before := bars[|bars| - 1], InRange(bars[..|bars| - 1], start, end);
      if start <= b.start < end then before + [b] else before
  }
}
