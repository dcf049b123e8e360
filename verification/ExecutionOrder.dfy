/** Chronology of an execution: recorded entries never overlap, positions never outlive their
    session, and entries are at most half as many as candles. */
module ExecutionOrder {
  import opened Costs
  import opened Series
  import opened Strategies
  import opened Executor

  /** Everything recorded lies before `now`, in order and without overlap; an open position is
      younger than all of it, and a pending order is due exactly now. */
  ghost predicate Timely(b: Book, now: int) {
    && (forall i :: 0 <= i < |b.trades| ==>
          b.trades[i].signalAt == b.trades[i].entryAt < b.trades[i].exitAt <= now)
    && (forall i, j :: 0 <= i < j < |b.trades| ==> b.trades[i].exitAt <= b.trades[j].entryAt)
    && (forall i :: 0 <= i < |b.noFills| ==> b.noFills[i] < now)
    && (forall i, j :: 0 <= i < j < |b.noFills| ==> b.noFills[i] < b.noFills[j])
    && (forall i, j :: 0 <= i < |b.trades| && 0 <= j < |b.noFills| ==>
          b.noFills[j] < b.trades[i].entryAt || b.trades[i].exitAt <= b.noFills[j])
    && (b.position.Some? ==> b.pending.None? && Latest(b, b.position.value.decided, b.position.value.entered, now))
    && (b.pending.Some? ==> b.pending.value == now)
  }

  /** An entry decided and made at one instant before now, after everything settled. */
  ghost predicate Latest(b: Book, decided: int, entered: int, now: int) {
    && decided == entered < now
    && (forall i :: 0 <= i < |b.trades| ==> b.trades[i].exitAt <= entered)
    && (forall i :: 0 <= i < |b.noFills| ==> b.noFills[i] < entered)
  }

  lemma {:induction false} TimelyLater(b: Book, now: int, later: int)
    requires Timely(b, now) && now <= later && b.pending.None?
    ensures Timely(b, later)
  {
  }

  lemma {:induction false} EnterTimely(r: Rules, bar: Candle, last: bool, liquid: bool, b: Book)
    requires b.pending.Some? && Timely(b, bar.start)
    requires Enter(r, bar, last, liquid, b).Ok?
    ensures Timely(Enter(r, bar, last, liquid, b).value, bar.start + 1)
    ensures Enter(r, bar, last, liquid, b).value.pending.None?
  {
  }

  lemma {:induction false} ManageTimely(r: Rules, bar: Candle, last: bool, b: Book)
    requires b.pending.None? && Timely(b, bar.start + 1)
    requires Manage(r, bar, last, b).Ok?
    ensures Timely(Manage(r, bar, last, b).value.book, bar.End())
    ensures Manage(r, bar, last, b).value.book.pending.None?
    ensures Manage(r, bar, last, b).value.Going? && last ==> Manage(r, bar, last, b).value.book.position.None?
  {
    hide Timely, MarkDown, Exit, ExitReference, Rules.Liquid;
    if b.position.None? {
      TimelyLater(b, bar.start + 1, bar.End());
    } else {
      MarkTimely(r, bar, b);
      var marked := MarkDown(r, bar, b).value;
      var (reference, reason) := ExitReference(bar, b.position.value.entry, r, last);
      assert last ==> reason.Some? by { LastExits(r, bar, b.position.value.entry, last); }
      if reason.Some? && r.Liquid(bar.volume) {
        SaleTimely(r, bar, reference, reason.value, marked);
        assert Exit(r, bar, reference, reason.value, marked).value.position.None? by { Flattens(r, bar, reference, reason.value, marked); }
      } else {
        TimelyLater(marked, bar.start + 1, bar.End());
      }
    }
  }

  lemma {:induction false} Flattens(r: Rules, bar: Candle, reference: real, reason: Reason, b: Book)
    requires b.position.Some? && Exit(r, bar, reference, reason, b).Ok?
    ensures Exit(r, bar, reference, reason, b).value.position.None?
  {
    hide Fee;
  }

  lemma {:induction false} LastExits(r: Rules, bar: Candle, entry: real, last: bool)
    ensures last ==> ExitReference(bar, entry, r, last).1.Some?
  {
  }

  lemma {:induction false} MarkTimely(r: Rules, bar: Candle, b: Book)
    requires b.position.Some? && Timely(b, bar.start + 1) && MarkDown(r, bar, b).Ok?
    ensures Timely(MarkDown(r, bar, b).value, bar.start + 1)
    ensures MarkDown(r, bar, b).value.position == b.position && MarkDown(r, bar, b).value.pending == b.pending
  {
    hide Fee;
  }

  lemma {:induction false} SaleTimely(r: Rules, bar: Candle, reference: real, reason: Reason, b: Book)
    requires b.position.Some? && Timely(b, bar.start + 1)
    requires Exit(r, bar, reference, reason, b).Ok?
    ensures Timely(Exit(r, bar, reference, reason, b).value, bar.End())
    ensures Exit(r, bar, reference, reason, b).value.pending.None?
  {
    hide Fee;
    var after := Exit(r, bar, reference, reason, b).value;
    assert after.trades[..|b.trades|] == b.trades;
    assert after.noFills == b.noFills;
  }

  lemma {:induction false} FinishTimely(r: Rules, bar: Candle, last: bool, fires: bool, b: Book)
    requires b.pending.None? && Timely(b, bar.End())
    ensures Timely(Finish(r, bar, last, fires, b), bar.End())
  {
  }

  /** The instant up to which the first n ticks reach. */
  ghost function Reached(ticks: seq<Tick>, n: nat): int
    requires n <= |ticks| && |ticks| > 0
  {
    if n == 0 then ticks[0].bar.start else ticks[n - 1].bar.End()
  }

  /** The order a run keeps, after n ticks. */
  ghost predicate Orderly(d: Definition, ticks: seq<Tick>, n: nat, run: Run)
    requires n <= |ticks| && |ticks| > 0
  {
    && Timely(run.book, Reached(ticks, n))
    && (run.unresolved != [] ==> Halted(run, Reached(ticks, n)))
    && (run.unresolved == [] && (n == 0 || ticks[n - 1].Last()) ==> run.book.position.None? && run.book.pending.None?)
    && (run.book.pending.Some? ==> n > 0 && EntrySignal(History(ticks, n - 1), d))
    && 2 * Entries(run.book) <= n + (if run.book.pending.Some? then 1 else 0)
  }

  /** A halted run holds the position whose exit it could not fill. */
  ghost predicate Halted(run: Run, now: int) {
    && run.book.position.Some? && |run.unresolved| == 1
    && run.unresolved[0].signalAt == run.book.position.value.decided
    && run.unresolved[0].entryAt == run.book.position.value.entered
    && run.unresolved[0].entry == run.book.position.value.entry
    && run.unresolved[0].entryAt < run.unresolved[0].exitAt <= now
  }

  /** Orders armed so far: filled, refused, held or waiting. */
  function Entries(b: Book): nat {
    |b.trades| + |b.noFills| + (if b.position.Some? then 1 else 0) + (if b.pending.Some? then 1 else 0)
  }

  lemma {:induction false} EntriesKept(r: Rules, bar: Candle, last: bool, liquid: bool, fires: bool, b: Book)
    ensures b.pending.Some? && b.position.None? && Enter(r, bar, last, liquid, b).Ok? ==>
      Entries(Enter(r, bar, last, liquid, b).value) == Entries(b)
    ensures Manage(r, bar, last, b).Ok? ==> Entries(Manage(r, bar, last, b).value.book) == Entries(b)
    ensures b.pending.None? ==>
      Entries(Finish(r, bar, last, fires, b)) == Entries(b) + if b.position.None? && !last && fires then 1 else 0
  {
    hide Fee;
  }

  lemma {:induction false} HistoryStep(ticks: seq<Tick>, n: nat)
    requires WellFormed(ticks) && 0 < n < |ticks| && ticks[n].origin != n
    ensures History(ticks, n) == History(ticks, n - 1) + [ticks[n].bar]
  {
    assert Joined(ticks, n);
    assert ticks[ticks[n].origin..n + 1] == ticks[ticks[n].origin..n] + [ticks[n]];
  }

  /** One candle keeps the order, arms at most one order, and leaves none open at the session's end. */
  lemma {:induction false} CandleOrderly(r: Rules, d: Definition, bar: Candle, last: bool, previous: Candle, history: seq<Candle>, run: Run)
    requires Timely(run.book, bar.start) && run.unresolved == []
    requires CandleStep(r, d, bar, last, previous, history, run).Ok?
    ensures
      var after := CandleStep(r, d, bar, last, previous, history, run).value;
      && Timely(after.book, bar.End())
      && (after.unresolved != [] ==> Halted(after, bar.End()) && after.book.pending.None?)
      && (after.unresolved == [] && last ==> after.book.position.None? && after.book.pending.None?)
      && (after.book.pending.Some? ==> EntrySignal(history, d))
      && Entries(after.book) == Entries(run.book) + if after.book.pending.Some? then 1 else 0
  {
    hide Enter, Manage, Finish, EntrySignal, ExitReference, Timely, Entries;
    TimelyParts(run.book, bar.start);
    var decided := run;
    if run.book.pending.Some? {
      decided := Decide(r, bar, last, previous, run).value;
      EnterTimely(r, bar, last, r.Liquid(previous.volume), run.book);
      EntriesKept(r, bar, last, r.Liquid(previous.volume), false, run.book);
    } else {
      TimelyLater(run.book, bar.start, bar.start + 1);
    }
    ManageTimely(r, bar, last, decided.book);
    EntriesKept(r, bar, last, false, false, decided.book);
    var managed := Manage(r, bar, last, decided.book).value;
    TimelyParts(decided.book, bar.start + 1);
    if managed.Going? {
      var fires := EntrySignal(history, d);
      FinishTimely(r, bar, last, fires, managed.book);
      EntriesKept(r, bar, last, false, fires, managed.book);
      FinishArms(r, bar, last, fires, managed.book);
    }
  }

  lemma {:induction false} TimelyParts(b: Book, now: int)
    requires Timely(b, now)
    ensures b.position.Some? ==> b.pending.None? && b.position.value.decided == b.position.value.entered < now
  {
  }

  /** One tick keeps the order. */
  lemma {:induction false} StepOrderly(r: Rules, d: Definition, ticks: seq<Tick>, n: nat, run: Run)
    requires WellFormed(ticks) && n < |ticks|
    requires Orderly(d, ticks, n, run) && run.unresolved == []
    requires Step(r, d, ticks, n, run).Ok?
    ensures Orderly(d, ticks, n + 1, Step(r, d, ticks, n, run).value)
  {
    hide CandleStep, EntrySignal, History, Timely, Entries;
    var t := ticks[n];
    if n > 0 { assert Joined(ticks, n); }
    if t.origin == n && n > 0 { TimelyLater(run.book, Reached(ticks, n), t.bar.start); }
    CandleOrderly(r, d, t.bar, t.Last(), if n > 0 then ticks[n - 1].bar else t.bar, History(ticks, n), run);
    if run.book.pending.Some? {
      HistoryStep(ticks, n);
      NeverFiresTwiceRunning(History(ticks, n), d);
      assert History(ticks, n)[..|History(ticks, n)| - 1] == History(ticks, n - 1);
    }
  }

  lemma {:induction false} FinishArms(r: Rules, bar: Candle, last: bool, fires: bool, b: Book)
    requires b.pending.None?
    ensures Finish(r, bar, last, fires, b).position == b.position
    ensures Finish(r, bar, last, fires, b).pending.Some? <==> b.position.None? && !last && fires
  {
  }

  /** Every run is orderly after any number of ticks. */
  lemma {:induction false} RunOrderly(r: Rules, d: Definition, ticks: seq<Tick>, n: nat)
    requires WellFormed(ticks) && n <= |ticks| && |ticks| > 0
    requires RunTo(r, d, ticks, n).Ok?
    ensures Orderly(d, ticks, n, RunTo(r, d, ticks, n).value)
  {
    hide Step, EntrySignal;
    if n > 0 {
      RunOrderly(r, d, ticks, n - 1);
      var before := RunTo(r, d, ticks, n - 1).value;
      if before.unresolved == [] {
        StepOrderly(r, d, ticks, n - 1, before);
      } else {
        if n > 1 { assert Joined(ticks, n - 1); }
        TimelyLater(before.book, Reached(ticks, n - 1), Reached(ticks, n));
      }
    }
  }

  // ----- where entries and exits sit -----

  ghost predicate Priced(r: Rules, at: int) {
    r.costs.Effective(r.costs.PricingDate(at))
  }

  /** Candle m of the run is where an entry was filled: not its session's first, at its open. */
  ghost predicate EntrySpot(r: Rules, ticks: seq<Tick>, n: nat, at: int, entry: real, m: nat)
    requires n <= |ticks|
  {
    0 < m < n && ticks[m].origin < m && ticks[m].bar.start == at && entry == r.BuyPrice(ticks[m].bar.open) && Priced(r, at)
  }

  /** Entered on candle m and left on candle x of the same session. */
  ghost predicate Spot(r: Rules, ticks: seq<Tick>, n: nat, at: int, entry: real, exit: int, m: nat, x: nat)
    requires n <= |ticks|
  {
    EntrySpot(r, ticks, n, at, entry, m) && m <= x < n && ticks[x].origin == ticks[m].origin && ticks[x].bar.End() == exit &&
    Priced(r, ticks[x].bar.start)
  }

  ghost predicate TradePlaced(r: Rules, ticks: seq<Tick>, n: nat, t: Trade)
    requires n <= |ticks|
  {
    t.quantity == r.settings.quantity && 0.0 < r.Worth(t.exit) && Stayed(r, ticks, n, t.entryAt, t.entry, t.exitAt)
  }

  ghost predicate UnresolvedPlaced(r: Rules, ticks: seq<Tick>, n: nat, u: Unresolved)
    requires n <= |ticks|
  {
    u.quantity == r.settings.quantity && Stayed(r, ticks, n, u.entryAt, u.entry, u.exitAt)
  }

  /** Held from some candle to some candle of one session. */
  ghost predicate Stayed(r: Rules, ticks: seq<Tick>, n: nat, at: int, entry: real, exit: int)
    requires n <= |ticks|
  {
    exists m, x :: Spot(r, ticks, n, at, entry, exit, m, x)
  }

  ghost predicate Refused(ticks: seq<Tick>, n: nat, at: int)
    requires n <= |ticks|
  {
    exists m :: 0 < m < n && ticks[m].origin < m && ticks[m].bar.start == at
  }

  ghost predicate Placed(r: Rules, ticks: seq<Tick>, n: nat, run: Run)
    requires n <= |ticks|
  {
    && (forall t :: t in run.book.trades ==> TradePlaced(r, ticks, n, t))
    && (forall at :: at in run.book.noFills ==> Refused(ticks, n, at))
    && (forall u :: u in run.unresolved ==> UnresolvedPlaced(r, ticks, n, u))
    && (run.book.position.Some? && run.unresolved == [] ==> n > 0 && exists m :: HeldFrom(r, ticks, n, run.book.position.value, m))
  }

  ghost predicate HeldFrom(r: Rules, ticks: seq<Tick>, n: nat, p: Position, m: nat)
    requires 0 < n <= |ticks|
  {
    EntrySpot(r, ticks, n, p.entered, p.entry, m) && ticks[m].origin == ticks[n - 1].origin
  }

  lemma {:induction false} RunPlaced(r: Rules, d: Definition, ticks: seq<Tick>, n: nat)
    requires WellFormed(ticks) && n <= |ticks| && |ticks| > 0
    requires RunTo(r, d, ticks, n).Ok?
    ensures Placed(r, ticks, n, RunTo(r, d, ticks, n).value)
  {
    hide Step, EntrySignal;
    if n > 0 {
      RunPlaced(r, d, ticks, n - 1);
      RunOrderly(r, d, ticks, n - 1);
      var before := RunTo(r, d, ticks, n - 1).value;
      if before.unresolved == [] {
        StepPlaced(r, d, ticks, n - 1, before);
      } else {
        SpotLater(r, ticks, n - 1, before);
      }
    }
  }

  lemma {:induction false} SpotLater(r: Rules, ticks: seq<Tick>, n: nat, run: Run)
    requires n < |ticks| && Placed(r, ticks, n, run)
    ensures forall t :: t in run.book.trades ==> TradePlaced(r, ticks, n + 1, t)
    ensures forall at :: at in run.book.noFills ==> Refused(ticks, n + 1, at)
    ensures forall u :: u in run.unresolved ==> UnresolvedPlaced(r, ticks, n + 1, u)
  {
    forall t | t in run.book.trades ensures TradePlaced(r, ticks, n + 1, t) {
      assert TradePlaced(r, ticks, n, t);
      var m, x :| Spot(r, ticks, n, t.entryAt, t.entry, t.exitAt, m, x);
      assert Spot(r, ticks, n + 1, t.entryAt, t.entry, t.exitAt, m, x);
    }
    forall u | u in run.unresolved ensures UnresolvedPlaced(r, ticks, n + 1, u) {
      assert UnresolvedPlaced(r, ticks, n, u);
      var m, x :| Spot(r, ticks, n, u.entryAt, u.entry, u.exitAt, m, x);
      assert Spot(r, ticks, n + 1, u.entryAt, u.entry, u.exitAt, m, x);
    }
  }

  /** What deciding an order changes. */
  lemma {:induction false} DecidedEffects(r: Rules, bar: Candle, last: bool, previous: Candle, run: Run)
    requires run.book.position.Some? ==> run.book.pending.None?
    requires Decided(r, bar, last, previous, run).Ok?
    ensures
      var after := Decided(r, bar, last, previous, run).value;
      && after.book.trades == run.book.trades && after.unresolved == run.unresolved && after.book.pending.None?
      && (run.book.pending.None? ==> after == run)
      && (run.book.pending.Some? ==> Priced(r, bar.start))
      && (after.book.noFills == run.book.noFills || (run.book.pending.Some? && after.book.noFills == run.book.noFills + [bar.start]))
      && (after.book.position.Some? ==>
            after.book.position == run.book.position ||
            (run.book.pending.Some? && after.book.position.value.entered == bar.start &&
             after.book.position.value.decided == run.book.pending.value &&
             after.book.position.value.entry == r.BuyPrice(bar.open)))
  {
  }

  /** What managing a position changes. */
  lemma {:induction false} ManageEffects(r: Rules, bar: Candle, last: bool, b: Book)
    requires Manage(r, bar, last, b).Ok?
    ensures
      var m := Manage(r, bar, last, b).value;
      && m.book.noFills == b.noFills && m.book.pending == b.pending
      && (b.position.Some? ==> Priced(r, bar.start))
      && (m.Stuck? ==> b.position.Some? && m.book.position == b.position)
      && (m.book.position == b.position ==> m.book.trades == b.trades && m.book.cash == b.cash && m.book.peak == b.peak)
      && (m.book.position != b.position ==>
            b.position.Some? && m.book.position.None? && |m.book.trades| == |b.trades| + 1 &&
            m.book.trades[..|b.trades|] == b.trades &&
            var t := m.book.trades[|b.trades|];
            t.entryAt == b.position.value.entered && t.entry == b.position.value.entry && t.exitAt == bar.End() &&
            t.signalAt == b.position.value.decided && t.quantity == r.settings.quantity && 0.0 < r.Worth(t.exit))
  {
  }

  lemma {:induction false} StepPlaced(r: Rules, d: Definition, ticks: seq<Tick>, n: nat, run: Run)
    requires WellFormed(ticks) && n < |ticks| && run.unresolved == []
    requires Orderly(d, ticks, n, run) && Placed(r, ticks, n, run)
    requires Step(r, d, ticks, n, run).Ok?
    ensures Placed(r, ticks, n + 1, Step(r, d, ticks, n, run).value)
  {
    hide Decided, Manage, EntrySignal, History, Timely, Entries, Placed;
    var t := ticks[n];
    if n > 0 { assert Joined(ticks, n); }
    TimelyParts(run.book, Reached(ticks, n));
    var previous := if n > 0 then ticks[n - 1].bar else t.bar;
    var decided := Decided(r, t.bar, t.Last(), previous, run).value;
    DecidedEffects(r, t.bar, t.Last(), previous, run);
    DecidedPlaced(r, ticks, n, run, decided);
    var managed := Manage(r, t.bar, t.Last(), decided.book).value;
    ManageEffects(r, t.bar, t.Last(), decided.book);
    ManagedPlaced(r, ticks, n, decided, managed, Step(r, d, ticks, n, run).value);
  }

  lemma {:induction false} DecidedPlaced(r: Rules, ticks: seq<Tick>, n: nat, run: Run, decided: Run)
    requires WellFormed(ticks) && n < |ticks| && run.unresolved == [] && Placed(r, ticks, n, run)
    requires decided.book.trades == run.book.trades && decided.unresolved == run.unresolved
    requires run.book.pending.Some? || run.book.position.Some? ==> n > 0 && !ticks[n - 1].Last()
    requires run.book.pending.Some? ==> Priced(r, ticks[n].bar.start)
    requires decided.book.noFills == run.book.noFills ||
             (run.book.pending.Some? && decided.book.noFills == run.book.noFills + [ticks[n].bar.start])
    requires decided.book.position.Some? ==>
      decided.book.position == run.book.position ||
      (run.book.pending.Some? && decided.book.position.value.entered == ticks[n].bar.start &&
       decided.book.position.value.entry == r.BuyPrice(ticks[n].bar.open))
    ensures Placed(r, ticks, n + 1, decided)
  {
    SpotLater(r, ticks, n, run);
    if n > 0 { assert Joined(ticks, n); }
    forall at | at in decided.book.noFills ensures Refused(ticks, n + 1, at) {
      if at !in run.book.noFills { assert 0 < n < n + 1 && ticks[n].origin < n; }
    }
    if decided.book.position.Some? {
      var p := decided.book.position.value;
      if decided.book.position == run.book.position {
        var m :| HeldFrom(r, ticks, n, p, m);
        assert HeldFrom(r, ticks, n + 1, p, m);
      } else {
        assert HeldFrom(r, ticks, n + 1, p, n);
      }
    }
  }

  lemma {:induction false} ManagedPlaced(r: Rules, ticks: seq<Tick>, n: nat, decided: Run, m: Managed, after: Run)
    requires n < |ticks| && decided.unresolved == [] && Placed(r, ticks, n + 1, decided)
    requires decided.book.position.Some? ==> Priced(r, ticks[n].bar.start)
    requires after.book.trades == m.book.trades && after.book.noFills == m.book.noFills && after.book.position == m.book.position
    requires m.book.noFills == decided.book.noFills
    requires m.Going? ==> after.unresolved == []
    requires m.Stuck? ==>
      decided.book.position.Some? && m.book.position == decided.book.position &&
      after.unresolved == [UnresolvedOf(r, ticks[n].bar, m.book.position.value, m.reason)]
    requires m.book.position == decided.book.position ==> m.book.trades == decided.book.trades
    requires m.book.position != decided.book.position ==>
      decided.book.position.Some? && m.book.position.None? && |m.book.trades| == |decided.book.trades| + 1 &&
      m.book.trades[..|decided.book.trades|] == decided.book.trades &&
      var t := m.book.trades[|decided.book.trades|];
      t.entryAt == decided.book.position.value.entered && t.entry == decided.book.position.value.entry &&
      t.exitAt == ticks[n].bar.End() && t.quantity == r.settings.quantity && 0.0 < r.Worth(t.exit)
    ensures Placed(r, ticks, n + 1, after)
  {
    if decided.book.position.Some? && (m.Stuck? || m.book.position != decided.book.position) {
      var p := decided.book.position.value;
      var e :| HeldFrom(r, ticks, n + 1, p, e);
      assert Spot(r, ticks, n + 1, p.entered, p.entry, ticks[n].bar.End(), e, n);
    }
    forall t | t in after.book.trades ensures TradePlaced(r, ticks, n + 1, t) {
      if t !in decided.book.trades {
        assert t == m.book.trades[|decided.book.trades|];
      }
    }
  }

  // ----- what an accepted series yields -----

  /** Entries of an execution never overlap: trades follow one another, refusals fall between them,
      and an unresolved position comes after everything. */
  ghost predicate Chronological(e: Execution) {
    && (forall i :: 0 <= i < |e.trades| ==> e.trades[i].signalAt == e.trades[i].entryAt < e.trades[i].exitAt)
    && (forall i, j :: 0 <= i < j < |e.trades| ==> e.trades[i].exitAt <= e.trades[j].entryAt)
    && (forall i, j :: 0 <= i < j < |e.noFills| ==> e.noFills[i] < e.noFills[j])
    && (forall i, j :: 0 <= i < |e.trades| && 0 <= j < |e.noFills| ==>
          e.noFills[j] < e.trades[i].entryAt || e.trades[i].exitAt <= e.noFills[j])
    && |e.unresolved| <= 1
    && (forall u :: u in e.unresolved ==>
          && u.signalAt == u.entryAt < u.exitAt
          && (forall i :: 0 <= i < |e.trades| ==> e.trades[i].exitAt <= u.entryAt)
          && (forall j :: 0 <= j < |e.noFills| ==> e.noFills[j] < u.entryAt))
  }

  /** Every execution of a valid series is chronological, and arms at most one order for every
      two candles: with at most 30000 candles, at most 15000 entries. */
  lemma {:induction false} ExecutionsAreChronological(series: PriceSeries, d: Definition, settings: Settings, costs: Schedule)
    requires series.Valid() && settings.Valid()
    requires Executed(series, d, settings, costs).Ok?
    ensures
      var e := Executed(series, d, settings, costs).value;
      Chronological(e) && |e.trades| + |e.noFills| + |e.unresolved| <= 15000
  {
    hide *;
    var r, ticks := RulesOf(settings, costs, d.stop, d.target), AllTicks(series);
    ExecutedOpens(series, d, settings, costs);
    SeriesTicks(series);
    RunOrderly(r, d, ticks, |ticks|);
    OrderlyChronological(r, d, ticks, RunTo(r, d, ticks, |ticks|).value);
  }

  /** What acceptance of a series comes to. */
  lemma {:induction false} ExecutedOpens(series: PriceSeries, d: Definition, settings: Settings, costs: Schedule)
    requires series.Valid() && settings.Valid() && Executed(series, d, settings, costs).Ok?
    ensures Complete(series) && series.sessions != [] && |series.bars| <= 30000
    ensures
      var r, ticks := RulesOf(settings, costs, d.stop, d.target), AllTicks(series);
      && RunTo(r, d, ticks, |ticks|).Ok? && 0.0 < r.settings.capital
      && Executed(series, d, settings, costs).value == ExecutionOf(r, RunTo(r, d, ticks, |ticks|).value)
  {
    hide RunTo, Ticks, ExecutionOf, PriceSeries.Valid;
  }

  /** An orderly run is a chronological execution. */
  lemma {:induction false} OrderlyChronological(r: Rules, d: Definition, ticks: seq<Tick>, run: Run)
    requires |ticks| > 0 && 0.0 < r.settings.capital && Orderly(d, ticks, |ticks|, run)
    ensures
      var e := ExecutionOf(r, run);
      Chronological(e) && 2 * (|e.trades| + |e.noFills| + |e.unresolved|) <= |ticks| + 1
  {
    hide EntrySignal, MetricsOf, History;
  }

  lemma {:induction false} SeriesTicks(series: PriceSeries)
    requires series.Valid() && Complete(series) && series.sessions != []
    ensures WellFormed(AllTicks(series)) && 0 < |AllTicks(series)| <= |series.bars|
  {
    CompleteCovers(series);
    TicksWellFormed(series, |series.sessions|);
    TickCount(series);
  }

  /** Every position is opened at the open of a candle that is not its session's first, is closed on
      a candle of the same session, and both are priced by a tariff in force. */
  lemma {:induction false} ExecutionsArePlaced(series: PriceSeries, d: Definition, settings: Settings, costs: Schedule)
    requires series.Valid() && settings.Valid()
    requires Executed(series, d, settings, costs).Ok?
    ensures
      var e, r, ticks := Executed(series, d, settings, costs).value, RulesOf(settings, costs, d.stop, d.target), AllTicks(series);
      && (forall t :: t in e.trades ==> TradePlaced(r, ticks, |ticks|, t))
      && (forall at :: at in e.noFills ==> Refused(ticks, |ticks|, at))
      && (forall u :: u in e.unresolved ==> UnresolvedPlaced(r, ticks, |ticks|, u))
  {
    hide RunTo, Ticks;
    var r, ticks := RulesOf(settings, costs, d.stop, d.target), AllTicks(series);
    SeriesTicks(series);
    RunPlaced(r, d, ticks, |ticks|);
  }
}
