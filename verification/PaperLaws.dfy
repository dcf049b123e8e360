/** What a paper run may open: the greatest quantity every limit allows, and nothing on a date that has lost as much
    as the policy allows. */
module PaperLaws {
  import opened Wrappers
  import opened Clock
  import opened Costs
  import opened Series
  import opened Strategies
  import opened Executor
  import opened Sizing
  import opened Audit
  import opened Paper
  import opened PaperStory
  import PaperRun

  function At(p: Plan, cs: seq<Candidate>, n: nat): Standing
    requires n <= |cs| && !p.risk.HasGaps()
  {
    Story(p, cs, n).standing
  }

  /** The run comes to candidate n and opens a position for it. */
  predicate Taken(p: Plan, cs: seq<Candidate>, n: nat)
    requires n < |cs| && !p.risk.HasGaps()
  {
    !At(p, cs, n).halted && Opens(p, cs[n], At(p, cs, n))
  }

  /** A plan of valid parts. */
  ghost predicate Sensible(p: Plan) {
    && p.settings.Valid() && p.costs.Valid() && p.d.Valid() && p.risk.Valid() && !p.risk.HasGaps() && Sound(p.series.bars)
  }

  // ----- sizes -----

  /** The sizing question of candidate n, on the cash at hand and the volume observed before it. */
  function Question(p: Plan, cs: seq<Candidate>, n: nat): Order
    requires n < |cs| && cs[n].held.Some? && !p.risk.HasGaps()
  {
    p.OrderOf(cs[n], At(p, cs, n).cash)
  }

  /** A quantity that every limit allows, and no limit allows more. */
  ghost predicate Greatest(o: Order, q: int)
    requires !o.risk.HasGaps()
  {
    o.Answerable() && o.Feasible(q) && forall k :: k > q ==> !o.Feasible(k)
  }

  lemma {:induction false} QuestionValid(p: Plan, cs: seq<Candidate>, n: nat)
    requires Sensible(p) && n < |cs| && cs[n].held.Some? && Grounded(p.series, p.costs, cs[n])
    ensures Question(p, cs, n).Valid() && !Question(p, cs, n).risk.HasGaps()
  {
    hide Story, Grounded, Order.Valid;
    PaperRun.PlanReads(p, cs[n], At(p, cs, n).cash);
  }

  /** The run opens a position exactly when the date has not lost too much and some quantity is within every limit. */
  lemma {:induction false} TakenExactly(p: Plan, cs: seq<Candidate>, n: nat)
    requires Sensible(p) && n < |cs| && cs[n].held.Some? && Grounded(p.series, p.costs, cs[n]) && !At(p, cs, n).halted
    ensures
      var o := Question(p, cs, n);
      Taken(p, cs, n) <==> !DayLost(p, cs[n], At(p, cs, n)) && o.Answerable() && exists q :: q >= 1 && o.Feasible(q)
    ensures Taken(p, cs, n) ==> Greatest(Question(p, cs, n), Sized(Question(p, cs, n)))
  {
    var o := Question(p, cs, n);
    QuestionValid(p, cs, n);
    FeasibleExists(o);
    hide Story, DayLost, Grounded, Plan.OrderOf, Order.Valid, Order.Feasible;
  }

  lemma {:induction false} FeasibleExists(o: Order)
    requires o.Valid() && !o.risk.HasGaps()
    ensures Sized(o) >= 1 <==> o.Answerable() && exists q :: q >= 1 && o.Feasible(q)
    ensures Sized(o) >= 1 ==> Greatest(o, Sized(o))
  {
    if o.Answerable() { SizedIsGreatest(o); }
    hide Order.Feasible, Order.Valid, GreatestUpTo;
  }

  // ----- rows -----

  predicate Commits(e: Entry) { e.state == PAPER_ORDER_ACCEPTED || e.state == PAPER_FILLED }

  /** A row of candidate n: taken, on its own date's means, at the greatest quantity. */
  ghost predicate OpenedBy(p: Plan, cs: seq<Candidate>, n: nat, e: Entry)
    requires !p.risk.HasGaps()
  {
    && n < |cs| && cs[n].held.Some? && Taken(p, cs, n) && !DayLost(p, cs[n], At(p, cs, n))
    && Greatest(Question(p, cs, n), Sized(Question(p, cs, n)))
    && e.signal == p.Signal(cs[n]) && e.at == cs[n].at
    && QUANTITY in e.values && e.values[QUANTITY] == Number(Sized(Question(p, cs, n)))
    && (e.state == PAPER_FILLED ==> PRICE in e.values && e.values[PRICE] == Amount(cs[n].held.value.entry))
  }

  lemma {:induction false} OrderingCommits(signal: string, at: int, quantity: int, liquidityStart: int, e: Entry)
    requires e in Ordering(signal, at, quantity, liquidityStart)
    ensures e.signal == signal && e.at == at && QUANTITY in e.values && e.values[QUANTITY] == Number(quantity) && e.state != PAPER_FILLED
  {
  }

  lemma {:induction false} FillingCommits(signal: string, at: int, entry: real, quantity: int, liquidityStart: int, costs: Schedule, cash: real, e: Entry)
    requires e in Filling(signal, at, entry, quantity, liquidityStart, costs, cash)
    ensures e.signal == signal && e.at == at && QUANTITY in e.values && e.values[QUANTITY] == Number(quantity)
    ensures e.state == PAPER_FILLED ==> PRICE in e.values && e.values[PRICE] == Amount(entry)
  {
    hide Bought, BuyCost, Worth;
  }

  lemma {:induction false} LeavingCommitsNothing(signal: string, h: Held, quantity: int, exitVolume: int, settings: Settings, costs: Schedule, cash: real, e: Entry)
    requires e in Leaving(signal, h, quantity, exitVolume, settings, costs, cash)
    ensures !Commits(e)
  {
    hide Sold, Leaves, SellCost, Worth, ReasonText;
  }

  /** Only trades commit, and at the quantity they were given. */
  lemma {:induction false} TradingCommits(p: Plan, c: Candidate, quantity: int, cash: real, e: Entry)
    requires c.held.Some? && e in Trading(p, c, quantity, cash) && Commits(e)
    ensures e.signal == p.Signal(c) && e.at == c.at && QUANTITY in e.values && e.values[QUANTITY] == Number(quantity)
    ensures e.state == PAPER_FILLED ==> PRICE in e.values && e.values[PRICE] == Amount(c.held.value.entry)
  {
    hide Plan.Signal, Plan.Liquidity, Plan.ExitVolume, Bought, Ordering, Filling, Leaving;
    var h, signal, liquidity := c.held.value, p.Signal(c), p.Liquidity(c).start;
    if e in Ordering(signal, c.at, quantity, liquidity) {
      OrderingCommits(signal, c.at, quantity, liquidity, e);
    } else if e in Filling(signal, c.at, h.entry, quantity, liquidity, p.costs, cash) {
      FillingCommits(signal, c.at, h.entry, quantity, liquidity, p.costs, cash, e);
    } else if e in Leaving(signal, h, quantity, p.ExitVolume(h), p.settings, p.costs, Bought(p.costs, h.entry, quantity, cash)) {
      LeavingCommitsNothing(signal, h, quantity, p.ExitVolume(h), p.settings, p.costs, Bought(p.costs, h.entry, quantity, cash), e);
    }
  }

  lemma {:induction false} RefusalCommitsNothing(signal: string, received: int, at: int, reason: string, cash: real, e: Entry)
    requires e in Refusal(signal, received, at, reason, cash)
    ensures !Commits(e)
  {
  }

  lemma {:induction false} EntriesCommit(p: Plan, cs: seq<Candidate>, n: nat, e: Entry)
    requires Sensible(p) && n < |cs| && (cs[n].held.Some? ==> Grounded(p.series, p.costs, cs[n])) && !At(p, cs, n).halted
    requires e in EntriesFor(p, cs[n], At(p, cs, n)) && Commits(e)
    ensures OpenedBy(p, cs, n, e)
  {
    NoGaps(p);
    hide Story, Trading, Refusal, DayLost, Grounded, Plan.OrderOf, Plan.Signal, Greatest, Sized, Commits, Sensible;
    var c, at := cs[n], At(p, cs, n);
    if c.held.None? {
      RefusalCommitsNothing(p.Signal(c), c.at, c.at, "ENTRY_LIMIT_OR_LIQUIDITY", at.cash, e);
    } else if Denied(p, c, at).Some? {
      RefusalCommitsNothing(p.Signal(c), c.held.value.signalAt, c.at, Denied(p, c, at).value, at.cash, e);
    } else {
      TradingCommits(p, c, Sized(p.OrderOf(c, at.cash)), at.cash, e);
      TakenExactly(p, cs, n);
    }
  }

  lemma {:induction false} NoGaps(p: Plan)
    requires Sensible(p)
    ensures !p.risk.HasGaps()
  {
  }

  /** Every order accepted and every fill recorded is one of a candidate whose date had not lost too much, at the
      greatest quantity within all limits. */
  lemma {:induction false} StoryCommits(p: Plan, cs: seq<Candidate>, n: nat, e: Entry) returns (k: nat)
    requires Sensible(p) && n <= |cs| && forall c :: c in cs ==> Grounded(p.series, p.costs, c)
    requires e in Story(p, cs, n).entries && Commits(e)
    ensures k < n && OpenedBy(p, cs, k, e)
  {
    hide EntriesFor, Next, OpenedBy, Commits, Grounded;
    var before := Story(p, cs, n - 1);
    if e in before.entries {
      k := StoryCommits(p, cs, n - 1, e);
    } else {
      k := n - 1;
      EntriesCommit(p, cs, k, e);
    }
  }

  /** So it is in the log of every paper run. */
  lemma {:induction false} RunsCommit(b: Binding, p: Plan, refusals: seq<string>, halt: bool, e: Entry) returns (cs: seq<Candidate>, k: nat)
    requires p.series.Valid() && p.settings.Valid() && p.costs.Valid() && p.d.Valid() && p.risk.Valid()
    requires refusals == [] ==> !p.risk.HasGaps()
    requires e in Recorded(b, p, refusals, halt).0 && Commits(e)
    ensures refusals == [] && !halt
    ensures Executed(p.series, p.d, UnitSettings(p.settings), p.costs).Ok?
    ensures cs == SortedByTime(Candidates(Executed(p.series, p.d, UnitSettings(p.settings), p.costs).value))
    ensures OpenedBy(p, cs, k, e)
  {
    hide Executed, Story, OpenedBy, SortedByTime, Candidates, PriceSeries.CalendarKnown, Semicolons;
    var result := Executed(p.series, p.d, UnitSettings(p.settings), p.costs);
    assert refusals == [] && !halt && result.Ok?;
    cs := SortedByTime(Candidates(result.value));
    PaperRun.SortedCandidates(p.series, p.d, p.settings, p.costs, result.value);
    k := StoryCommits(p, cs, |cs|, e);
  }

  // ----- the daily loss -----

  /** The first position due on its date. */
  ghost predicate FirstDue(cs: seq<Candidate>, i: nat) {
    && i < |cs| && cs[i].held.Some?
    && forall k :: 0 <= k < i && cs[k].held.Some? ==> DateOf(cs[k].at) != DateOf(cs[i].at)
  }

  ghost predicate SameDate(cs: seq<Candidate>, i: nat, n: nat) {
    i <= n < |cs| && DateOf(cs[i].at) == DateOf(cs[n].at)
  }

  lemma {:induction false} DatesBetween(cs: seq<Candidate>, i: nat, m: nat, n: nat)
    requires InOrderOfTime(cs) && SameDate(cs, i, n) && i <= m <= n
    ensures SameDate(cs, i, m)
  {
    hide DateOf;
    assert (i < m ==> cs[i].at <= cs[m].at) && (m < n ==> cs[m].at <= cs[n].at);
    LaterDate(cs[i].at, cs[m].at);
    LaterDate(cs[m].at, cs[n].at);
  }

  lemma {:induction false} LaterDate(a: int, b: int)
    requires a <= b
    ensures DateOf(a) <= DateOf(b)
  {
  }

  /** The date a run is on is that of a position it came to. */
  lemma {:induction false} DayIsDue(p: Plan, cs: seq<Candidate>, n: nat)
    requires n <= |cs| && !p.risk.HasGaps() && At(p, cs, n).day.Some?
    ensures exists k :: 0 <= k < n && cs[k].held.Some? && DateOf(cs[k].at) == At(p, cs, n).day.value
  {
    hide DateOf, EntriesFor, Denied, Sold, Bought, Leaves, Opens;
    if At(p, cs, n - 1).day == At(p, cs, n).day {
      DayIsDue(p, cs, n - 1);
    } else {
      assert cs[n - 1].held.Some?;
    }
  }

  /** From the first position due on a date to the last, the date began at the cash of the first. */
  lemma {:induction false} DayBegan(p: Plan, cs: seq<Candidate>, i: nat, n: nat)
    requires InOrderOfTime(cs) && !p.risk.HasGaps() && FirstDue(cs, i) && SameDate(cs, i, n) && !At(p, cs, n).halted
    ensures !At(p, cs, i).halted
    ensures Dawned(cs[n], At(p, cs, n)).dayStartCash == At(p, cs, i).cash
    ensures i < n ==> At(p, cs, n).day == Some(DateOf(cs[i].at)) && At(p, cs, n).dayStartCash == At(p, cs, i).cash
  {
    hide DateOf, Story, InOrderOfTime;
    if i == n {
      if At(p, cs, i).day == Some(DateOf(cs[i].at)) { DayIsDue(p, cs, i); }
    } else {
      DatesBetween(cs, i, n - 1, n);
      GoesOn(p, cs, n);
      DayBegan(p, cs, i, n - 1);
      NextDay(p, cs[n - 1], At(p, cs, n - 1));
    }
  }

  lemma {:induction false} GoesOn(p: Plan, cs: seq<Candidate>, n: nat)
    requires 0 < n <= |cs| && !p.risk.HasGaps()
    ensures At(p, cs, n - 1).halted ==> At(p, cs, n) == At(p, cs, n - 1)
    ensures !At(p, cs, n - 1).halted ==> At(p, cs, n) == Next(p, cs[n - 1], At(p, cs, n - 1))
  {
    hide Next, EntriesFor;
  }

  lemma {:induction false} NextDay(p: Plan, c: Candidate, at: Standing)
    requires !p.risk.HasGaps()
    ensures
      var next, dawned := Next(p, c, at), if c.held.Some? then Dawned(c, at) else at;
      && next.day == dawned.day && next.dayStartCash == dawned.dayStartCash
      && (!Opens(p, c, at) ==> next == dawned)
    ensures Dawned(c, at).cash == at.cash && Dawned(c, at).halted == at.halted
  {
    hide Denied, Sold, Bought, Leaves, Sized, DateOf;
  }

  /** The daily-loss guard: if the cash at some candidate is below the cash with which its date began by the policy's
      daily loss or more, the run opens nothing more on that date, and its cash stays as it is. */
  lemma {:induction false} DailyLossGuard(p: Plan, cs: seq<Candidate>, i: nat, j: nat, n: nat)
    requires InOrderOfTime(cs) && !p.risk.HasGaps() && FirstDue(cs, i) && i <= j <= n && SameDate(cs, i, n)
    requires At(p, cs, i).cash - At(p, cs, j).cash >= p.risk.dailyLoss.value
    ensures !Taken(p, cs, n) && At(p, cs, n).cash == At(p, cs, j).cash
  {
    hide DateOf, Story, InOrderOfTime, Opens, FirstDue, Next;
    if j < n {
      DatesBetween(cs, i, n - 1, n);
      DailyLossGuard(p, cs, i, j, n - 1);
      GoesOn(p, cs, n);
      NextDay(p, cs[n - 1], At(p, cs, n - 1));
    }
    if !At(p, cs, n).halted {
      DayBegan(p, cs, i, n);
      LostDenies(p, cs[n], At(p, cs, n));
    }
  }

  lemma {:induction false} LostDenies(p: Plan, c: Candidate, at: Standing)
    requires !p.risk.HasGaps()
    ensures Dawned(c, at).dayStartCash - at.cash >= p.risk.dailyLoss.value ==> !Opens(p, c, at)
  {
    hide Dawned, Sized;
  }

  /** So at every position it opens, the date's loss so far is below the daily loss. */
  lemma {:induction false} OpenedWithinDailyLoss(p: Plan, cs: seq<Candidate>, i: nat, n: nat)
    requires InOrderOfTime(cs) && !p.risk.HasGaps() && FirstDue(cs, i) && SameDate(cs, i, n) && Taken(p, cs, n)
    ensures forall j :: i <= j <= n ==> At(p, cs, i).cash - At(p, cs, j).cash < p.risk.dailyLoss.value
  {
    hide DateOf, Story, Opens, InOrderOfTime, FirstDue;
    forall j | i <= j <= n ensures At(p, cs, i).cash - At(p, cs, j).cash < p.risk.dailyLoss.value {
      if At(p, cs, i).cash - At(p, cs, j).cash >= p.risk.dailyLoss.value { DailyLossGuard(p, cs, i, j, n); }
    }
  }
}
