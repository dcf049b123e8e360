/** What each row of a paper run says, and that its cash column is the ledger so far. */
module PaperRows {
  import opened Wrappers
  import opened Texts
  import opened Clock
  import opened Costs
  import opened Series
  import opened Strategies
  import opened Executor
  import opened Sizing
  import opened Audit
  import opened Paper
  import opened PaperStory
  import opened PaperLaws
  import PaperRun

  // ----- the cash column -----

  /** The cash an entry moves: a fill pays price and fees, a close receives price less fees. */
  function MovedBy(e: Entry): real { PaperRun.Moved(e.state, e.values) }

  function FlowOf(es: seq<Entry>): real {
    if es == [] then 0.0 else FlowOf(es[..|es| - 1]) + MovedBy(es[|es| - 1])
  }

  /** Wherever an entry records cash, it is what was there before, moved by the entries up to it. */
  ghost predicate CashTold(es: seq<Entry>, start: real) {
    forall i :: 0 <= i < |es| && CASH in es[i].values && es[i].values[CASH].Amount? ==>
      es[i].values[CASH].r == start + FlowOf(es[..i + 1])
  }

  lemma {:induction false} FlowJoins(a: seq<Entry>, b: seq<Entry>)
    ensures FlowOf(a + b) == FlowOf(a) + FlowOf(b)
  {
    if b == [] {
      assert a + b == a;
    } else {
      assert (a + b)[..|a + b| - 1] == a + b[..|b| - 1];
      FlowJoins(a, b[..|b| - 1]);
    }
  }

  lemma {:induction false} CashJoins(a: seq<Entry>, b: seq<Entry>, start: real)
    requires CashTold(a, start) && CashTold(b, start + FlowOf(a))
    ensures CashTold(a + b, start)
  {
    hide FlowOf;
    var all := a + b;
    forall i | 0 <= i < |all| && CASH in all[i].values && all[i].values[CASH].Amount?
      ensures all[i].values[CASH].r == start + FlowOf(all[..i + 1])
    {
      if i < |a| {
        assert all[..i + 1] == a[..i + 1];
      } else {
        assert all[..i + 1] == a + b[..i - |a| + 1];
        FlowJoins(a, b[..i - |a| + 1]);
      }
    }
  }

  lemma {:induction false} One(e: Entry, start: real)
    requires CASH in e.values && e.values[CASH].Amount? ==> e.values[CASH].r == start + MovedBy(e)
    ensures CashTold([e], start) && FlowOf([e]) == MovedBy(e)
  {
    hide MovedBy;
    var es := [e];
    assert es[..0] == [] && es[..1] == es;
    forall i | 0 <= i < |es| && CASH in es[i].values && es[i].values[CASH].Amount?
      ensures es[i].values[CASH].r == start + FlowOf(es[..i + 1])
    {
      assert i == 0;
    }
  }

  lemma {:induction false} Two(a: Entry, b: Entry, start: real)
    requires CASH in a.values && a.values[CASH].Amount? ==> a.values[CASH].r == start + MovedBy(a)
    requires CASH in b.values && b.values[CASH].Amount? ==> b.values[CASH].r == start + MovedBy(a) + MovedBy(b)
    ensures CashTold([a, b], start) && FlowOf([a, b]) == MovedBy(a) + MovedBy(b)
  {
    hide MovedBy;
    One(a, start);
    One(b, start + MovedBy(a));
    CashJoins([a], [b], start);
    FlowJoins([a], [b]);
    assert [a] + [b] == [a, b];
  }

  lemma {:induction false} Three(a: Entry, b: Entry, c: Entry, start: real)
    requires MovedBy(a) == 0.0 && MovedBy(b) == 0.0 && MovedBy(c) == 0.0
    requires CASH in a.values && a.values[CASH].Amount? ==> a.values[CASH].r == start
    requires CASH in b.values && b.values[CASH].Amount? ==> b.values[CASH].r == start
    requires CASH in c.values && c.values[CASH].Amount? ==> c.values[CASH].r == start
    ensures CashTold([a, b, c], start) && FlowOf([a, b, c]) == 0.0
  {
    hide MovedBy;
    Two(a, b, start);
    One(c, start);
    CashJoins([a, b], [c], start);
    FlowJoins([a, b], [c]);
    assert [a, b] + [c] == [a, b, c];
  }

  lemma {:induction false} RefusalCash(signal: string, received: int, at: int, reason: string, cash: real)
    ensures CashTold(Refusal(signal, received, at, reason, cash), cash) && FlowOf(Refusal(signal, received, at, reason, cash)) == 0.0
  {
    var es := Refusal(signal, received, at, reason, cash);
    Three(es[0], es[1], es[2], cash);
  }

  lemma {:induction false} OrderingCash(signal: string, at: int, quantity: int, liquidityStart: int, cash: real)
    ensures CashTold(Ordering(signal, at, quantity, liquidityStart), cash) && FlowOf(Ordering(signal, at, quantity, liquidityStart)) == 0.0
  {
    var es := Ordering(signal, at, quantity, liquidityStart);
    Three(es[0], es[1], es[2], cash);
  }

  lemma {:induction false} FillingCash(signal: string, at: int, entry: real, quantity: int, liquidityStart: int, costs: Schedule, cash: real)
    ensures CashTold(Filling(signal, at, entry, quantity, liquidityStart, costs, cash), cash)
    ensures cash + FlowOf(Filling(signal, at, entry, quantity, liquidityStart, costs, cash)) == Bought(costs, entry, quantity, cash)
  {
    hide BuyCost;
    var es := Filling(signal, at, entry, quantity, liquidityStart, costs, cash);
    Two(es[0], es[1], cash);
  }

  lemma {:induction false} LeavingCash(signal: string, h: Held, quantity: int, exitVolume: int, settings: Settings, costs: Schedule, cash: real)
    ensures CashTold(Leaving(signal, h, quantity, exitVolume, settings, costs, cash), cash)
    ensures cash + FlowOf(Leaving(signal, h, quantity, exitVolume, settings, costs, cash)) == Sold(settings, costs, h, quantity, exitVolume, cash)
  {
    hide SellCost, ReasonText;
    var es := Leaving(signal, h, quantity, exitVolume, settings, costs, cash);
    Two(es[0], es[1], cash);
  }

  lemma {:induction false} ReceivedCash(signal: string, received: int, at: int, cash: real)
    ensures
      var es := [Noted(signal, SIGNAL_RECEIVED, received, map[]), Noted(signal, ELIGIBILITY_CHECKED, at, map[])];
      CashTold(es, cash) && FlowOf(es) == 0.0
  {
    Two(Noted(signal, SIGNAL_RECEIVED, received, map[]), Noted(signal, ELIGIBILITY_CHECKED, at, map[]), cash);
  }

  lemma {:induction false} TradingCash(p: Plan, c: Candidate, quantity: int, cash: real)
    requires c.held.Some?
    ensures CashTold(Trading(p, c, quantity, cash), cash)
    ensures
      cash + FlowOf(Trading(p, c, quantity, cash)) ==
      Sold(p.settings, p.costs, c.held.value, quantity, p.ExitVolume(c.held.value), Bought(p.costs, c.held.value.entry, quantity, cash))
  {
    hide *;
    var h, signal, liquidity := c.held.value, p.Signal(c), p.Liquidity(c).start;
    var after := Bought(p.costs, h.entry, quantity, cash);
    var a := [Noted(signal, SIGNAL_RECEIVED, h.signalAt, map[]), Noted(signal, ELIGIBILITY_CHECKED, c.at, map[])];
    var b := Ordering(signal, c.at, quantity, liquidity);
    var f := Filling(signal, c.at, h.entry, quantity, liquidity, p.costs, cash);
    var l := Leaving(signal, h, quantity, p.ExitVolume(h), p.settings, p.costs, after);
    TradingIs(p, c, quantity, cash);
    ReceivedCash(signal, h.signalAt, c.at, cash);
    OrderingCash(signal, c.at, quantity, liquidity, cash);
    FillingCash(signal, c.at, h.entry, quantity, liquidity, p.costs, cash);
    LeavingCash(signal, h, quantity, p.ExitVolume(h), p.settings, p.costs, after);
    FlowJoins(a, b);
    FlowJoins(a + b, f);
    FlowJoins(a + b + f, l);
    CashJoins(a, b, cash);
    CashJoins(a + b, f, cash);
    CashJoins(a + b + f, l, cash);
  }

  lemma {:induction false} TradingIs(p: Plan, c: Candidate, quantity: int, cash: real)
    requires c.held.Some?
    ensures
      var h, signal, liquidity := c.held.value, p.Signal(c), p.Liquidity(c).start;
      Trading(p, c, quantity, cash) ==
      [Noted(signal, SIGNAL_RECEIVED, h.signalAt, map[]), Noted(signal, ELIGIBILITY_CHECKED, c.at, map[])]
      + Ordering(signal, c.at, quantity, liquidity) + Filling(signal, c.at, h.entry, quantity, liquidity, p.costs, cash)
      + Leaving(signal, h, quantity, p.ExitVolume(h), p.settings, p.costs, Bought(p.costs, h.entry, quantity, cash))
  {
    hide Plan.Signal, Plan.Liquidity, Plan.ExitVolume, Ordering, Filling, Leaving, Bought, Noted;
  }

  /** In every story each recorded cash is the capital moved by the fills and closes up to it, and so is the cash the run
      goes on with. */
  lemma {:induction false} StoryCash(p: Plan, cs: seq<Candidate>, n: nat)
    requires n <= |cs| && !p.risk.HasGaps()
    ensures CashTold(Story(p, cs, n).entries, p.settings.capital)
    ensures At(p, cs, n).cash == p.settings.capital + FlowOf(Story(p, cs, n).entries)
  {
    hide EntriesFor, Next, CashTold;
    if n == 0 {
      NothingTold(p.settings.capital);
    } else {
      StoryCash(p, cs, n - 1);
      var before := Story(p, cs, n - 1);
      if !before.standing.halted {
        EntriesCash(p, cs[n - 1], before.standing);
        var es := EntriesFor(p, cs[n - 1], before.standing);
        FlowJoins(before.entries, es);
        CashJoins(before.entries, es, p.settings.capital);
        hide FlowOf;
      }
    }
  }

  lemma {:induction false} NothingTold(start: real)
    ensures CashTold([], start) && FlowOf([]) == 0.0
  {
  }

  lemma {:induction false} EntriesCash(p: Plan, c: Candidate, at: Standing)
    requires !p.risk.HasGaps()
    ensures CashTold(EntriesFor(p, c, at), at.cash) && at.cash + FlowOf(EntriesFor(p, c, at)) == Next(p, c, at).cash
  {
    hide CashTold, FlowOf, Refusal, Trading, Bought, Sold, Leaves, Sized, DayLost, Plan.OrderOf, Plan.Signal, Plan.ExitVolume, DateOf;
    if c.held.None? {
      RefusalCash(p.Signal(c), c.at, c.at, "ENTRY_LIMIT_OR_LIQUIDITY", at.cash);
    } else if Denied(p, c, at).Some? {
      RefusalCash(p.Signal(c), c.held.value.signalAt, c.at, Denied(p, c, at).value, at.cash);
    } else {
      TradingCash(p, c, Sized(p.OrderOf(c, at.cash)), at.cash);
    }
  }

  // ----- what a row says -----

  predicate Says(e: Entry, c: Column, v: Value) { c in e.values && e.values[c] == v }

  /** An entry of candidate k, told from the candidate, the cash at hand and the observed volume. */
  ghost predicate RowTold(p: Plan, cs: seq<Candidate>, k: nat, e: Entry)
    requires !p.risk.HasGaps()
  {
    k < |cs| && !At(p, cs, k).halted && e.signal == p.keyOf(BarAt(p.series, cs[k].at - FIVE)) &&
    var c := cs[k];
    match e.state
    case SIGNAL_RECEIVED => e.at == (if c.held.Some? then c.held.value.signalAt else c.at) && e.values == BLANK
    case ELIGIBILITY_CHECKED => e.at == c.at && e.values == BLANK
    case PAPER_ORDER_REJECTED =>
      && e.at == c.at && Says(e, CASH, Amount(At(p, cs, k).cash)) && Says(e, POSITION, Number(0))
      && (if c.held.None? then Says(e, REJECTION, Text("ENTRY_LIMIT_OR_LIQUIDITY"))
          else if DayLost(p, c, At(p, cs, k)) then Says(e, REJECTION, Text("DAILY_LOSS_GUARD"))
          else Says(e, REJECTION, Text("POSITION_SIZE_OR_EXPOSURE_OR_LIQUIDITY")) && Sized(Question(p, cs, k)) < 1)
    case PAPER_CANCELLED => false
    case _ =>
      c.held.Some? && !DayLost(p, c, At(p, cs, k)) && Sized(Question(p, cs, k)) >= 1 && TradeRow(p, c, Sized(Question(p, cs, k)), e)
  }

  /** The values of a row that reports nothing yet. */
  const BLANK: map<Column, Value> := map[
    PRICE := Null, QUANTITY := Number(0), FEES := Null, CASH := Null, POSITION := Number(0), REJECTION := Null]

  /** A price for each of so many shares. */
  function Total(price: real, q: int): real { price * q as real }

  lemma {:induction false} SameTotal(price: real, q: int)
    ensures Worth(price, q) == Total(price, q)
  {
  }

  /** An entry of a position of some quantity. */
  ghost predicate TradeRow(p: Plan, c: Candidate, q: int, e: Entry)
    requires c.held.Some?
  {
    var h := c.held.value;
    var paid := Total(h.entry, q);
    var volume := BarAt(p.series, h.exitAt - FIVE).volume;
    var absorbed := h.exit.Some? && volume as real * p.settings.participation >= q as real;
    && Says(e, QUANTITY, Number(q))
    && match e.state
       case PAPER_FILLED =>
         && e.at == c.at && Says(e, TIMING, Timing(c.at, p.Liquidity(c).start)) && Says(e, PRICE, Amount(h.entry)) && Says(e, FEES, Amount(BuyCost(p.costs, paid))) && Says(e, POSITION, Number(q))
       case PAPER_POSITION_OPEN => e.at == c.at && Says(e, POSITION, Number(q))
       case PAPER_EXIT_PENDING => e.at == h.exitAt && Says(e, POSITION, Number(q)) && Says(e, REJECTION, ReasonText(h.reason))
       case PAPER_POSITION_CLOSED =>
         && absorbed && e.at == h.exitAt && Says(e, PRICE, Amount(h.exit.value)) && Says(e, POSITION, Number(0))
         && Says(e, FEES, Amount(SellCost(p.costs, Total(h.exit.value, q), paid))) && Says(e, REJECTION, ReasonText(h.reason))
       case PAPER_HALTED =>
         !absorbed && e.at == h.exitAt && Says(e, REJECTION, Text("EXIT_LIQUIDITY_UNVALUED")) && Says(e, POSITION, Number(q))
       case _ => e.at == c.at && Says(e, TIMING, Timing(c.at, p.Liquidity(c).start)) && Says(e, POSITION, Number(0))
  }

  lemma {:induction false} RefusalRow(p: Plan, cs: seq<Candidate>, k: nat, e: Entry)
    requires !p.risk.HasGaps() && k < |cs| && !At(p, cs, k).halted && !Opens(p, cs[k], At(p, cs, k))
    requires e in EntriesFor(p, cs[k], At(p, cs, k))
    ensures RowTold(p, cs, k, e)
  {
    hide Story, DayLost, Sized, Plan.OrderOf, BarAt;
  }

  lemma {:induction false} TradeRows(p: Plan, c: Candidate, q: int, cash: real, e: Entry)
    requires c.held.Some? && e in Trading(p, c, q, cash)
    ensures e.signal == p.Signal(c)
    ensures e.state == SIGNAL_RECEIVED ==> e.at == c.held.value.signalAt && e.values == BLANK
    ensures e.state == ELIGIBILITY_CHECKED ==> e.at == c.at && e.values == BLANK
    ensures e.state != SIGNAL_RECEIVED && e.state != ELIGIBILITY_CHECKED ==>
      e.state != PAPER_ORDER_REJECTED && e.state != PAPER_CANCELLED && TradeRow(p, c, q, e)
  {
    hide *;
    var h, signal, liquidity := c.held.value, p.Signal(c), p.Liquidity(c).start;
    TradingIs(p, c, q, cash);
    var b := Ordering(signal, c.at, q, liquidity);
    var f := Filling(signal, c.at, h.entry, q, liquidity, p.costs, cash);
    var l := Leaving(signal, h, q, p.ExitVolume(h), p.settings, p.costs, Bought(p.costs, h.entry, q, cash));
    if e in b {
      OrderRows(p, c, q, liquidity, e);
    } else if e in f {
      FillRows(p, c, q, cash, e);
    } else if e in l {
      LeaveRows(p, c, q, Bought(p.costs, h.entry, q, cash), e);
    } else {
      ReceiveRows(signal, h.signalAt, c.at, e);
    }
  }

  lemma {:induction false} ReceiveRows(signal: string, received: int, at: int, e: Entry)
    requires e in [Noted(signal, SIGNAL_RECEIVED, received, map[]), Noted(signal, ELIGIBILITY_CHECKED, at, map[])]
    ensures e.signal == signal
    ensures (e.state == SIGNAL_RECEIVED && e.at == received) || (e.state == ELIGIBILITY_CHECKED && e.at == at)
    ensures e.values == BLANK
  {
  }

  lemma {:induction false} OrderRows(p: Plan, c: Candidate, q: int, liquidityStart: int, e: Entry)
    requires c.held.Some? && e in Ordering(p.Signal(c), c.at, q, liquidityStart) && liquidityStart == p.Liquidity(c).start
    ensures e.state == RISK_APPROVED || e.state == PAPER_ORDER_CREATED || e.state == PAPER_ORDER_ACCEPTED
    ensures e.signal == p.Signal(c) && TradeRow(p, c, q, e)
  {
    hide BarAt, Plan.Signal, Plan.Liquidity, BuyCost, SellCost, ReasonText;
  }

  lemma {:induction false} FillRows(p: Plan, c: Candidate, q: int, cash: real, e: Entry)
    requires c.held.Some? && e in Filling(p.Signal(c), c.at, c.held.value.entry, q, p.Liquidity(c).start, p.costs, cash)
    ensures (e.state == PAPER_FILLED || e.state == PAPER_POSITION_OPEN) && e.signal == p.Signal(c) && TradeRow(p, c, q, e)
  {
    hide BuyCost, Bought, BarAt, Plan.Liquidity, Plan.Signal, SellCost, ReasonText, Worth, Total;
    SameTotal(c.held.value.entry, q);
    var f := Filling(p.Signal(c), c.at, c.held.value.entry, q, p.Liquidity(c).start, p.costs, cash);
    if e == f[0] {
      assert Says(e, TIMING, Timing(c.at, p.Liquidity(c).start));
      assert Says(e, QUANTITY, Number(q)) && Says(e, PRICE, Amount(c.held.value.entry)) && Says(e, POSITION, Number(q));
      assert Says(e, FEES, Amount(BuyCost(p.costs, Total(c.held.value.entry, q))));
    } else {
      assert e == f[1];
      assert Says(e, QUANTITY, Number(q)) && Says(e, POSITION, Number(q));
    }
  }

  lemma {:induction false} LeaveRows(p: Plan, c: Candidate, q: int, cash: real, e: Entry)
    requires c.held.Some? && e in Leaving(p.Signal(c), c.held.value, q, p.ExitVolume(c.held.value), p.settings, p.costs, cash)
    ensures e.state == PAPER_EXIT_PENDING || e.state == PAPER_POSITION_CLOSED || e.state == PAPER_HALTED
    ensures e.signal == p.Signal(c) && TradeRow(p, c, q, e)
  {
    hide *;
    var h := c.held.value;
    var pending, ending := LeavingParts(p.Signal(c), h, q, p.ExitVolume(h), p.settings, p.costs, cash);
    if e == pending {
      PendingRow(p, c, q, e);
    } else if Leaves(p.settings, h, q, p.ExitVolume(h)) {
      ClosedRow(p, c, q, e);
    } else {
      HaltedRow(p, c, q, e);
    }
  }

  /** The two entries with which a position ends, but for the cash after them. */
  lemma {:induction false} LeavingParts(signal: string, h: Held, q: int, volume: int, settings: Settings, costs: Schedule, cash: real)
    returns (pending: Entry, ending: Entry)
    ensures Leaving(signal, h, q, volume, settings, costs, cash) == [pending, ending]
    ensures pending.state == PAPER_EXIT_PENDING && pending.signal == signal && pending.at == h.exitAt
    ensures Says(pending, QUANTITY, Number(q)) && Says(pending, POSITION, Number(q)) && Says(pending, REJECTION, ReasonText(h.reason))
    ensures ending.signal == signal && ending.at == h.exitAt && Says(ending, QUANTITY, Number(q))
    ensures Leaves(settings, h, q, volume) ==>
      && h.exit.Some? && ending.state == PAPER_POSITION_CLOSED && Says(ending, PRICE, Amount(h.exit.value)) && Says(ending, POSITION, Number(0))
      && Says(ending, REJECTION, ReasonText(h.reason))
      && Says(ending, FEES, Amount(SellCost(costs, Worth(h.exit.value, q), Worth(h.entry, q))))
    ensures !Leaves(settings, h, q, volume) ==>
      ending.state == PAPER_HALTED && Says(ending, REJECTION, Text("EXIT_LIQUIDITY_UNVALUED")) && Says(ending, POSITION, Number(q))
  {
    hide SellCost, Sold, ReasonText, Worth;
    var l := Leaving(signal, h, q, volume, settings, costs, cash);
    pending, ending := l[0], l[1];
  }

  lemma {:induction false} PendingRow(p: Plan, c: Candidate, q: int, e: Entry)
    requires c.held.Some? && e.state == PAPER_EXIT_PENDING && e.at == c.held.value.exitAt
    requires Says(e, QUANTITY, Number(q)) && Says(e, POSITION, Number(q)) && Says(e, REJECTION, ReasonText(c.held.value.reason))
    ensures TradeRow(p, c, q, e)
  {
    hide Says, BarAt, SellCost, BuyCost, Total, ReasonText;
  }

  lemma {:induction false} ClosedRow(p: Plan, c: Candidate, q: int, e: Entry)
    requires c.held.Some? && c.held.value.exit.Some? && Leaves(p.settings, c.held.value, q, p.ExitVolume(c.held.value))
    requires e.state == PAPER_POSITION_CLOSED && e.at == c.held.value.exitAt && Says(e, QUANTITY, Number(q)) && Says(e, POSITION, Number(0))
    requires Says(e, PRICE, Amount(c.held.value.exit.value)) && Says(e, REJECTION, ReasonText(c.held.value.reason))
    requires Says(e, FEES, Amount(SellCost(p.costs, Worth(c.held.value.exit.value, q), Worth(c.held.value.entry, q))))
    ensures TradeRow(p, c, q, e)
  {
    hide Says, BarAt, SellCost, BuyCost, Total, ReasonText, Worth;
    SameTotal(c.held.value.entry, q);
    SameTotal(c.held.value.exit.value, q);
  }

  lemma {:induction false} HaltedRow(p: Plan, c: Candidate, q: int, e: Entry)
    requires c.held.Some? && !Leaves(p.settings, c.held.value, q, p.ExitVolume(c.held.value))
    requires e.state == PAPER_HALTED && e.at == c.held.value.exitAt && Says(e, QUANTITY, Number(q)) && Says(e, POSITION, Number(q))
    requires Says(e, REJECTION, Text("EXIT_LIQUIDITY_UNVALUED"))
    ensures TradeRow(p, c, q, e)
  {
    hide Says, BarAt, SellCost, BuyCost, Total, ReasonText;
  }

  lemma {:induction false} TradeTold(p: Plan, cs: seq<Candidate>, k: nat, e: Entry)
    requires !p.risk.HasGaps() && k < |cs| && !At(p, cs, k).halted && Opens(p, cs[k], At(p, cs, k))
    requires e.signal == p.Signal(cs[k])
    requires e.state == SIGNAL_RECEIVED ==> e.at == cs[k].held.value.signalAt && e.values == BLANK
    requires e.state == ELIGIBILITY_CHECKED ==> e.at == cs[k].at && e.values == BLANK
    requires e.state != SIGNAL_RECEIVED && e.state != ELIGIBILITY_CHECKED ==>
      e.state != PAPER_ORDER_REJECTED && e.state != PAPER_CANCELLED && TradeRow(p, cs[k], Sized(Question(p, cs, k)), e)
    ensures RowTold(p, cs, k, e)
  {
    hide Story, TradeRow, DayLost, Sized, Plan.OrderOf, BarAt;
  }

  lemma {:induction false} EntriesTold(p: Plan, cs: seq<Candidate>, k: nat, e: Entry)
    requires !p.risk.HasGaps() && k < |cs| && !At(p, cs, k).halted && e in EntriesFor(p, cs[k], At(p, cs, k))
    ensures RowTold(p, cs, k, e)
  {
    hide *;
    if Opens(p, cs[k], At(p, cs, k)) {
      OpenEntries(p, cs, k);
      TradeRows(p, cs[k], Sized(Question(p, cs, k)), At(p, cs, k).cash, e);
      TradeTold(p, cs, k, e);
    } else {
      RefusalRow(p, cs, k, e);
    }
  }

  lemma {:induction false} OpenEntries(p: Plan, cs: seq<Candidate>, k: nat)
    requires !p.risk.HasGaps() && k < |cs| && Opens(p, cs[k], At(p, cs, k))
    ensures cs[k].held.Some? && EntriesFor(p, cs[k], At(p, cs, k)) == Trading(p, cs[k], Sized(Question(p, cs, k)), At(p, cs, k).cash)
  {
    hide Story, Trading, DayLost, Sized, Plan.OrderOf;
  }

  /** Every row of a story is told from its candidate: when and why a refusal, and what a position was bought and left for. */
  lemma {:induction false} StoryRows(p: Plan, cs: seq<Candidate>, n: nat, e: Entry) returns (k: nat)
    requires n <= |cs| && !p.risk.HasGaps() && e in Story(p, cs, n).entries
    ensures k < n && RowTold(p, cs, k, e)
  {
    hide EntriesFor, Next, RowTold;
    if e in Story(p, cs, n - 1).entries {
      k := StoryRows(p, cs, n - 1, e);
    } else {
      k := n - 1;
      EntriesTold(p, cs, k, e);
    }
  }

  // ----- nothing is left out -----

  /** Whatever a candidate records, unless the run has halted before it, stays in the story. */
  lemma {:induction false} EntriesStay(p: Plan, cs: seq<Candidate>, k: nat, n: nat, e: Entry)
    requires k < n <= |cs| && !p.risk.HasGaps() && !At(p, cs, k).halted && e in EntriesFor(p, cs[k], At(p, cs, k))
    ensures e in Story(p, cs, n).entries
  {
    hide EntriesFor, Next;
    if k < n - 1 { EntriesStay(p, cs, k, n - 1, e); }
  }

  lemma {:induction false} HaltedFor(p: Plan, cs: seq<Candidate>, k: nat, n: nat)
    requires k <= n <= |cs| && !p.risk.HasGaps() && !At(p, cs, n).halted
    ensures !At(p, cs, k).halted
  {
    if At(p, cs, k).halted { StoryEnds(p, cs, k, n); }
  }

  /** A row of a state, at an instant, of the signal of the candle before. */
  ghost predicate HasRow(p: Plan, es: seq<Entry>, at: int, state: Phase) {
    exists e :: e in es && e.at == at && e.state == state && e.signal == p.keyOf(BarAt(p.series, at - FIVE))
  }

  lemma {:induction false} CandidateRows(p: Plan, cs: seq<Candidate>, k: nat)
    requires k < |cs| && !p.risk.HasGaps() && !At(p, cs, |cs|).halted
    ensures HasRow(p, Story(p, cs, |cs|).entries, cs[k].at, ELIGIBILITY_CHECKED)
    ensures cs[k].held.None? ==> HasRow(p, Story(p, cs, |cs|).entries, cs[k].at, PAPER_ORDER_REJECTED)
    ensures cs[k].held.Some? ==>
      HasRow(p, Story(p, cs, |cs|).entries, cs[k].at, PAPER_ORDER_REJECTED) || HasRow(p, Story(p, cs, |cs|).entries, cs[k].at, PAPER_FILLED)
  {
    hide *;
    HaltedFor(p, cs, k, |cs|);
    var checked, ended := RowsOf(p, cs[k], At(p, cs, k));
    EntriesStay(p, cs, k, |cs|, checked);
    EntriesStay(p, cs, k, |cs|, ended);
    RowThere(p, Story(p, cs, |cs|).entries, checked, cs[k].at);
    RowThere(p, Story(p, cs, |cs|).entries, ended, cs[k].at);
  }

  lemma {:induction false} RowThere(p: Plan, es: seq<Entry>, e: Entry, at: int)
    requires e in es && e.at == at && e.signal == p.keyOf(BarAt(p.series, at - FIVE))
    ensures HasRow(p, es, at, e.state)
  {
  }

  /** The row that a candidate was checked, and the one that rejects or fills it. */
  lemma {:induction false} RowsOf(p: Plan, c: Candidate, at: Standing) returns (checked: Entry, ended: Entry)
    requires !p.risk.HasGaps()
    ensures checked in EntriesFor(p, c, at) && checked.state == ELIGIBILITY_CHECKED && checked.at == c.at
    ensures ended in EntriesFor(p, c, at) && ended.at == c.at
    ensures ended.state == PAPER_ORDER_REJECTED || (c.held.Some? && ended.state == PAPER_FILLED)
    ensures checked.signal == p.keyOf(BarAt(p.series, c.at - FIVE)) && ended.signal == p.keyOf(BarAt(p.series, c.at - FIVE))
  {
    hide *;
    if Opens(p, c, at) {
      EntriesAre(p, c, at);
      checked, ended := TradingHas(p, c, Sized(p.OrderOf(c, at.cash)), at.cash);
    } else {
      checked, ended := RefusalHas(p, c, at);
    }
  }

  lemma {:induction false} EntriesAre(p: Plan, c: Candidate, at: Standing)
    requires !p.risk.HasGaps()
    requires Opens(p, c, at)
    ensures c.held.Some? && EntriesFor(p, c, at) == Trading(p, c, Sized(p.OrderOf(c, at.cash)), at.cash)
  {
    hide Trading, Refusal, Denied, Sized, Plan.OrderOf, BarAt;
  }

  lemma {:induction false} TradingHas(p: Plan, c: Candidate, q: int, cash: real) returns (checked: Entry, ended: Entry)
    requires c.held.Some?
    ensures checked in Trading(p, c, q, cash) && checked.state == ELIGIBILITY_CHECKED && checked.at == c.at
    ensures ended in Trading(p, c, q, cash) && ended.at == c.at && ended.state == PAPER_FILLED
    ensures checked.signal == p.keyOf(BarAt(p.series, c.at - FIVE)) && ended.signal == p.keyOf(BarAt(p.series, c.at - FIVE))
  {
    hide Leaving, Bought, BuyCost, Plan.Liquidity, BarAt;
    checked, ended := Trading(p, c, q, cash)[1], Trading(p, c, q, cash)[5];
  }

  lemma {:induction false} RefusalHas(p: Plan, c: Candidate, at: Standing) returns (checked: Entry, ended: Entry)
    requires !p.risk.HasGaps()
    requires !Opens(p, c, at)
    ensures checked in EntriesFor(p, c, at) && checked.state == ELIGIBILITY_CHECKED && checked.at == c.at
    ensures ended in EntriesFor(p, c, at) && ended.at == c.at && ended.state == PAPER_ORDER_REJECTED
    ensures checked.signal == p.keyOf(BarAt(p.series, c.at - FIVE)) && ended.signal == p.keyOf(BarAt(p.series, c.at - FIVE))
  {
    hide BarAt, Trading, Sized, Plan.OrderOf, DayLost;
    checked, ended := EntriesFor(p, c, at)[1], EntriesFor(p, c, at)[2];
  }

  lemma {:induction false} Sorted(cs: seq<Candidate>, c: Candidate) returns (k: nat)
    requires c in cs
    ensures k < |SortedByTime(cs)| && SortedByTime(cs)[k] == c
  {
    SortingSorts(cs);
    assert c in multiset(cs);
    hide SortedByTime;
    assert c in SortedByTime(cs);
    k :| 0 <= k < |SortedByTime(cs)| && SortedByTime(cs)[k] == c;
  }

  /** In a run that does not halt every refusal of the execution is recorded as a rejection at its instant, and every position
      it entered as a fill or a rejection at its entry. */
  lemma {:induction false} EveryEntryRecorded(b: Binding, p: Plan, e: Execution)
    requires p.series.Valid() && p.settings.Valid() && !p.risk.HasGaps()
    requires Executed(p.series, p.d, UnitSettings(p.settings), p.costs) == Ok(e)
    requires var cs := SortedByTime(Candidates(e)); !At(p, cs, |cs|).halted
    ensures
      var es := Recorded(b, p, [], false).0;
      && (forall at :: at in e.noFills ==> HasRow(p, es, at, PAPER_ORDER_REJECTED))
      && (forall t :: t in e.trades ==> HasRow(p, es, t.entryAt, PAPER_ORDER_REJECTED) || HasRow(p, es, t.entryAt, PAPER_FILLED))
      && (forall u :: u in e.unresolved ==> HasRow(p, es, u.entryAt, PAPER_ORDER_REJECTED) || HasRow(p, es, u.entryAt, PAPER_FILLED))
  {
    hide Executed, Story, HasRow, PriceSeries.Valid, SortedByTime, Candidates;
    var all := Candidates(e);
    var cs := SortedByTime(all);
    var es := Recorded(b, p, [], false).0;
    assert es == Story(p, cs, |cs|).entries;
    forall at | at in e.noFills ensures HasRow(p, es, at, PAPER_ORDER_REJECTED) {
      var c := RefusalAmong(e, at);
      var k := Sorted(all, c);
      CandidateRows(p, cs, k);
    }
    forall t | t in e.trades ensures HasRow(p, es, t.entryAt, PAPER_ORDER_REJECTED) || HasRow(p, es, t.entryAt, PAPER_FILLED) {
      var c := TradeAmong(e, t);
      var k := Sorted(all, c);
      CandidateRows(p, cs, k);
    }
    forall u | u in e.unresolved ensures HasRow(p, es, u.entryAt, PAPER_ORDER_REJECTED) || HasRow(p, es, u.entryAt, PAPER_FILLED) {
      var c := UnresolvedAmong(e, u);
      var k := Sorted(all, c);
      CandidateRows(p, cs, k);
    }
  }

  lemma {:induction false} RefusalAmong(e: Execution, at: int) returns (c: Candidate)
    requires at in e.noFills
    ensures c in Candidates(e) && c == Candidate(at, None)
  {
    var i :| 0 <= i < |e.noFills| && e.noFills[i] == at;
    c := Candidates(e)[|e.trades| + |e.unresolved| + i];
  }

  lemma {:induction false} TradeAmong(e: Execution, t: Trade) returns (c: Candidate)
    requires t in e.trades
    ensures c in Candidates(e) && c.at == t.entryAt && c.held.Some?
  {
    var i :| 0 <= i < |e.trades| && e.trades[i] == t;
    c := Candidates(e)[i];
  }

  lemma {:induction false} UnresolvedAmong(e: Execution, u: Unresolved) returns (c: Candidate)
    requires u in e.unresolved
    ensures c in Candidates(e) && c.at == u.entryAt && c.held.Some?
  {
    var i :| 0 <= i < |e.unresolved| && e.unresolved[i] == u;
    c := Candidates(e)[|e.trades| + i];
  }

  // ----- runs that walk no candidates -----

  lemma {:induction false} ReasonsBack(reasons: seq<string>)
    requires reasons != [] && forall r :: r in reasons ==> ';' !in r
    ensures Split(Semicolons(reasons), ';') == reasons
  {
    if |reasons| == 1 {
      SplitWhole(reasons[0], ';');
    } else {
      ReasonsBack(reasons[1..]);
      SplitFirst(reasons[0], ';', Semicolons(reasons[1..]));
    }
  }

  /** The one signal of a run that walks no candidates: received, checked unless the execution failed, and ended at once, with
      the capital untouched. */
  ghost predicate EndsAtOnce(es: seq<Entry>, signal: string, start: int, capital: real, phases: seq<Phase>) {
    && |es| == |phases| && (forall i :: 0 <= i < |es| ==> es[i].signal == signal && es[i].at == start && es[i].state == phases[i])
    && es != [] && Says(es[|es| - 1], CASH, Amount(capital)) && Says(es[|es| - 1], POSITION, Number(0))
  }

  /** A halted run records PAPER_HALT; a refused one all its reasons, which its text gives back; one whose execution fails
      records the execution's error. Nothing is traded, and the cash is the capital. */
  lemma {:induction false} RefusedRuns(b: Binding, p: Plan, refusals: seq<string>, halt: bool)
    requires p.series.Valid() && p.settings.Valid() && (refusals == [] ==> !p.risk.HasGaps())
    requires forall r :: r in refusals ==> ';' !in r
    ensures
      var (es, cash) := Recorded(b, p, refusals, halt);
      var start, failed := p.series.fromInclusive, Executed(p.series, p.d, UnitSettings(p.settings), p.costs);
      && (halt || refusals != [] ==>
            && cash == p.settings.capital
            && EndsAtOnce(es, b.digest(b.runId + "admission"), start, cash,
                          [SIGNAL_RECEIVED, ELIGIBILITY_CHECKED, if halt then PAPER_HALTED else PAPER_ORDER_REJECTED])
            && (halt ==> Says(es[2], REJECTION, Text("PAPER_HALT")))
            && (!halt ==> exists text :: Says(es[2], REJECTION, Text(text)) && Split(text, ';') == refusals))
      && (!halt && refusals == [] && failed.Err? ==>
            && cash == p.settings.capital
            && EndsAtOnce(es, b.digest(b.runId + "quality"), start, cash, [SIGNAL_RECEIVED, PAPER_HALTED])
            && Says(es[1], REJECTION, Text(failed.error)))
  {
    hide *;
    if refusals != [] { ReasonsBack(refusals); }
    if halt || refusals != [] { Refused(b, p, refusals, halt); }
    Failed(b, p, refusals, halt);
  }

  lemma {:induction false} Refused(b: Binding, p: Plan, refusals: seq<string>, halt: bool)
    requires p.series.Valid() && p.settings.Valid() && (refusals == [] ==> !p.risk.HasGaps()) && (halt || refusals != [])
    ensures
      var (es, cash) := Recorded(b, p, refusals, halt);
      && cash == p.settings.capital
      && EndsAtOnce(es, b.digest(b.runId + "admission"), p.series.fromInclusive, cash,
                    [SIGNAL_RECEIVED, ELIGIBILITY_CHECKED, if halt then PAPER_HALTED else PAPER_ORDER_REJECTED])
      && (halt ==> Says(es[2], REJECTION, Text("PAPER_HALT"))) && (!halt ==> Says(es[2], REJECTION, Text(Semicolons(refusals))))
  {
    hide Executed, Story, PriceSeries.Valid, Candidates, SortedByTime, Semicolons, Settings.Valid, Risk.HasGaps;
  }

  lemma {:induction false} Failed(b: Binding, p: Plan, refusals: seq<string>, halt: bool)
    requires p.series.Valid() && p.settings.Valid() && (refusals == [] ==> !p.risk.HasGaps())
    ensures
      var (es, cash) := Recorded(b, p, refusals, halt);
      var failed := Executed(p.series, p.d, UnitSettings(p.settings), p.costs);
      !halt && refusals == [] && failed.Err? ==>
        && cash == p.settings.capital
        && EndsAtOnce(es, b.digest(b.runId + "quality"), p.series.fromInclusive, cash, [SIGNAL_RECEIVED, PAPER_HALTED])
        && Says(es[1], REJECTION, Text(failed.error))
  {
    hide Executed, Story, PriceSeries.Valid, Candidates, SortedByTime, Risk.HasGaps;
  }
}
