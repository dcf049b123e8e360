/** The paper run itself: candidates in time order, each recorded from signal to end. */
module PaperRun {
  import opened Wrappers
  import opened Clock
  import opened RealFacts
  import opened Costs
  import opened Series
  import opened Strategies
  import opened Executor
  import opened ExecutionOrder
  import opened ExecutorLoops
  import opened Sizing
  import opened Audit
  import opened Paper
  import opened PaperStory

  // ----- what the recorded rows say about money -----

  function MoneyIn(values: map<Column, Value>, c: Column): real {
    if c in values && values[c].Amount? then values[c].r else 0.0
  }

  function SharesIn(values: map<Column, Value>): int {
    if QUANTITY in values && values[QUANTITY].Number? then values[QUANTITY].n else 0
  }

  /** The cash a recorded event moves: a fill pays price and fees, a close receives price less fees. */
  function Moved(state: Phase, v: map<Column, Value>): real {
    if state == PAPER_FILLED then -(Worth(MoneyIn(v, PRICE), SharesIn(v)) + MoneyIn(v, FEES))
    else if state == PAPER_POSITION_CLOSED then Worth(MoneyIn(v, PRICE), SharesIn(v)) - MoneyIn(v, FEES)
    else 0.0
  }

  function FlowOf(row: Row): real {
    if row.Malformed? then 0.0 else Moved(row.body.columns.state, row.body.values)
  }

  function Flow(events: seq<Row>): real {
    if events == [] then 0.0 else Flow(events[..|events| - 1]) + FlowOf(events[|events| - 1])
  }

  /** Phases after which nothing more happens to a signal. */
  predicate Over(p: Phase) {
    p == PAPER_ORDER_REJECTED || p == PAPER_POSITION_CLOSED || p == PAPER_HALTED
  }

  /** The first failure of a run is the one it reports. */
  function Earlier(failure: Option<string>, error: Option<string>): Option<string> {
    if failure.Some? then failure else error
  }

  /** One emission, in a state where it must succeed. */
  method Record(audit: AuditLog, signal: string, state: Phase, at: int, values: map<Column, Value>)
    returns (error: Option<string>)
    requires audit.Valid() && CollisionFree(audit.b)
    requires state in Transitions(PhaseOf(audit.Contents(), signal))
    requires |audit.events| < LIMIT && InTime(audit.events, at)
    modifies audit
    ensures error.None? && audit.Valid()
    ensures |audit.events| == old(|audit.events|) + 1
    ensures audit.states == old(audit.states)[signal := state]
    ensures InTime(audit.events, at)
    ensures Told(audit.events) == old(Told(audit.events)) + [Noted(signal, state, at, values)]
    ensures Flow(audit.events) == old(Flow(audit.events)) + Moved(state, DEFAULTS + values)
    ensures state != PAPER_FILLED && state != PAPER_POSITION_CLOSED ==> Flow(audit.events) == old(Flow(audit.events))
  {
    ghost var before := audit.Contents();
    EmissionSucceedsExactly(audit.b, before, signal, state, at, values);
    error := audit.Emit(signal, state, at, values);
    EmittedRow(audit.b, before, signal, state, at, values);
    hide Transitions, Emitted, InTime, Genuine, CollisionFree;
    assert audit.events[..|audit.events| - 1] == before.events;
  }

  lemma {:induction false} EmittedRow(b: Binding, log: Log, signal: string, state: Phase, at: int, values: map<Column, Value>)
    requires Emitted(b, log, signal, state, at, values).Ok?
    ensures
      var next := Emitted(b, log, signal, state, at, values).value;
      && next.events == log.events + [next.events[|log.events|]] && |next.events| == |log.events| + 1
      && next.states == log.states[signal := state]
      && InTime(next.events, at)
      && EntryOf(next.events[|log.events|]) == Noted(signal, state, at, values)
      && FlowOf(next.events[|log.events|]) == Moved(state, DEFAULTS + values)
  {
    hide Transitions, EventKey;
  }

  /** The transitions a paper run makes. */
  lemma {:induction false} Paths()
    ensures SIGNAL_RECEIVED in Transitions(None)
    ensures {ELIGIBILITY_CHECKED, PAPER_HALTED} <= Transitions(Some(SIGNAL_RECEIVED))
    ensures {RISK_APPROVED, PAPER_ORDER_REJECTED, PAPER_HALTED} <= Transitions(Some(ELIGIBILITY_CHECKED))
    ensures PAPER_ORDER_CREATED in Transitions(Some(RISK_APPROVED))
    ensures PAPER_ORDER_ACCEPTED in Transitions(Some(PAPER_ORDER_CREATED))
    ensures PAPER_FILLED in Transitions(Some(PAPER_ORDER_ACCEPTED))
    ensures PAPER_POSITION_OPEN in Transitions(Some(PAPER_FILLED))
    ensures PAPER_EXIT_PENDING in Transitions(Some(PAPER_POSITION_OPEN))
    ensures {PAPER_POSITION_CLOSED, PAPER_HALTED} <= Transitions(Some(PAPER_EXIT_PENDING))
  {
  }

  // ----- one candidate -----

  /** A new signal is received and its eligibility checked. */
  method Receive(audit: AuditLog, signal: string, received: int, at: int) returns (failure: Option<string>)
    requires audit.Valid() && CollisionFree(audit.b) && signal !in audit.states
    requires |audit.events| + 2 <= LIMIT && InTime(audit.events, received) && received <= at
    modifies audit
    ensures failure.None? && audit.Valid()
    ensures |audit.events| == old(|audit.events|) + 2 && InTime(audit.events, at)
    ensures audit.states == old(audit.states)[signal := ELIGIBILITY_CHECKED]
    ensures
      Told(audit.events) ==
      old(Told(audit.events)) + [Noted(signal, SIGNAL_RECEIVED, received, map[]), Noted(signal, ELIGIBILITY_CHECKED, at, map[])]
    ensures Flow(audit.events) == old(Flow(audit.events))
  {
    Paths();
    hide Flow, Genuine, CollisionFree, Told, Noted, Transitions;
    failure := Record(audit, signal, SIGNAL_RECEIVED, received, map[]);
    LaterInTime(audit.events, received, at);
    var e := Record(audit, signal, ELIGIBILITY_CHECKED, at, map[]);
    failure := Earlier(failure, e);
  }

  /** A checked signal is turned down. */
  method Decline(audit: AuditLog, signal: string, state: Phase, at: int, reason: string, cash: real) returns (failure: Option<string>)
    requires audit.Valid() && CollisionFree(audit.b)
    requires signal in audit.states && audit.states[signal] == ELIGIBILITY_CHECKED && (state == PAPER_HALTED || state == PAPER_ORDER_REJECTED)
    requires |audit.events| < LIMIT && InTime(audit.events, at)
    modifies audit
    ensures failure.None? && audit.Valid()
    ensures |audit.events| == old(|audit.events|) + 1 && InTime(audit.events, at)
    ensures audit.states == old(audit.states)[signal := state]
    ensures Told(audit.events) == old(Told(audit.events)) + [Noted(signal, state, at, map[REJECTION := Text(reason), CASH := Amount(cash)])]
    ensures Flow(audit.events) == old(Flow(audit.events))
  {
    Paths();
    hide Flow, Genuine, CollisionFree, Told, Noted, Transitions, InTime;
    failure := Record(audit, signal, state, at, map[REJECTION := Text(reason), CASH := Amount(cash)]);
  }

  /** A signal that is not traded: received, checked and rejected. */
  method Reject(audit: AuditLog, signal: string, received: int, at: int, reason: string, cash: real)
    returns (failure: Option<string>)
    requires audit.Valid() && CollisionFree(audit.b) && signal !in audit.states
    requires |audit.events| + 3 <= LIMIT && InTime(audit.events, received) && received <= at
    modifies audit
    ensures failure.None? && audit.Valid()
    ensures |audit.events| == old(|audit.events|) + 3 && InTime(audit.events, at)
    ensures audit.states == old(audit.states)[signal := PAPER_ORDER_REJECTED]
    ensures Told(audit.events) == old(Told(audit.events)) + Refusal(signal, received, at, reason, cash)
    ensures Flow(audit.events) == old(Flow(audit.events))
  {
    hide Flow, Genuine, CollisionFree, Told, Noted, Transitions;
    failure := Receive(audit, signal, received, at);
    var e := Decline(audit, signal, PAPER_ORDER_REJECTED, at, reason, cash);
    failure := Earlier(failure, e);
  }

  lemma {:induction false} LaterInTime(events: seq<Row>, at: int, later: int)
    requires InTime(events, at) && at <= later
    ensures InTime(events, later)
  {
  }

  /** Approve, create and accept an order. */
  method Accept(audit: AuditLog, signal: string, at: int, quantity: int, liquidityStart: int) returns (failure: Option<string>)
    requires audit.Valid() && CollisionFree(audit.b)
    requires signal in audit.states && audit.states[signal] == ELIGIBILITY_CHECKED
    requires |audit.events| + 3 <= LIMIT && InTime(audit.events, at)
    modifies audit
    ensures failure.None? && audit.Valid()
    ensures |audit.events| == old(|audit.events|) + 3 && InTime(audit.events, at)
    ensures audit.states == old(audit.states)[signal := PAPER_ORDER_ACCEPTED]
    ensures Told(audit.events) == old(Told(audit.events)) + Ordering(signal, at, quantity, liquidityStart)
    ensures Flow(audit.events) == old(Flow(audit.events))
  {
    Paths();
    hide Flow, Genuine, CollisionFree, Moved, Told, Noted, Transitions;
    var values := map[QUANTITY := Number(quantity), TIMING := Audit.Timing(at, liquidityStart)];
    failure := Record(audit, signal, RISK_APPROVED, at, values);
    var e := Record(audit, signal, PAPER_ORDER_CREATED, at, values);
    failure := Earlier(failure, e);
    e := Record(audit, signal, PAPER_ORDER_ACCEPTED, at, values);
    failure := Earlier(failure, e);
  }

  /** Fill an accepted order at the entry price, pay for it, and hold the position. */
  method Fill(audit: AuditLog, signal: string, at: int, entry: real, quantity: int, liquidityStart: int,
              costs: Schedule, cash: real)
    returns (failure: Option<string>, after: real)
    requires audit.Valid() && CollisionFree(audit.b)
    requires signal in audit.states && audit.states[signal] == PAPER_ORDER_ACCEPTED
    requires |audit.events| + 2 <= LIMIT && InTime(audit.events, at)
    requires 1 <= quantity && 0.0 < entry && costs.Effective(costs.PricingDate(at))
    modifies audit
    ensures failure.None? && audit.Valid()
    ensures |audit.events| == old(|audit.events|) + 2 && InTime(audit.events, at)
    ensures audit.states == old(audit.states)[signal := PAPER_POSITION_OPEN]
    ensures Told(audit.events) == old(Told(audit.events)) + Filling(signal, at, entry, quantity, liquidityStart, costs, cash)
    ensures after == Bought(costs, entry, quantity, cash)
    ensures after - cash == Flow(audit.events) - old(Flow(audit.events))
  {
    Paths();
    hide Flow, Genuine, CollisionFree, Worth, Moved, Schedule.Effective, Schedule.PricingDate, Fee, BuyCost, Told, Noted, Transitions;
    var buy := Worth(entry, quantity);
    WorthPositive(entry, quantity);
    QuoteSucceedsExactlyWhenEffective(costs, BUY, buy, at, buy);
    FeeOf(costs, BUY, buy, at, None);
    var fee := Fee(costs, BUY, buy, at, None).value;
    after := cash - (buy + fee);
    var values := map[TIMING := Audit.Timing(at, liquidityStart), PRICE := Amount(entry), QUANTITY := Number(quantity),
                      FEES := Amount(fee), CASH := Amount(after), POSITION := Number(quantity)];
    PricedRow(values, entry, quantity, fee);
    failure := Record(audit, signal, PAPER_FILLED, at, values);
    var e := Record(audit, signal, PAPER_POSITION_OPEN, at,
                    map[QUANTITY := Number(quantity), CASH := Amount(after), POSITION := Number(quantity)]);
    failure := Earlier(failure, e);
  }

  /** What a row with price, quantity and fees moves. */
  lemma {:induction false} PricedRow(values: map<Column, Value>, price: real, quantity: int, fees: real)
    requires PRICE in values && values[PRICE] == Amount(price)
    requires QUANTITY in values && values[QUANTITY] == Number(quantity)
    requires FEES in values && values[FEES] == Amount(fees)
    ensures Moved(PAPER_FILLED, DEFAULTS + values) == -(Worth(price, quantity) + fees)
    ensures Moved(PAPER_POSITION_CLOSED, DEFAULTS + values) == Worth(price, quantity) - fees
  {
    hide Worth;
  }

  /** Close a position at its exit price, and take the proceeds. */
  method Close(audit: AuditLog, signal: string, h: Held, quantity: int, costs: Schedule, cash: real)
    returns (failure: Option<string>, after: real)
    requires audit.Valid() && CollisionFree(audit.b)
    requires signal in audit.states && audit.states[signal] == PAPER_EXIT_PENDING
    requires |audit.events| < LIMIT && InTime(audit.events, h.exitAt)
    requires 1 <= quantity && 0.0 < h.entry
    requires h.exit.Some? && 0.0 < h.exit.value && costs.Effective(costs.PricingDate(h.exitAt - FIVE))
    modifies audit
    ensures failure.None? && audit.Valid()
    ensures |audit.events| == old(|audit.events|) + 1 && InTime(audit.events, h.exitAt)
    ensures audit.states == old(audit.states)[signal := PAPER_POSITION_CLOSED]
    ensures
      var fee := SellCost(costs, Worth(h.exit.value, quantity), Worth(h.entry, quantity));
      && after == cash + (Worth(h.exit.value, quantity) - fee)
      && Told(audit.events) ==
         old(Told(audit.events)) +
         [Noted(signal, PAPER_POSITION_CLOSED, h.exitAt,
                map[PRICE := Amount(h.exit.value), QUANTITY := Number(quantity), FEES := Amount(fee), CASH := Amount(after),
                    REJECTION := ReasonText(h.reason)])]
    ensures after - cash == Flow(audit.events) - old(Flow(audit.events))
  {
    Paths();
    hide Flow, Genuine, CollisionFree, Worth, Moved, Schedule.Effective, Schedule.PricingDate, Fee, SellCost, Told, Noted, Transitions, InTime;
    var buy, sell := Worth(h.entry, quantity), Worth(h.exit.value, quantity);
    WorthPositive(h.entry, quantity);
    WorthPositive(h.exit.value, quantity);
    QuoteSucceedsExactlyWhenEffective(costs, SELL, sell, h.exitAt - FIVE, buy);
    FeeOf(costs, SELL, sell, h.exitAt - FIVE, Some(buy));
    var sellFee := Fee(costs, SELL, sell, h.exitAt - FIVE, Some(buy)).value;
    after := cash + (sell - sellFee);
    var values := map[PRICE := Amount(h.exit.value), QUANTITY := Number(quantity), FEES := Amount(sellFee),
                      CASH := Amount(after), REJECTION := ReasonText(h.reason)];
    PricedRow(values, h.exit.value, quantity, sellFee);
    failure := Record(audit, signal, PAPER_POSITION_CLOSED, h.exitAt, values);
  }

  /** Leave the position: closed at its exit price, or halted when there is none or the exit candle
      cannot absorb the quantity. */
  method Leave(audit: AuditLog, signal: string, h: Held, quantity: int, exitVolume: int, settings: Settings,
               costs: Schedule, cash: real)
    returns (failure: Option<string>, after: real, halted: bool)
    requires audit.Valid() && CollisionFree(audit.b)
    requires signal in audit.states && audit.states[signal] == PAPER_POSITION_OPEN
    requires |audit.events| + 2 <= LIMIT && InTime(audit.events, h.exitAt)
    requires 1 <= quantity && 0.0 < h.entry
    requires h.exit.Some? ==> 0.0 < h.exit.value && costs.Effective(costs.PricingDate(h.exitAt - FIVE))
    modifies audit
    ensures failure.None? && audit.Valid()
    ensures |audit.events| == old(|audit.events|) + 2 && InTime(audit.events, h.exitAt)
    ensures audit.states == old(audit.states)[signal := if halted then PAPER_HALTED else PAPER_POSITION_CLOSED]
    ensures Told(audit.events) == old(Told(audit.events)) + Leaving(signal, h, quantity, exitVolume, settings, costs, cash)
    ensures after == Sold(settings, costs, h, quantity, exitVolume, cash)
    ensures after - cash == Flow(audit.events) - old(Flow(audit.events))
    ensures halted <==> h.exit.None? || exitVolume as real * settings.participation < quantity as real
  {
    Paths();
    hide Flow, Genuine, CollisionFree, Worth, Moved, Schedule.Effective, Schedule.PricingDate, SellCost, Told, Noted, Transitions, InTime,
         ReasonText;
    after := cash;
    failure := Record(audit, signal, PAPER_EXIT_PENDING, h.exitAt,
                      map[QUANTITY := Number(quantity), REJECTION := ReasonText(h.reason), POSITION := Number(quantity)]);
    halted := h.exit.None? || exitVolume as real * settings.participation < quantity as real;
    var e;
    if halted {
      e := Record(audit, signal, PAPER_HALTED, h.exitAt,
                  map[REJECTION := Audit.Text("EXIT_LIQUIDITY_UNVALUED"), CASH := Amount(after),
                      POSITION := Number(quantity), QUANTITY := Number(quantity)]);
    } else {
      e, after := Close(audit, signal, h, quantity, costs, cash);
    }
    failure := Earlier(failure, e);
  }

  lemma {:induction false} WorthPositive(price: real, quantity: int)
    requires 0.0 < price && 1 <= quantity
    ensures 0.0 < Worth(price, quantity)
  {
    MulPositive(price, quantity as real);
  }

  // ----- the whole run -----

  /** Signals recorded so far come from the first n candidates and are all over. */
  ghost predicate Finished(states: map<string, Phase>, cs: seq<Candidate>, n: nat, keyOf: Candle -> string,
                           byStart: map<int, Candle>)
    requires n <= |cs|
  {
    forall s :: s in states ==> Over(states[s]) && KeyOfSome(s, cs, n, keyOf, byStart)
  }

  ghost predicate KeyOfSome(s: string, cs: seq<Candidate>, n: nat, keyOf: Candle -> string, byStart: map<int, Candle>)
    requires n <= |cs|
  {
    exists j :: 0 <= j < n && cs[j].at - FIVE in byStart && s == keyOf(byStart[cs[j].at - FIVE])
  }

  /** Different candles of a series have different keys. */
  ghost predicate KeysApart(keyOf: Candle -> string, bars: seq<Candle>) {
    forall x, y :: x in bars && y in bars && keyOf(x) == keyOf(y) ==> x == y
  }

  /** The next candidate's signal is new. */
  lemma {:induction false} KeyIsNew(states: map<string, Phase>, cs: seq<Candidate>, i: nat, keyOf: Candle -> string, bars: seq<Candle>)
    requires i < |cs| && Finished(states, cs, i, keyOf, ByStart(bars)) && KeysApart(keyOf, bars) && AllApart(cs)
    requires cs[i].at - FIVE in ByStart(bars)
    ensures keyOf(ByStart(bars)[cs[i].at - FIVE]) !in states
  {
    hide ByStart;
    var key, byStart := keyOf(ByStart(bars)[cs[i].at - FIVE]), ByStart(bars);
    ByStartFinds(bars, cs[i].at - FIVE);
    forall j | 0 <= j < i && cs[j].at - FIVE in byStart ensures keyOf(byStart[cs[j].at - FIVE]) != key {
      ByStartFinds(bars, cs[j].at - FIVE);
      assert Apart(cs[j], cs[i]);
    }
    assert !KeyOfSome(key, cs, i, keyOf, byStart);
  }

  lemma {:induction false} FinishedGrows(states: map<string, Phase>, cs: seq<Candidate>, i: nat, keyOf: Candle -> string,
                      byStart: map<int, Candle>, key: string, phase: Phase)
    requires i < |cs| && Finished(states, cs, i, keyOf, byStart) && Over(phase)
    requires cs[i].at - FIVE in byStart && key == keyOf(byStart[cs[i].at - FIVE])
    ensures Finished(states[key := phase], cs, i + 1, keyOf, byStart)
  {
    var later := states[key := phase];
    forall s | s in later ensures Over(later[s]) && KeyOfSome(s, cs, i + 1, keyOf, byStart) {
      if s != key { assert KeyOfSome(s, cs, i, keyOf, byStart); }
    }
  }

  /** A position taken: nine events from its signal to its end. */
  method TradeThrough(audit: AuditLog, p: Plan, c: Candidate, signal: string, quantity: int, liquidityStart: int, exitVolume: int,
                      start: real)
    returns (failure: Option<string>, cash: real, halted: bool)
    requires audit.Valid() && CollisionFree(audit.b) && signal !in audit.states
    requires |audit.events| + 9 <= LIMIT && InTime(audit.events, c.at)
    requires 1 <= quantity && c.held.Some? && c.held.value.signalAt == c.at <= c.held.value.exitAt
    requires 0.0 < c.held.value.entry && p.costs.Effective(p.costs.PricingDate(c.at))
    requires c.held.value.exit.Some? ==>
      0.0 < c.held.value.exit.value && p.costs.Effective(p.costs.PricingDate(c.held.value.exitAt - FIVE))
    requires signal == p.Signal(c) && liquidityStart == p.Liquidity(c).start && exitVolume == p.ExitVolume(c.held.value)
    modifies audit
    ensures failure.None? && audit.Valid()
    ensures |audit.events| == old(|audit.events|) + 9 && InTime(audit.events, c.held.value.exitAt)
    ensures audit.states == old(audit.states)[signal := if halted then PAPER_HALTED else PAPER_POSITION_CLOSED]
    ensures Told(audit.events) == old(Told(audit.events)) + Trading(p, c, quantity, start)
    ensures cash == Sold(p.settings, p.costs, c.held.value, quantity, exitVolume, Bought(p.costs, c.held.value.entry, quantity, start))
    ensures cash - start == Flow(audit.events) - old(Flow(audit.events))
    ensures halted <==> c.held.value.exit.None? || exitVolume as real * p.settings.participation < quantity as real
  {
    Paths();
    hide Flow, Genuine, CollisionFree, InTime, Moved, Schedule.Effective, Schedule.PricingDate, Told, Noted, Ordering, Filling, Leaving,
         Bought, Sold, Plan.Signal, Plan.Liquidity, Plan.ExitVolume, Transitions;
    var h := c.held.value;
    failure := Receive(audit, signal, h.signalAt, c.at);
    var e := Accept(audit, signal, c.at, quantity, liquidityStart);
    failure := Earlier(failure, e);
    e, cash := Fill(audit, signal, c.at, h.entry, quantity, liquidityStart, p.costs, start);
    failure := Earlier(failure, e);
    LaterInTime(audit.events, c.at, h.exitAt);
    e, cash, halted := Leave(audit, signal, h, quantity, exitVolume, p.settings, p.costs, cash);
    failure := Earlier(failure, e);
  }

  /** One candidate from signal to end: a refusal is rejected; a position is sized on entry-time evidence
      and then rejected, or traded. */
  method WalkCandidate(audit: AuditLog, p: Plan, c: Candidate, signal: PaperEvent, liquidity: Candle, exitVolume: int, at: Standing)
    returns (failure: Option<string>, next: Standing)
    requires audit.Valid() && CollisionFree(audit.b) && signal.key !in audit.states
    requires |audit.events| + 9 <= LIMIT && InTime(audit.events, c.at) && c.at <= c.Until()
    requires !p.risk.HasGaps() && !at.halted
    requires signal.key == p.Signal(c) && liquidity == p.Liquidity(c)
    requires c.held.Some? ==>
      && p.OrderOf(c, at.cash).Valid() && exitVolume == p.ExitVolume(c.held.value)
      && 0.0 < c.held.value.entry && c.held.value.signalAt == c.at
      && p.costs.Effective(p.costs.PricingDate(c.at))
      && (c.held.value.exit.Some? ==>
            0.0 < c.held.value.exit.value && p.costs.Effective(p.costs.PricingDate(c.held.value.exitAt - FIVE)))
    requires c.at < signal.expiry
    modifies audit
    ensures failure.None? && audit.Valid()
    ensures |audit.events| <= old(|audit.events|) + 9 && InTime(audit.events, c.Until())
    ensures signal.key in audit.states && Over(audit.states[signal.key]) && audit.states == old(audit.states)[signal.key := audit.states[signal.key]]
    ensures Told(audit.events) == old(Told(audit.events)) + EntriesFor(p, c, at) && next == Next(p, c, at)
    ensures next.cash - at.cash == Flow(audit.events) - old(Flow(audit.events))
  {
    hide Flow, Genuine, CollisionFree, Order.Valid, Order.Feasible, Order.Answerable, Start, Sized, Schedule.Effective, Schedule.PricingDate,
         Told, Refusal, Trading, Bought, Sold, Plan.Signal, Plan.Liquidity, Plan.ExitVolume;
    if c.held.None? {
      failure := Reject(audit, signal.key, c.at, c.at, "ENTRY_LIMIT_OR_LIQUIDITY", at.cash);
      return failure, at;
    }
    var h := c.held.value;
    next := at;
    if at.day != Some(DateOf(c.at)) {
      next := next.(day := Some(DateOf(c.at)), dayStartCash := at.cash);
    }
    var order := Order(p.risk, p.settings, p.costs, h.entry, at.cash, liquidity.volume, p.d.stop);
    var quantity := SizeOf(order, c.at);
    var reason :=
      if c.at >= signal.expiry then Some("SIGNAL_EXPIRED")
      else if next.dayStartCash - at.cash >= p.risk.dailyLoss.value then Some("DAILY_LOSS_GUARD")
      else if quantity < 1 then Some("POSITION_SIZE_OR_EXPOSURE_OR_LIQUIDITY")
      else None;
    assert reason == Denied(p, c, at);
    if reason.Some? {
      failure := Reject(audit, signal.key, h.signalAt, c.at, reason.value, at.cash);
      return;
    }
    var cash, halted;
    failure, cash, halted := TradeThrough(audit, p, c, signal.key, quantity, liquidity.start, exitVolume, at.cash);
    next := next.(cash := cash, halted := halted);
  }

  /** The size, when the tariff is in force. */
  method SizeOf(order: Order, at: int) returns (quantity: int)
    requires order.Valid() && !order.risk.HasGaps() && order.costs.Effective(order.costs.PricingDate(at))
    ensures quantity == Sized(order)
  {
    var sized := Size(order, at);
    quantity := sized.value;
    if order.Answerable() { SizedUnique(order, quantity); }
  }

  /** In time order, a candidate is over when the next begins. */
  lemma {:induction false} NextBegins(cs: seq<Candidate>, i: nat)
    requires AllApart(cs) && InOrderOfTime(cs) && i + 1 < |cs|
    ensures cs[i].Until() <= cs[i + 1].at
  {
    assert Apart(cs[i], cs[i + 1]);
  }

  /** The candidates of an accepted execution, sorted as the run visits them. */
  lemma {:induction false} SortedCandidates(series: PriceSeries, d: Definition, settings: Settings, costs: Schedule, e: Execution)
    requires series.Valid() && settings.Valid() && costs.Valid() && d.Valid()
    requires Executed(series, d, UnitSettings(settings), costs) == Ok(e)
    ensures
      var cs := SortedByTime(Candidates(e));
      && AllApart(cs) && InOrderOfTime(cs) && |cs| <= 15000
      && (forall c :: c in cs ==> Grounded(series, costs, c))
  {
    hide Executed, Grounded, SortedByTime, PriceSeries.Valid;
    ExecutionsAreChronological(series, d, UnitSettings(settings), costs);
    CandidatesGrounded(series, d, settings, costs);
    CandidatesApart(e);
    SortingSorts(Candidates(e));
    ApartPermutes(Candidates(e), SortedByTime(Candidates(e)));
    forall c | c in SortedByTime(Candidates(e)) ensures Grounded(series, costs, c) {
      assert c in multiset(SortedByTime(Candidates(e)));
    }
  }

  /** The candidates of an execution, one after the other, until a position cannot be left. */
  method WalkAll(audit: AuditLog, p: Plan, cs: seq<Candidate>) returns (failure: Option<string>, cash: real)
    requires p.settings.Valid() && p.costs.Valid() && p.d.Valid() && p.risk.Valid() && !p.risk.HasGaps()
    requires Sound(p.series.bars) && KeysApart(p.keyOf, p.series.bars)
    requires audit.Valid() && CollisionFree(audit.b) && audit.Contents() == EMPTY
    requires AllApart(cs) && InOrderOfTime(cs) && |cs| <= 15000
    requires forall c :: c in cs ==> Grounded(p.series, p.costs, c)
    modifies audit
    ensures failure.None? && audit.Valid()
    ensures |audit.events| <= 9 * |cs|
    ensures forall s :: s in audit.states ==> Over(audit.states[s])
    ensures Told(audit.events) == Story(p, cs, |cs|).entries && cash == Story(p, cs, |cs|).standing.cash
    ensures cash == p.settings.capital + Flow(audit.events)
  {
    hide Genuine, CollisionFree, ByStart, Settings.Valid, Schedule.Valid, Definition.Valid, Risk.Valid, Sound, AllApart,
         LiquidityBar, EventOf, InTime, Flow, EntriesFor, Next, Told, Plan.Signal, Plan.Liquidity, Plan.ExitVolume, Plan.OrderOf;
    failure := None;
    StartsEmpty(audit.events, p.settings.capital);
    var at := Standing(p.settings.capital, None, p.settings.capital, false);
    var byStart := ByStart(p.series.bars);
    var i := 0;
    while i < |cs|
      invariant 0 <= i <= |cs|
      invariant failure.None? && audit.Valid()
      invariant |audit.events| <= 9 * i
      invariant Finished(audit.states, cs, i, p.keyOf, byStart)
      invariant i < |cs| ==> InTime(audit.events, cs[i].at)
      invariant Tale(Told(audit.events), at) == Story(p, cs, i) && !at.halted
      invariant at.cash == p.settings.capital + Flow(audit.events)
    {
      var c := cs[i];
      assert Grounded(p.series, p.costs, c);
      Begins(cs, i);
      var candle := byStart[c.at - FIVE];
      CandleSound(p.series, c.at - FIVE);
      EventSucceeds(p.d, p.keyOf, candle, c.at);
      var signal := EventOf(p.d, p.keyOf, candle, c.at).value;
      KeyIsNew(audit.states, cs, i, p.keyOf, p.series.bars);
      var liquidity := LiquidityBar(p.series, c.at).value;
      var exitVolume := if c.held.Some? then byStart[c.held.value.exitAt - FIVE].volume else 0;
      PlanReads(p, c, at.cash);
      var failed;
      ghost var states := audit.states;
      failed, at := WalkCandidate(audit, p, c, signal, liquidity, exitVolume, at);
      FinishedGrows(states, cs, i, p.keyOf, byStart, signal.key, audit.states[signal.key]);
      failure := Earlier(failure, failed);
      i := i + 1;
      if at.halted {
        StoryEnds(p, cs, i, |cs|);
        break;
      }
      if i < |cs| {
        NextBegins(cs, i - 1);
        LaterInTime(audit.events, c.Until(), cs[i].at);
      }
    }
    cash := at.cash;
  }

  /** For a candidate that stands on existing candles, the plan reads just those. */
  lemma {:induction false} PlanReads(p: Plan, c: Candidate, cash: real)
    requires p.settings.Valid() && p.costs.Valid() && p.d.Valid() && p.risk.Valid() && Sound(p.series.bars)
    requires Grounded(p.series, p.costs, c)
    ensures p.Signal(c) == p.keyOf(ByStart(p.series.bars)[c.at - FIVE])
    ensures p.Liquidity(c) == LiquidityBar(p.series, c.at).value
    ensures c.held.Some? ==> p.OrderOf(c, cash).Valid()
    ensures c.held.Some? ==> p.ExitVolume(c.held.value) == ByStart(p.series.bars)[c.held.value.exitAt - FIVE].volume
  {
    hide ByStart, LiquidityBar, Settings.Valid, Schedule.Valid, Risk.Valid;
    if c.held.Some? { LiquiditySound(p.series, c.at, p.OrderOf(c, cash), p.d); }
  }

  lemma {:induction false} StartsEmpty(events: seq<Row>, capital: real)
    requires events == []
    ensures capital == capital + Flow(events)
    ensures forall at :: InTime(events, at)
    ensures Told(events) == []
  {
  }

  lemma {:induction false} Begins(cs: seq<Candidate>, i: nat)
    requires AllApart(cs) && i < |cs|
    ensures cs[i].at <= cs[i].Until()
  {
  }

  lemma {:induction false} CandleSound(series: PriceSeries, start: int)
    requires Sound(series.bars) && start in ByStart(series.bars)
    ensures ByStart(series.bars)[start].Valid() && ByStart(series.bars)[start].start == start
  {
    ByStartFinds(series.bars, start);
  }

  lemma {:induction false} LiquiditySound(series: PriceSeries, at: int, order: Order, d: Definition)
    requires Sound(series.bars) && LiquidityBar(series, at).Ok?
    requires order.risk.Valid() && order.settings.Valid() && order.costs.Valid() && d.Valid() && order.stop == d.stop
    requires order.volume == LiquidityBar(series, at).value.volume
    ensures order.Valid()
  {
    EndingIn(series.bars, at);
  }

  lemma {:induction false} EndingIn(bars: seq<Candle>, at: int)
    ensures EndingAt(bars, at).Some? ==> EndingAt(bars, at).value in bars
  {
    if bars != [] { EndingIn(bars[1..], at); }
  }

  /** The paper simulation. It never fails: no emission is refused for its transition, its time, its
      identity or the log's size, no candle or tariff is missing, and the log replays. It records exactly what the
      story of its candidates says. Every signal it received is over, and the cash it reports is the capital plus
      what the recorded fills and closes moved. */
  method Simulate(binding: Binding, p: Plan, refusals: seq<string>, halt: bool)
    returns (failure: Option<string>, audit: AuditLog, cash: real)
    requires p.series.Valid() && p.settings.Valid() && p.costs.Valid() && p.d.Valid() && p.risk.Valid()
    requires CollisionFree(binding) && KeysApart(p.keyOf, p.series.bars)
    requires refusals == [] ==> !p.risk.HasGaps()
    ensures failure.None? && fresh(audit) && audit.b == binding && audit.Valid()
    ensures (Told(audit.events), cash) == Recorded(binding, p, refusals, halt)
    ensures |audit.events| <= 135000
    ensures forall s :: s in audit.states ==> Over(audit.states[s])
    ensures cash == p.settings.capital + Flow(audit.events)
  {
    hide Genuine, CollisionFree, Executed, Flow, Transitions, PriceSeries.CalendarKnown, Told, Story, Inadmissible, Unexecuted;
    audit := new AuditLog(binding);
    cash := p.settings.capital;
    StartsEmpty(audit.events, cash);
    var start := p.series.fromInclusive;
    if refusals != [] || halt {
      failure := Refuse(audit, binding.digest(binding.runId + "admission"), start, halt, Semicolons(refusals), cash);
    } else {
      var candidate := Execute(p.series, p.d, UnitSettings(p.settings), p.costs);
      if candidate.Err? {
        failure := Halt(audit, binding.digest(binding.runId + "quality"), start, candidate.error, cash);
      } else {
        SortedCandidates(p.series, p.d, p.settings, p.costs, candidate.value);
        failure, cash := WalkAll(audit, p, SortedByTime(Candidates(candidate.value)));
      }
    }
    var error, copy := AuditLog.Replay(binding, audit.events);
    ReplayIsExact(audit.b, audit.Contents());
    failure := Earlier(failure, error);
  }

  lemma {:induction false} ReplayIsExact(b: Binding, log: Log)
    requires Genuine(b, log)
    ensures Replayed(b, log.events).Ok?
  {
  }

  method Refuse(audit: AuditLog, signal: string, at: int, halt: bool, reasons: string, cash: real) returns (failure: Option<string>)
    requires audit.Valid() && CollisionFree(audit.b) && audit.Contents() == EMPTY
    modifies audit
    ensures failure.None? && audit.Valid() && |audit.events| == 3
    ensures Told(audit.events) == Inadmissible(signal, at, halt, reasons, cash)
    ensures forall s :: s in audit.states ==> Over(audit.states[s])
    ensures Flow(audit.events) == 0.0
  {
    StartsEmpty(audit.events, 0.0);
    hide Genuine, CollisionFree, Told, Noted, Transitions, Flow, InTime;
    failure := Receive(audit, signal, at, at);
    var e := Decline(audit, signal, if halt then PAPER_HALTED else PAPER_ORDER_REJECTED, at, if halt then "PAPER_HALT" else reasons, cash);
    failure := Earlier(failure, e);
  }

  method Halt(audit: AuditLog, signal: string, at: int, error: string, cash: real) returns (failure: Option<string>)
    requires audit.Valid() && CollisionFree(audit.b) && audit.Contents() == EMPTY
    modifies audit
    ensures failure.None? && audit.Valid() && |audit.events| == 2
    ensures Told(audit.events) == Unexecuted(signal, at, error, cash)
    ensures forall s :: s in audit.states ==> Over(audit.states[s])
    ensures Flow(audit.events) == 0.0
  {
    assert Told(audit.events) == [];
    Paths();
    hide Genuine, CollisionFree, Moved, Told, Noted, Transitions;
    failure := Record(audit, signal, SIGNAL_RECEIVED, at, map[]);
    var e := Record(audit, signal, PAPER_HALTED, at, map[REJECTION := Audit.Text(error), CASH := Amount(cash)]);
    failure := Earlier(failure, e);
  }
}
