/** What the strategy of the one-minute engine is shown, and what the equity curve records, told from the bars and the
    fills before. */
module DecisionLaws {
  import opened Wrappers
  import opened Clock
  import opened Costs
  import opened Backtest
  import opened BacktestLaws
  import opened FillLaws
  import BacktestCausality

  // ----- the state after a bar, from the fills and trades before its end -----

  function RealizedBy(trades: seq<Trade>, at: int): real {
    if trades == [] then 0.0
    else RealizedBy(trades[..|trades| - 1], at) + if trades[|trades| - 1].exit.time < at then trades[|trades| - 1].net else 0.0
  }

  function QuantityOf(held: Option<Fill>): int { if held.Some? then held.value.quantity else 0 }

  /** What the position has gained at a price, before costs. */
  function Gain(held: Option<Fill>, price: real): real {
    if held.Some? then Gross(price - held.value.price, held.value.quantity) else 0.0
  }

  /** The point of the equity curve at the end of bar n: cash and position of the fills before, marked at the close. */
  ghost predicate PointOn(m: Market, c: Config, fills: seq<Fill>, trades: seq<Trade>, n: nat, p: Point) {
    n < |m.bars| &&
    var at := m.bars[n].start + 1;
    var held, cash := HeldBy(fills, at), CashBy(c.initialCash, fills, at);
    && p.time == at && p.cash == cash && p.quantity == QuantityOf(held) && p.mark == m.bars[n].close
    && p.unrealized == Gain(held, p.mark) && p.realized == RealizedBy(trades, at)
    && p.equity == cash + Gross(p.mark, QuantityOf(held))
  }

  /** The bars a strategy is shown at bar n: those of its own session in a corpus, all so far in a dataset. */
  ghost predicate Shown(m: Market, n: nat, bars: seq<Bar>)
    requires n < |m.bars|
  {
    exists from: nat :: From(m, n, from) && bars == m.bars[from..n + 1]
  }

  ghost predicate From(m: Market, n: nat, from: nat)
    requires n < |m.bars|
  {
    && from <= n && (!m.sessionView ==> from == 0)
    && (m.sessionView ==>
          && (forall i :: from <= i <= n ==> DateOf(m.bars[i].start) == DateOf(m.bars[n].start))
          && (from > 0 ==> DateOf(m.bars[from - 1].start) != DateOf(m.bars[n].start)))
  }

  /** What the strategy is told when bar n completes. */
  ghost predicate DecisionOn(m: Market, c: Config, fills: seq<Fill>, trades: seq<Trade>, n: nat, d: Decision) {
    n < |m.bars| &&
    var at := m.bars[n].start + 1;
    var held := HeldBy(fills, at);
    && d.time == at && Shown(m, n, d.completed) && d.day == DayFor(m.days, DateOf(m.bars[n].start))
    && d.quantity == QuantityOf(held) && d.entryPrice == (if held.Some? then held.value.price else 0.0)
    && d.entryCosts == (if held.Some? then held.value.costs else 0.0)
    && d.unrealized == Gain(held, m.bars[n].close)
    && d.cash == CashBy(c.initialCash, fills, at) && d.realized == RealizedBy(trades, at)
  }

  /** The strategy proposed this intent when bar n completed. */
  ghost predicate ProposedOn(m: Market, c: Config, s: Strategy, fills: seq<Fill>, trades: seq<Trade>, n: nat, created: int, intent: Intent) {
    exists d :: DecisionOn(m, c, fills, trades, n, d) && created == d.time && s(d) == Ok(Some(intent))
  }

  /** The engine's own order at the forced-exit minute: all that is held. */
  ghost predicate ForcedOn(m: Market, c: Config, fills: seq<Fill>, n: nat, created: int, intent: Intent) {
    && n < |m.bars| && created == m.bars[n].start && TimeOfDay(created) == c.forcedExit && HeldBy(fills, created).Some?
    && intent == Intent(SELL, HeldBy(fills, created).value.quantity, "FORCED_EXIT")
  }

  ghost predicate IntentTold(m: Market, c: Config, s: Strategy, fills: seq<Fill>, trades: seq<Trade>, created: int, intent: Intent) {
    exists n: nat :: ProposedOn(m, c, s, fills, trades, n, created, intent) || ForcedOn(m, c, fills, n, created, intent)
  }

  /** An intent was created at an instant: it is resolved, or waits. */
  predicate Created(os: seq<Outcome>, waiting: Option<Pending>, at: int, intent: Intent) {
    (exists o :: o in os && o.created == at && o.intent == intent) || (waiting.Some? && waiting.value.created == at && waiting.value.intent == intent)
  }

  /** An answer that stops the run: the strategy raises, or proposes a quantity outside its type. */
  predicate Fails(answer: Result<Option<Intent>>) {
    answer.Err? || (answer.value.Some? && !(1 <= answer.value.value.quantity <= 2147483647))
  }

  /** The strategy was asked when bar n completed, did not fail, and whatever it proposed became an intent. */
  ghost predicate Heard(m: Market, c: Config, s: Strategy, fills: seq<Fill>, trades: seq<Trade>, os: seq<Outcome>, waiting: Option<Pending>, n: nat)
    requires n < |m.bars|
  {
    exists d :: DecisionOn(m, c, fills, trades, n, d) && !Fails(s(d)) && (s(d).value.Some? ==> Created(os, waiting, d.time, s(d).value.value))
  }

  /** A trade is its two fills. */
  ghost predicate Settles(t: Trade) {
    && t.gross == t.exit.notional - t.entry.notional && t.costs == t.entry.costs + t.exit.costs && t.net == t.gross - t.costs
  }

  // ----- what a desk keeps -----

  ghost predicate Marked(m: Market, c: Config, desk: Desk, n: nat)
    requires n <= |m.bars|
  {
    |desk.curve| == n && forall k :: 0 <= k < n ==> PointOn(m, c, desk.fills, desk.trades, k, desk.curve[k])
  }

  ghost predicate Listened(m: Market, c: Config, s: Strategy, desk: Desk, n: nat)
    requires n <= |m.bars|
  {
    && (forall o :: o in desk.outcomes ==> IntentTold(m, c, s, desk.fills, desk.trades, o.created, o.intent))
    && (desk.pending.Some? ==> IntentTold(m, c, s, desk.fills, desk.trades, desk.pending.value.created, desk.pending.value.intent))
    && (forall k :: 0 <= k < n ==> Heard(m, c, s, desk.fills, desk.trades, desk.outcomes, desk.pending, k))
  }

  ghost predicate Netted(desk: Desk, at: int) {
    && (forall t :: t in desk.trades ==> Settles(t) && t.exit.time < at)
    && desk.realized == RealizedBy(desk.trades, at)
    && (forall o :: o in desk.outcomes ==> o.created <= at) && (desk.pending.Some? ==> desk.pending.value.created <= at)
  }

  // ----- later fills and trades change nothing before them -----

  /** Later books: at most one more fill and one more trade, both at or after an instant. */
  ghost predicate Extends(fills: seq<Fill>, trades: seq<Trade>, later: seq<Fill>, more: seq<Trade>, at: int) {
    && (later == fills || (|later| == |fills| + 1 && later[..|fills|] == fills && later[|fills|].time >= at))
    && (more == trades || (|more| == |trades| + 1 && more[..|trades|] == trades && more[|trades|].exit.time >= at))
  }

  lemma {:induction false} SameState(c: Config, fills: seq<Fill>, trades: seq<Trade>, later: seq<Fill>, more: seq<Trade>, from: int, at: int)
    requires Extends(fills, trades, later, more, from) && at <= from
    ensures HeldBy(later, at) == HeldBy(fills, at) && CashBy(c.initialCash, later, at) == CashBy(c.initialCash, fills, at)
    ensures RealizedBy(more, at) == RealizedBy(trades, at)
  {
    if later != fills {
      assert later == fills + [later[|fills|]];
      LaterFill(c, fills, later[|fills|], at);
    }
  }

  lemma {:induction false} PointStays(m: Market, c: Config, fills: seq<Fill>, trades: seq<Trade>, later: seq<Fill>, more: seq<Trade>, from: int, n: nat, p: Point)
    requires PointOn(m, c, fills, trades, n, p) && Extends(fills, trades, later, more, from) && m.bars[n].start < from
    ensures PointOn(m, c, later, more, n, p)
  {
    SameState(c, fills, trades, later, more, from, m.bars[n].start + 1);
    hide HeldBy, CashBy, RealizedBy, Extends, Gain, Gross;
  }

  lemma {:induction false} DecisionStays(m: Market, c: Config, fills: seq<Fill>, trades: seq<Trade>, later: seq<Fill>, more: seq<Trade>, from: int, n: nat, d: Decision)
    requires n < |m.bars| && Extends(fills, trades, later, more, from) && m.bars[n].start < from
    ensures DecisionOn(m, c, fills, trades, n, d) <==> DecisionOn(m, c, later, more, n, d)
  {
    SameState(c, fills, trades, later, more, from, m.bars[n].start + 1);
    hide HeldBy, CashBy, RealizedBy, Extends, Gain, Shown;
  }

  /** Outcomes only grow, and a waiting intent is resolved. */
  ghost predicate Follows(os: seq<Outcome>, waiting: Option<Pending>, later: seq<Outcome>, next: Option<Pending>) {
    forall at, intent :: Created(os, waiting, at, intent) ==> Created(later, next, at, intent)
  }

  lemma {:induction false} HeardStays(m: Market, c: Config, s: Strategy, desk: Desk, after: Desk, from: int, n: nat)
    requires n < |m.bars| && Heard(m, c, s, desk.fills, desk.trades, desk.outcomes, desk.pending, n)
    requires Extends(desk.fills, desk.trades, after.fills, after.trades, from) && m.bars[n].start < from
    requires Follows(desk.outcomes, desk.pending, after.outcomes, after.pending)
    ensures Heard(m, c, s, after.fills, after.trades, after.outcomes, after.pending, n)
  {
    var d :| DecisionOn(m, c, desk.fills, desk.trades, n, d) && s(d).Ok? &&
             (s(d).value.Some? ==> Created(desk.outcomes, desk.pending, d.time, s(d).value.value));
    DecisionStays(m, c, desk.fills, desk.trades, after.fills, after.trades, from, n, d);
    hide DecisionOn, Extends, Created;
  }

  lemma {:induction false} IntentStays(m: Market, c: Config, s: Strategy, fills: seq<Fill>, trades: seq<Trade>, later: seq<Fill>, more: seq<Trade>, from: int,
                                        created: int, intent: Intent)
    requires IntentTold(m, c, s, fills, trades, created, intent) && Extends(fills, trades, later, more, from) && created <= from
    ensures IntentTold(m, c, s, later, more, created, intent)
  {
    var n: nat :| ProposedOn(m, c, s, fills, trades, n, created, intent) || ForcedOn(m, c, fills, n, created, intent);
    if ForcedOn(m, c, fills, n, created, intent) {
      SameState(c, fills, trades, later, more, from, created);
      assert ForcedOn(m, c, later, n, created, intent);
    } else {
      var d :| DecisionOn(m, c, fills, trades, n, d) && created == d.time && s(d) == Ok(Some(intent));
      DecisionTime(m, c, fills, trades, n, d);
      DecisionStays(m, c, fills, trades, later, more, from, n, d);
      assert ProposedOn(m, c, s, later, more, n, created, intent);
    }
  }

  lemma {:induction false} DecisionTime(m: Market, c: Config, fills: seq<Fill>, trades: seq<Trade>, n: nat, d: Decision)
    requires DecisionOn(m, c, fills, trades, n, d)
    ensures n < |m.bars| && d.time == m.bars[n].start + 1
  {
    hide Shown, Gain, HeldBy, CashBy, RealizedBy;
  }

  // ----- one bar -----

  lemma {:induction false} Closed(trades: seq<Trade>, at: int, later: int)
    requires at <= later && forall t :: t in trades ==> t.exit.time < at
    ensures RealizedBy(trades, later) == RealizedBy(trades, at)
  {
    if trades != [] {
      assert trades[|trades| - 1] in trades;
      assert forall t :: t in trades[..|trades| - 1] ==> t in trades;
      Closed(trades[..|trades| - 1], at, later);
    }
  }

  /** What the open changes: at most one fill and one trade at its start, and what a forced exit creates. */
  lemma {:induction false} OpenChanges(m: Market, c: Config, bar: Bar, desk: Desk)
    requires 1 <= m.lotSize && AtOpen(m, c, bar, desk).Ok?
    ensures
      var after := AtOpen(m, c, bar, desk).value;
      && Extends(desk.fills, desk.trades, after.fills, after.trades, bar.start) && after.curve == desk.curve
      && (after.trades == desk.trades ==> after.realized == desk.realized)
      && (after.trades != desk.trades ==>
            Settles(after.trades[|desk.trades|]) && after.trades[|desk.trades|].exit.time == bar.start &&
            after.realized == desk.realized + after.trades[|desk.trades|].net)
      && (forall o :: o in after.outcomes ==>
            o in desk.outcomes || (desk.pending.Some? && o.created == desk.pending.value.created && o.intent == desk.pending.value.intent) ||
            (Forced(c, bar, desk) && o.created == bar.start && o.intent == Intent(SELL, desk.entry.value.quantity, "FORCED_EXIT")))
      && (forall o :: o in desk.outcomes ==> o in after.outcomes)
      && Follows(desk.outcomes, desk.pending, after.outcomes, after.pending)
      && after.pending.None?
  {
    var ready := Force(c, bar, desk);
    ForceChanges(c, bar, desk);
    if ready.pending.Some? { ResolveChanges(m, c, bar, Forced(c, bar, desk), ready); }
    hide Force, Forced, Resolve;
  }

  lemma {:induction false} ForceChanges(c: Config, bar: Bar, desk: Desk)
    ensures
      var after := Force(c, bar, desk);
      && after.fills == desk.fills && after.trades == desk.trades && after.curve == desk.curve && after.realized == desk.realized
      && (!Forced(c, bar, desk) ==> after == desk)
      && (Forced(c, bar, desk) ==>
            after.pending.Some? && after.pending.value.created == bar.start &&
            after.pending.value.intent == Intent(SELL, desk.entry.value.quantity, "FORCED_EXIT") &&
            after.outcomes ==
            desk.outcomes + if desk.pending.Some? then [Resolved(desk.pending.value, bar.start, SUPERSEDED_BY_FORCED_EXIT)] else [])
  {
  }

  lemma {:induction false} ResolveChanges(m: Market, c: Config, bar: Bar, forced: bool, desk: Desk)
    requires 1 <= m.lotSize && desk.pending.Some? && Resolve(m, c, bar, forced, desk).Ok?
    ensures
      var after := Resolve(m, c, bar, forced, desk).value;
      && Extends(desk.fills, desk.trades, after.fills, after.trades, bar.start) && after.curve == desk.curve && after.pending.None?
      && (after.trades == desk.trades ==> after.realized == desk.realized)
      && (after.trades != desk.trades ==>
            Settles(after.trades[|desk.trades|]) && after.trades[|desk.trades|].exit.time == bar.start &&
            after.realized == desk.realized + after.trades[|desk.trades|].net)
      && |after.outcomes| == |desk.outcomes| + 1 && after.outcomes[..|desk.outcomes|] == desk.outcomes
      && after.outcomes[|desk.outcomes|].created == desk.pending.value.created
      && after.outcomes[|desk.outcomes|].intent == desk.pending.value.intent
      && after.outcomes == desk.outcomes + [after.outcomes[|desk.outcomes|]]
  {
    hide Value, Adverse, ChargeFor, Rejection, Unaffordable;
  }

  /** The open keeps everything told so far. */
  lemma {:induction false} OpenListens(m: Market, c: Config, s: Strategy, n: nat, desk: Desk)
    requires m.Valid() && 1 <= m.lotSize && n < |m.bars| && AtOpen(m, c, m.bars[n], desk).Ok?
    requires Marked(m, c, desk, n) && Listened(m, c, s, desk, n) && Netted(desk, m.bars[n].start) && Booked(c, desk, m.bars[n].start)
    ensures
      var after := AtOpen(m, c, m.bars[n], desk).value;
      Marked(m, c, after, n) && Listened(m, c, s, after, n) && Netted(after, m.bars[n].start + 1) && after.pending.None?
  {
    hide *;
    var bar, after := m.bars[n], AtOpen(m, c, m.bars[n], desk).value;
    OpenChanges(m, c, bar, desk);
    BarsBefore(m, n);
    MarksStay(m, c, n, desk, after);
    ListenedStays(m, c, s, n, desk, after);
    NettedOpen(m, c, bar, desk, after);
  }

  lemma {:induction false} ListenedStays(m: Market, c: Config, s: Strategy, n: nat, desk: Desk, after: Desk)
    requires n < |m.bars| && Listened(m, c, s, desk, n) && Netted(desk, m.bars[n].start) && Booked(c, desk, m.bars[n].start)
    requires Extends(desk.fills, desk.trades, after.fills, after.trades, m.bars[n].start) && after.pending.None?
    requires Follows(desk.outcomes, desk.pending, after.outcomes, after.pending)
    requires forall k: nat :: k < n ==> m.bars[k].start < m.bars[n].start
    requires forall o :: o in after.outcomes ==>
      o in desk.outcomes || (desk.pending.Some? && o.created == desk.pending.value.created && o.intent == desk.pending.value.intent) ||
      (Forced(c, m.bars[n], desk) && o.created == m.bars[n].start && o.intent == Intent(SELL, desk.entry.value.quantity, "FORCED_EXIT"))
    ensures Listened(m, c, s, after, n)
  {
    IntentsStay(m, c, s, n, desk, after);
    hide Extends, IntentTold, Heard, Booked, Follows, Forced, Netted;
    forall k: nat | k < n ensures Heard(m, c, s, after.fills, after.trades, after.outcomes, after.pending, k) {
      HeardStays(m, c, s, desk, after, m.bars[n].start, k);
    }
  }

  lemma {:induction false} BarsBefore(m: Market, n: nat)
    requires m.Valid() && n < |m.bars|
    ensures forall k: nat :: k < n ==> m.bars[k].start < m.bars[n].start
  {
    hide Market.Valid;
    forall k: nat | k < n ensures m.bars[k].start < m.bars[n].start { BacktestCausality.BarsAdvance(m, k, n); }
  }

  lemma {:induction false} MarksStay(m: Market, c: Config, n: nat, desk: Desk, after: Desk)
    requires n < |m.bars| && Marked(m, c, desk, n) && after.curve == desk.curve
    requires Extends(desk.fills, desk.trades, after.fills, after.trades, m.bars[n].start)
    requires forall k: nat :: k < n ==> m.bars[k].start < m.bars[n].start
    ensures Marked(m, c, after, n)
  {
    hide Extends, PointOn;
    forall k: nat | k < n ensures PointOn(m, c, after.fills, after.trades, k, after.curve[k]) {
      PointStays(m, c, desk.fills, desk.trades, after.fills, after.trades, m.bars[n].start, k, desk.curve[k]);
    }
  }

  lemma {:induction false} IntentsStay(m: Market, c: Config, s: Strategy, n: nat, desk: Desk, after: Desk)
    requires n < |m.bars| && Listened(m, c, s, desk, n) && Netted(desk, m.bars[n].start) && Booked(c, desk, m.bars[n].start)
    requires Extends(desk.fills, desk.trades, after.fills, after.trades, m.bars[n].start)
    requires forall o :: o in after.outcomes ==>
      o in desk.outcomes || (desk.pending.Some? && o.created == desk.pending.value.created && o.intent == desk.pending.value.intent) ||
      (Forced(c, m.bars[n], desk) && o.created == m.bars[n].start && o.intent == Intent(SELL, desk.entry.value.quantity, "FORCED_EXIT"))
    ensures forall o :: o in after.outcomes ==> IntentTold(m, c, s, after.fills, after.trades, o.created, o.intent)
  {
    var at := m.bars[n].start;
    SameState(c, desk.fills, desk.trades, after.fills, after.trades, at, at);
    hide Extends, IntentTold, HeldBy, CashBy, RealizedBy, Heard;
    forall o | o in after.outcomes ensures IntentTold(m, c, s, after.fills, after.trades, o.created, o.intent) {
      if o in desk.outcomes || (desk.pending.Some? && o.created == desk.pending.value.created && o.intent == desk.pending.value.intent) {
        IntentStays(m, c, s, desk.fills, desk.trades, after.fills, after.trades, at, o.created, o.intent);
      } else {
        assert ForcedOn(m, c, after.fills, n, o.created, o.intent);
        ForcedIsTold(m, c, s, after.fills, after.trades, n, o.created, o.intent);
      }
    }
  }

  lemma {:induction false} ForcedIsTold(m: Market, c: Config, s: Strategy, fills: seq<Fill>, trades: seq<Trade>, n: nat, created: int, intent: Intent)
    requires ForcedOn(m, c, fills, n, created, intent)
    ensures IntentTold(m, c, s, fills, trades, created, intent)
  {
    hide ForcedOn, ProposedOn;
  }

  lemma {:induction false} NettedOpen(m: Market, c: Config, bar: Bar, desk: Desk, after: Desk)
    requires Netted(desk, bar.start) && after.pending.None?
    requires Extends(desk.fills, desk.trades, after.fills, after.trades, bar.start)
    requires after.trades == desk.trades ==> after.realized == desk.realized
    requires after.trades != desk.trades ==>
      Settles(after.trades[|desk.trades|]) && after.trades[|desk.trades|].exit.time == bar.start &&
      after.realized == desk.realized + after.trades[|desk.trades|].net
    requires forall o :: o in after.outcomes ==>
      o in desk.outcomes || (desk.pending.Some? && o.created == desk.pending.value.created) || o.created == bar.start
    ensures Netted(after, bar.start + 1)
  {
    Closed(desk.trades, bar.start, bar.start + 1);
    hide Settles;
    forall t | t in after.trades ensures Settles(t) && t.exit.time < bar.start + 1 {
      if t !in desk.trades { assert after.trades == desk.trades + [after.trades[|desk.trades|]]; }
    }
  }

  // ----- the rest of the bar -----

  /** Marking, asking and closing the session, step by step. */
  lemma {:induction false} AfterParts(m: Market, c: Config, s: Strategy, n: nat, desk: Desk)
    requires n < |m.bars| && AfterOpen(m, c, s, n, desk).Ok? && desk.pending.None?
    ensures
      var after, bar := AfterOpen(m, c, s, n, desk).value, m.bars[n];
      var point := Point(bar.End(), desk.cash, Held(desk), bar.close, Value(bar.close - HeldPrice(desk), Held(desk)), desk.realized,
                         desk.cash + Value(bar.close, Held(desk)));
      var marked := desk.(curve := desk.curve + [point]);
      var context := Context(m, n, SessionStart(m, n), marked);
      && after.curve == marked.curve && after.fills == desk.fills && after.trades == desk.trades && after.realized == desk.realized
      && s(context).Ok? && !Fails(s(context))
      && (forall o :: o in desk.outcomes ==> o in after.outcomes)
      && (s(context).value.None? ==> after.outcomes == desk.outcomes && after.pending.None?)
      && (s(context).value.Some? ==>
            var intent := s(context).value.value;
            && Created(after.outcomes, after.pending, bar.End(), intent)
            && (forall o :: o in after.outcomes ==> o in desk.outcomes || (o.created == bar.End() && o.intent == intent))
            && (after.pending.Some? ==> after.pending.value.created == bar.End() && after.pending.value.intent == intent))
  {
    hide Value, Context, SessionStart, SessionEnds;
  }

  lemma {:induction false} NothingHeld(price: real)
    ensures Value(price, 0) == 0.0
  {
  }

  lemma {:induction false} StateNow(c: Config, desk: Desk, close: real, at: int)
    requires Booked(c, desk, at) && Netted(desk, at)
    ensures HeldBy(desk.fills, at) == desk.entry && CashBy(c.initialCash, desk.fills, at) == desk.cash && RealizedBy(desk.trades, at) == desk.realized
    ensures Held(desk) == QuantityOf(desk.entry) && Value(close - HeldPrice(desk), Held(desk)) == Gain(desk.entry, close)
    ensures Value(close, Held(desk)) == Gross(close, QuantityOf(desk.entry))
  {
    NothingHeld(close - HeldPrice(desk));
    hide HeldBy, CashBy, RealizedBy;
  }

  /** The context shown to the strategy is the one told from the bars. */
  lemma {:induction false} ContextTold(m: Market, c: Config, n: nat, desk: Desk)
    requires n < |m.bars| && Booked(c, desk, m.bars[n].start + 1) && Netted(desk, m.bars[n].start + 1)
    ensures DecisionOn(m, c, desk.fills, desk.trades, n, Context(m, n, SessionStart(m, n), desk))
  {
    StateNow(c, desk, m.bars[n].close, m.bars[n].start + 1);
    SessionShown(m, n);
    hide HeldBy, CashBy, RealizedBy, Value, Gain, SessionStart, Shown, Booked, Netted;
  }

  lemma {:induction false} SessionShown(m: Market, n: nat)
    requires n < |m.bars|
    ensures Shown(m, n, m.bars[if m.sessionView && SessionStart(m, n) <= n then SessionStart(m, n) else 0..n + 1])
  {
    SameSession(m, n);
    assert From(m, n, if m.sessionView then SessionStart(m, n) else 0);
  }

  lemma {:induction false} SameSession(m: Market, n: nat)
    requires n < |m.bars|
    ensures forall i :: SessionStart(m, n) <= i <= n ==> DateOf(m.bars[i].start) == DateOf(m.bars[n].start)
    ensures SessionStart(m, n) > 0 ==> DateOf(m.bars[SessionStart(m, n) - 1].start) != DateOf(m.bars[n].start)
  {
    hide DateOf;
    if n > 0 && DateOf(m.bars[n - 1].start) == DateOf(m.bars[n].start) { SameSession(m, n - 1); }
  }

  /** Only the curve of a desk differs before the strategy is asked, and it is not shown. */
  lemma {:induction false} CurveUnseen(m: Market, n: nat, sessionStart: nat, desk: Desk, curve: seq<Point>)
    requires n < |m.bars|
    ensures Context(m, n, sessionStart, desk.(curve := curve)) == Context(m, n, sessionStart, desk)
  {
  }

  lemma {:induction false} AfterListens(m: Market, c: Config, s: Strategy, n: nat, desk: Desk)
    requires n < |m.bars| && AfterOpen(m, c, s, n, desk).Ok? && desk.pending.None?
    requires Marked(m, c, desk, n) && Listened(m, c, s, desk, n) && Netted(desk, m.bars[n].start + 1) && Booked(c, desk, m.bars[n].start + 1)
    ensures
      var after := AfterOpen(m, c, s, n, desk).value;
      Marked(m, c, after, n + 1) && Listened(m, c, s, after, n + 1) && Netted(after, m.bars[n].start + 1)
  {
    hide *;
    var after := AfterOpen(m, c, s, n, desk).value;
    AfterParts(m, c, s, n, desk);
    CurveUnseen(m, n, SessionStart(m, n), desk, after.curve);
    ContextTold(m, c, n, desk);
    StateNow(c, desk, m.bars[n].close, m.bars[n].start + 1);
    PointAppended(m, c, n, desk, after);
    AskedListens(m, c, s, n, desk, after, Context(m, n, SessionStart(m, n), desk));
    NettedAfter(m, n, desk, after);
  }

  lemma {:induction false} PointAppended(m: Market, c: Config, n: nat, desk: Desk, after: Desk)
    requires n < |m.bars| && Marked(m, c, desk, n) && after.fills == desk.fills && after.trades == desk.trades
    requires
      after.curve == desk.curve + [Point(m.bars[n].End(), desk.cash, Held(desk), m.bars[n].close, Value(m.bars[n].close - HeldPrice(desk), Held(desk)),
                                         desk.realized, desk.cash + Value(m.bars[n].close, Held(desk)))]
    requires HeldBy(desk.fills, m.bars[n].start + 1) == desk.entry && CashBy(c.initialCash, desk.fills, m.bars[n].start + 1) == desk.cash
    requires RealizedBy(desk.trades, m.bars[n].start + 1) == desk.realized && Held(desk) == QuantityOf(desk.entry)
    requires Value(m.bars[n].close - HeldPrice(desk), Held(desk)) == Gain(desk.entry, m.bars[n].close)
    requires Value(m.bars[n].close, Held(desk)) == Gross(m.bars[n].close, QuantityOf(desk.entry))
    ensures Marked(m, c, after, n + 1)
  {
    hide HeldBy, CashBy, RealizedBy, Value, Gain, Gross;
    assert PointOn(m, c, after.fills, after.trades, n, after.curve[n]);
    hide PointOn;
  }

  lemma {:induction false} AskedListens(m: Market, c: Config, s: Strategy, n: nat, desk: Desk, after: Desk, d: Decision)
    requires n < |m.bars| && Listened(m, c, s, desk, n) && desk.pending.None? && after.fills == desk.fills && after.trades == desk.trades
    requires DecisionOn(m, c, desk.fills, desk.trades, n, d) && !Fails(s(d))
    requires forall o :: o in desk.outcomes ==> o in after.outcomes
    requires s(d).value.None? ==> after.outcomes == desk.outcomes && after.pending.None?
    requires s(d).value.Some? ==>
      var intent := s(d).value.value;
      && Created(after.outcomes, after.pending, m.bars[n].End(), intent)
      && (forall o :: o in after.outcomes ==> o in desk.outcomes || (o.created == m.bars[n].End() && o.intent == intent))
      && (after.pending.Some? ==> after.pending.value.created == m.bars[n].End() && after.pending.value.intent == intent)
    ensures Listened(m, c, s, after, n + 1)
  {
    DecisionTime(m, c, desk.fills, desk.trades, n, d);
    hide DecisionOn;
    if s(d).value.Some? {
      assert ProposedOn(m, c, s, after.fills, after.trades, n, d.time, s(d).value.value);
      assert IntentTold(m, c, s, after.fills, after.trades, d.time, s(d).value.value);
    }
    hide IntentTold;
    assert Heard(m, c, s, after.fills, after.trades, after.outcomes, after.pending, n);
    assert forall at, intent :: Created(desk.outcomes, None, at, intent) ==> Created(after.outcomes, after.pending, at, intent);
    forall k: nat | k < n ensures Heard(m, c, s, after.fills, after.trades, after.outcomes, after.pending, k) {
      assert Heard(m, c, s, desk.fills, desk.trades, desk.outcomes, desk.pending, k);
    }
  }

  lemma {:induction false} NettedAfter(m: Market, n: nat, desk: Desk, after: Desk)
    requires n < |m.bars| && Netted(desk, m.bars[n].start + 1) && after.trades == desk.trades && after.realized == desk.realized
    requires forall o :: o in after.outcomes ==> o in desk.outcomes || o.created == m.bars[n].End()
    requires after.pending.Some? ==> after.pending.value.created == m.bars[n].End()
    ensures Netted(after, m.bars[n].start + 1)
  {
    hide RealizedBy, Settles;
  }

  // ----- whole runs -----

  lemma {:induction false} NettedLater(desk: Desk, at: int, later: int)
    requires Netted(desk, at) && at <= later
    ensures Netted(desk, later)
  {
    Closed(desk.trades, at, later);
    hide RealizedBy, Settles;
  }

  lemma {:induction false} RunListens(m: Market, c: Config, s: Strategy, n: nat, at: int)
    requires m.Valid() && n <= |m.bars| && RunTo(m, c, s, n).Ok? && (n < |m.bars| ==> at == m.bars[n].start)
    requires n > 0 ==> m.bars[n - 1].start < at
    ensures Marked(m, c, RunTo(m, c, s, n).value, n) && Listened(m, c, s, RunTo(m, c, s, n).value, n) && Netted(RunTo(m, c, s, n).value, at)
  {
    hide Step, Market.Valid, Marked, Listened, Netted, AllTold, Booked, AtOpen, AfterOpen;
    BacktestCausality.LotsPositive(m);
    if n == 0 {
      OpeningListens(m, c, s, at);
    } else {
      var k, from := n - 1, m.bars[n - 1].start;
      if n > 1 { BacktestCausality.BarsAdvance(m, n - 2, n - 1); }
      RunListens(m, c, s, k, from);
      RunTold(m, c, s, k, from);
      var before := RunTo(m, c, s, k).value;
      StepSplits(m, c, s, k, before);
      var settled := AtOpen(m, c, m.bars[k], before).value;
      OpenTold(m, c, k, before);
      OpenListens(m, c, s, k, before);
      AfterListens(m, c, s, k, settled);
      NettedLater(RunTo(m, c, s, n).value, from + 1, at);
    }
  }

  lemma {:induction false} OpeningListens(m: Market, c: Config, s: Strategy, at: int)
    ensures Marked(m, c, Opening(c), 0) && Listened(m, c, s, Opening(c), 0) && Netted(Opening(c), at)
  {
  }

  // ----- results -----

  /** The whole report, told from the bars: one equity point for each bar, from the cash and position that the fills before
      its end leave, marked at its close; every intent proposed by the strategy on a decision told from the bars, or the
      forced exit of what is held; the strategy asked at every bar, and whatever it proposes resolved; every trade settled
      from its two fills. */
  lemma {:induction false} ReportsListen(m: Market, c: Config, s: Strategy)
    requires m.Valid() && c.Valid() && Ran(m, c, s).Ok?
    ensures
      var r := Ran(m, c, s).value;
      && |r.curve| == |m.bars|
      && (forall n :: 0 <= n < |m.bars| ==> PointOn(m, c, r.fills, r.trades, n, r.curve[n]))
      && (forall o :: o in r.outcomes ==> IntentTold(m, c, s, r.fills, r.trades, o.created, o.intent))
      && (forall n :: 0 <= n < |m.bars| ==> Heard(m, c, s, r.fills, r.trades, r.outcomes, None, n))
      && (forall t :: t in r.trades ==> Settles(t))
  {
    hide RunTo, SumCosts, SumGross, Drawdown, PointOn, IntentTold, Heard, Settles, Kept;
    EndsQuiet(m, c, s);
    RunListens(m, c, s, |m.bars|, m.bars[|m.bars| - 1].start + 1);
  }

  lemma {:induction false} EndsQuiet(m: Market, c: Config, s: Strategy)
    requires m.Valid() && c.Valid() && Ran(m, c, s).Ok?
    ensures RunTo(m, c, s, |m.bars|).Ok? && RunTo(m, c, s, |m.bars|).value.pending.None?
  {
    hide RunTo, SumCosts, SumGross, Drawdown, Kept;
    RunKept(m, c, s, |m.bars|);
    KeptFinishes(m, c, RunTo(m, c, s, |m.bars|).value);
  }
}
