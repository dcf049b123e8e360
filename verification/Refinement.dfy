/** On liquid data the causal executor refines its phase14 predecessor. */
module Refinement {
  import opened Wrappers
  import opened Clock
  import opened Costs
  import opened Series
  import opened Strategies
  import opened Executor
  import ExecutionOrder

  /** For the first definition the two entry rules agree, on every non-empty history. */
  lemma {:induction false} SameSignal(history: seq<Candle>, d: Definition)
    requires d.identifier == S01 && history != []
    ensures EntrySignal(history, d) == Signal(Closes(history), RECOVERY)
  {
    if |history| == 1 {
      assert !RuleFires(Closes(history), RECOVERY[0]);
    }
  }

  lemma {:induction false} HistoryNonEmpty(ticks: seq<Tick>, n: nat)
    requires n < |ticks|
    ensures History(ticks, n) != []
  {
  }

  /** The same step, when every candle is liquid and no session is too long. */
  lemma {:induction false} SameStep(r: Rules, d: Definition, s: Strategy, ticks: seq<Tick>, n: nat, run: Run)
    requires n < |ticks| && s.Valid() && s.conditions == RECOVERY && d.identifier == S01
    requires r.Liquid(ticks[n].bar.volume) && (n > 0 ==> r.Liquid(ticks[n - 1].bar.volume))
    requires (ticks[n].sessionEnd - ticks[n].bar.start) / FIVE <= 288
    requires run.unresolved == [] && (run.book.pending.Some? ==> run.book.position.None?)
    ensures
      var now, was := Step(r, d, ticks, n, run), OldStep(r, s, ticks, n, run.book);
      && (now.Err? <==> was.Err?)
      && (now.Err? ==> now.error == was.error)
      && (now.Ok? ==> now.value.unresolved == [] && now.value.book == was.value &&
                      (was.value.pending.Some? ==> was.value.position.None?))
  {
    hide Enter, EntrySignal, Signal, History, Closes, MarkDown, Exit, ExitReference;
    SameSignal(History(ticks, n), d) by { HistoryNonEmpty(ticks, n); }
    EnterClears(r, ticks[n].bar, ticks[n].Last(), true, run.book);
    var book := if ticks[n].origin == n then run.book.(position := None, pending := None) else run.book;
    var entered := if book.pending.Some? then Enter(r, ticks[n].bar, ticks[n].Last(), true, book) else Ok(book);
    if entered.Ok? && Manage(r, ticks[n].bar, ticks[n].Last(), entered.value).Ok? {
      ManagePending(r, ticks[n].bar, ticks[n].Last(), entered.value);
    }
  }

  lemma {:induction false} ManagePending(r: Rules, bar: Candle, last: bool, b: Book)
    requires Manage(r, bar, last, b).Ok?
    ensures Manage(r, bar, last, b).value.book.pending == b.pending
  {
    hide Fee;
  }

  lemma {:induction false} EnterClears(r: Rules, bar: Candle, last: bool, liquid: bool, b: Book)
    ensures b.pending.Some? && Enter(r, bar, last, liquid, b).Ok? ==> Enter(r, bar, last, liquid, b).value.pending.None?
  {
    hide Fee;
  }

  lemma {:induction false} Lockstep(r: Rules, d: Definition, s: Strategy, ticks: seq<Tick>, n: nat)
    requires n <= |ticks| && s.Valid() && s.conditions == RECOVERY && d.identifier == S01
    requires forall i :: 0 <= i < |ticks| ==> r.Liquid(ticks[i].bar.volume)
    requires forall i :: 0 <= i < |ticks| ==> (ticks[i].sessionEnd - ticks[i].bar.start) / FIVE <= 288
    ensures
      var now, was := RunTo(r, d, ticks, n), OldRunTo(r, s, ticks, n);
      && (now.Err? <==> was.Err?)
      && (now.Err? ==> now.error == was.error)
      && (now.Ok? ==> now.value.unresolved == [] && now.value.book == was.value &&
                      (was.value.pending.Some? ==> was.value.position.None?))
  {
    if n > 0 {
      hide Step, OldStep;
      Lockstep(r, d, s, ticks, n - 1);
      if RunTo(r, d, ticks, n - 1).Ok? {
        SameStep(r, d, s, ticks, n - 1, RunTo(r, d, ticks, n - 1).value);
      }
    }
  }

  /** Every tick lies in one of the sessions. */
  lemma {:induction false} TicksInSessions(series: PriceSeries, k: nat)
    requires Covered(series) && InOrder(series.sessions) && k <= |series.sessions|
    ensures forall n :: 0 <= n < |Ticks(series, k)| ==> InSomeSession(series, Ticks(series, k)[n])
  {
    if k > 0 {
      TicksInSessions(series, k - 1);
      var s, before := series.sessions[k - 1], Ticks(series, k - 1);
      var mine := SessionTicks(series, s, |before|, s.Slots());
      assert Ticks(series, k) == before + mine;
      forall i | 0 <= i < |mine| ensures InSomeSession(series, mine[i]) {
        SlotHasBar(series, k - 1, i);
        assert s in series.sessions;
      }
    }
  }

  ghost predicate InSomeSession(series: PriceSeries, t: Tick) {
    exists s :: s in series.sessions && s.start <= t.bar.start && t.sessionEnd == s.end
  }

  /** A session within one day holds at most 288 candles, so that resource limit never bites. */
  lemma {:induction false} SessionsAreShort(series: PriceSeries, n: nat)
    requires series.Valid() && Complete(series) && n < |AllTicks(series)|
    ensures (AllTicks(series)[n].sessionEnd - AllTicks(series)[n].bar.start) / FIVE <= 288
  {
    CompleteCovers(series);
    TicksInSessions(series, |series.sessions|);
    var t := AllTicks(series)[n];
    assert InSomeSession(series, t);
    var s :| s in series.sessions && s.start <= t.bar.start && t.sessionEnd == s.end;
    SameDayIsShort(s.start, s.end);
  }

  lemma {:induction false} SameDayIsShort(a: int, b: int)
    requires DateOf(a) == DateOf(b)
    ensures b - a < MINUTES_PER_DAY
  {
  }

  /** The two executors agree: on an accepted series whose every candle is liquid, the causal executor
      running S01 and the phase14 executor running the recovery strategy with the same stop and target
      return the same trades, refusals, exposure, drawdown and metrics, or fail alike; and the causal
      one leaves no exit unresolved. */
  lemma {:induction false} CausalRefinesPhase14(series: PriceSeries, d: Definition, s: Strategy, settings: Settings, costs: Schedule)
    requires series.Valid() && settings.Valid() && s.Valid()
    requires d.identifier == S01 && s.conditions == RECOVERY && s.Permitted() && s.stop == d.stop && s.target == d.target
    requires forall b :: b in series.bars ==> b.volume as real * settings.participation >= settings.quantity as real
    requires |series.bars| <= 30000
    ensures
      var now, was := Executed(series, d, settings, costs), Simulated(series, s, settings, costs);
      && (now.Err? <==> was.Err?)
      && (now.Err? ==> now.error == was.error)
      && (now.Ok? ==> now.value.unresolved == [] &&
                      was.value == Simulation(now.value.trades, now.value.metrics, now.value.noFills, now.value.exposure, now.value.drawdown))
  {
    hide RunTo, OldRunTo, Ticks, MetricsOf;
    var r, ticks := RulesOf(settings, costs, d.stop, d.target), AllTicks(series);
    if Complete(series) && series.sessions != [] {
      ExecutionOrder.SeriesTicks(series);
      CompleteCovers(series);
      TicksFromBars(series, |series.sessions|);
      forall i | 0 <= i < |ticks|
        ensures r.Liquid(ticks[i].bar.volume) && (ticks[i].sessionEnd - ticks[i].bar.start) / FIVE <= 288
      {
        SessionsAreShort(series, i);
      }
      Lockstep(r, d, s, ticks, |ticks|);
    }
  }
}
