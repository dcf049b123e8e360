/** When each of the six entry rules fires, exactly, and how many candles of a session it needs first. */
module SignalRules {
  import opened Wrappers
  import opened RealFacts
  import opened Series
  import opened Strategies
  import opened SignalLaws

  /** The index rises through a level from one candle to the next. */
  predicate Strengthens(closes: seq<real>, level: real)
    requires |closes| >= 16
  {
    RsiOf(Previous(closes), 14) <= level < RsiOf(closes, 14)
  }

  /** Recovery: from the twenty-second candle on, the index rises through 30 as the close rises through its average. */
  predicate Recovers(closes: seq<real>) {
    var n := |closes|;
    n >= 22 && Strengthens(closes, 30.0) && closes[n - 2] <= EmaOf(Previous(closes), 21) && closes[n - 1] > EmaOf(closes, 21)
  }

  /** Trend: from the twenty-second candle on, the fast average rises through the slow one. */
  predicate Trends(closes: seq<real>) {
    |closes| >= 22 && EmaOf(Previous(closes), 9) <= EmaOf(Previous(closes), 21) && EmaOf(closes, 9) > EmaOf(closes, 21)
  }

  /** Momentum: from the twenty-first candle on, the index rises through 50 while the close is above its average. */
  predicate Gathers(closes: seq<real>) {
    |closes| >= 21 && closes[|closes| - 1] > EmaOf(closes, 21) && Strengthens(closes, 50.0)
  }

  /** Reversion: from the twenty-first candle on, the close before was at or below its lower band, and this one is above its own. */
  predicate Reverts(closes: seq<real>) {
    var n := |closes|;
    n >= 21 && FarBelow(closes[n - 21..n - 2], closes[n - 2]) && !FarBelow(closes[n - 20..n - 1], closes[n - 1])
  }

  /** The session's weighted price: what has been paid is at least, or less than, a price for all the volume. */
  predicate Crossed(bars: seq<Candle>, minimum: int) {
    var n := |bars|;
    n >= 2 && 0 < bars[n - 1].volume && minimum <= Volume(bars) && 0 < Volume(bars[..n - 1])
    && Portion(bars[n - 2].close, Volume(bars[..n - 1]) as real) <= Turnover(bars[..n - 1])
    && Portion(bars[n - 1].close, Volume(bars) as real) > Turnover(bars)
  }

  /** Breakout: from the fourth candle on, the close is above every high of the first three, and the one before was not. */
  predicate BreaksOut(bars: seq<Candle>) {
    var n := |bars|;
    n >= 4 && (exists i :: 0 <= i < 3 && bars[n - 2].close <= bars[i].high) && forall i :: 0 <= i < 3 ==> bars[i].high < bars[n - 1].close
  }

  lemma {:induction false} LagFree(closes: seq<real>, indicator: Indicator, period: nat, value: real)
    requires period >= 1
    ensures IndicatorOf(closes, Operand(indicator, period, value, 0)) ==
      if closes == [] then None
      else match indicator
        case CONSTANT => Some(value)
        case CLOSE => Some(closes[|closes| - 1])
        case EMA => if |closes| < period then None else Some(EmaOf(closes, period))
        case RSI => if |closes| <= period then None else Some(RsiOf(closes, period))
  {
    hide EmaOf, RsiOf;
  }

  /** A lag looks at the values as they were so many values ago. */
  lemma {:induction false} LagIgnoresNewest(values: seq<real>, newer: seq<real>, o: Operand)
    requires o.period >= 1 && |newer| == o.lag
    ensures IndicatorOf(values + newer, o) == IndicatorOf(values, o.(lag := 0))
  {
    assert (values + newer)[..|values|] == values;
    assert o.lag == 0 ==> values + newer == values;
    hide EmaOf, RsiOf;
  }

  lemma {:induction false} RecoversExactly(bars: seq<Candle>, d: Definition)
    requires bars != [] && d.identifier == S01
    ensures EntrySignal(bars, d) <==> Recovers(Closes(bars))
  {
    var closes := Closes(bars);
    LagFree(closes, RSI, 14, 0.0);
    LagFree(Previous(closes), RSI, 14, 0.0);
    LagFree(closes, EMA, 21, 0.0);
    LagFree(Previous(closes), EMA, 21, 0.0);
    LagFree(closes, CLOSE, 1, 0.0);
    LagFree(Previous(closes), CLOSE, 1, 0.0);
    LagFree(closes, CONSTANT, 1, 30.0);
    LagFree(Previous(closes), CONSTANT, 1, 30.0);
    hide EmaOf, RsiOf, IndicatorOf;
    assert Signal(closes, RECOVERY) <==> RuleFires(closes, RECOVERY[0]) && RuleFires(closes, RECOVERY[1]);
  }

  lemma {:induction false} TrendsExactly(bars: seq<Candle>, d: Definition)
    requires bars != [] && d.identifier == S02
    ensures EntrySignal(bars, d) <==> Trends(Closes(bars))
  {
    var closes := Closes(bars);
    LagFree(closes, EMA, 9, 0.0);
    LagFree(Previous(closes), EMA, 9, 0.0);
    LagFree(closes, EMA, 21, 0.0);
    LagFree(Previous(closes), EMA, 21, 0.0);
    hide EmaOf, IndicatorOf;
  }

  lemma {:induction false} GathersExactly(bars: seq<Candle>, d: Definition)
    requires bars != [] && d.identifier == S03
    ensures EntrySignal(bars, d) <==> Gathers(Closes(bars))
  {
    var closes := Closes(bars);
    LagFree(closes, RSI, 14, 0.0);
    LagFree(Previous(closes), RSI, 14, 0.0);
    LagFree(closes, EMA, 21, 0.0);
    hide EmaOf, RsiOf, IndicatorOf;
  }

  lemma {:induction false} RevertsExactly(bars: seq<Candle>, d: Definition)
    requires bars != [] && d.identifier == S04
    ensures EntrySignal(bars, d) <==> Reverts(Closes(bars))
  {
    var closes, n := Closes(bars), |bars|;
    if n >= 21 {
      BandOfLast(closes);
      BandOfLast(Previous(closes));
      assert Previous(closes)[n - 21..n - 2] == closes[n - 21..n - 2];
    }
    assert n < 20 ==> Bollinger(closes, 20).None?;
    assert n < 21 ==> Bollinger(Previous(closes), 20).None?;
    hide FarBelow, AtMostLower, Bollinger;
  }

  lemma {:induction false} CrossedExactly(bars: seq<Candle>, d: Definition)
    requires bars != [] && Sound(bars) && d.identifier == S05
    ensures EntrySignal(bars, d) <==> Crossed(bars, d.minimumVolume)
  {
    var front := bars[..|bars| - 1];
    assert Sound(front);
    VolumeHolds(bars);
    VolumeHolds(front);
    if Volume(bars) > 0 { AboveVwap(bars, bars[|bars| - 1].close); }
    if Volume(front) > 0 && |bars| >= 2 { AboveVwap(front, bars[|bars| - 2].close); }
    assert Volume(front) == 0 ==> Vwap(front).None?;
    assert Volume(bars) == 0 ==> Vwap(bars).None?;
    hide Volume, Turnover, Vwap, Portion, Sound;
  }

  lemma {:induction false} BreaksOutExactly(bars: seq<Candle>, d: Definition)
    requires bars != [] && d.identifier == S06
    ensures EntrySignal(bars, d) <==> BreaksOut(bars)
  {
    var n := |bars|;
    if n >= 4 {
      var y, x := bars[n - 2].close, bars[n - 1].close;
      var high := OpeningRange(bars).value.0;
      assert high == bars[0].high || high == bars[1].high || high == bars[2].high;
      assert bars[0].high <= high && bars[1].high <= high && bars[2].high <= high;
      hide OpeningRange, Max;
    }
  }

  /** When each rule fires on a session's candles so far. */
  lemma {:induction false} FiresExactly(bars: seq<Candle>, d: Definition)
    requires bars != [] && Sound(bars)
    ensures EntrySignal(bars, d) <==>
      match d.identifier
      case S01 => Recovers(Closes(bars))
      case S02 => Trends(Closes(bars))
      case S03 => Gathers(Closes(bars))
      case S04 => Reverts(Closes(bars))
      case S05 => Crossed(bars, d.minimumVolume)
      case S06 => BreaksOut(bars)
  {
    hide *;
    match d.identifier
    case S01 => RecoversExactly(bars, d);
    case S02 => TrendsExactly(bars, d);
    case S03 => GathersExactly(bars, d);
    case S04 => RevertsExactly(bars, d);
    case S05 => CrossedExactly(bars, d);
    case S06 => BreaksOutExactly(bars, d);
  }
}
