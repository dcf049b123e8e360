/** Entry rules do not depend on the unit of price. */
module ScaleInvariance {
  import opened Wrappers
  import opened RealFacts
  import opened Series
  import opened Strategies

  // ----- scaling -----

  function ScaledValues(values: seq<real>, c: real): (r: seq<real>)
    ensures |r| == |values| && forall i :: 0 <= i < |r| ==> r[i] == Portion(values[i], c)
  {
    seq(|values|, i requires 0 <= i < |values| => Portion(values[i], c))
  }

  /** A candle with its prices in another unit. */
  function ScaledCandle(b: Candle, c: real): Candle {
    Candle(b.start, Portion(b.open, c), Portion(b.high, c), Portion(b.low, c), Portion(b.close, c), b.volume)
  }

  function ScaledBars(bars: seq<Candle>, c: real): (r: seq<Candle>)
    ensures |r| == |bars| && forall i :: 0 <= i < |r| ==> r[i] == ScaledCandle(bars[i], c)
  {
    seq(|bars|, i requires 0 <= i < |bars| => ScaledCandle(bars[i], c))
  }

  function ScaledOption(x: Option<real>, c: real): Option<real> {
    if x.Some? then Some(Portion(x.value, c)) else None
  }

  lemma {:induction false} Prefix(values: seq<real>, c: real, n: nat)
    requires n <= |values|
    ensures ScaledValues(values, c)[..n] == ScaledValues(values[..n], c)
  {
  }

  // ----- arithmetic of scaling -----

  /** Scaling by a positive number keeps order. */
  lemma {:induction false} Ordered(a: real, b: real, c: real)
    requires c > 0.0
    ensures a <= b <==> Portion(a, c) <= Portion(b, c)
    ensures a < b <==> Portion(a, c) < Portion(b, c)
  {
    MulSub(b, a, c);
    if a < b { MulPositive(b - a, c); }
    if b < a { MulPositive(a - b, c); MulSub(a, b, c); }
  }

  lemma {:induction false} Subtracted(a: real, b: real, c: real)
    ensures Portion(a - b, c) == Portion(a, c) - Portion(b, c)
  {
    MulSub(a, b, c);
  }

  lemma {:induction false} Nothing(c: real)
    ensures Portion(0.0, c) == 0.0
  {
  }

  lemma {:induction false} Regrouped(a: real, k: real, c: real)
    ensures Portion(k * a, c) == k * Portion(a, c) && Portion(a * k, c) == Portion(a, c) * k
  {
    Regroup(k, a, c);
    Regroup(a, k, c);
    Commute(k, c);
    Regroup(a, c, k);
  }

  lemma {:induction false} Divided(a: real, n: real, c: real)
    requires n > 0.0
    ensures Portion(a / n, c) == Portion(a, c) / n
  {
    var q := a / n;
    Quotient(a, n);
    Regrouped(q, n, c);
    Unique(Portion(q, c), Portion(a, c), n);
  }

  lemma {:induction false} Unique(q: real, a: real, n: real)
    requires n > 0.0 && q * n == a
    ensures q == a / n
  {
  }

  // ----- sums, means and averages -----

  lemma {:induction false} SumScales(values: seq<real>, c: real)
    ensures Sum(ScaledValues(values, c)) == Portion(Sum(values), c)
  {
    Nothing(c);
    if values != [] {
      var n := |values| - 1;
      Prefix(values, c, n);
      SumScales(values[..n], c);
      PortionAdd(Sum(values[..n]), values[n], c);
      hide Portion;
    }
  }

  lemma {:induction false} PullScales(average: real, value: real, n: nat, c: real)
    ensures Pull(Portion(average, c), Portion(value, c), n) == Portion(Pull(average, value, n), c)
  {
    var k := 2.0 / (n as real + 1.0);
    Subtracted(value, average, c);
    Regrouped(value - average, k, c);
    PortionAdd(average, k * (value - average), c);
  }

  lemma {:induction false} EmaScales(values: seq<real>, n: nat, c: real)
    requires 1 <= n <= |values|
    ensures EmaOf(ScaledValues(values, c), n) == Portion(EmaOf(values, n), c)
  {
    if |values| == n {
      SumScales(values, c);
      Divided(Sum(values), n as real, c);
    } else {
      var m := |values| - 1;
      Prefix(values, c, m);
      EmaScales(values[..m], n, c);
      PullScales(EmaOf(values[..m], n), values[m], n, c);
      hide Portion, Pull;
    }
  }

  // ----- strength -----

  lemma {:induction false} RiseScales(a: real, b: real, c: real)
    requires c > 0.0
    ensures Rise(Portion(a, c), Portion(b, c)) == Portion(Rise(a, b), c)
  {
    Subtracted(b, a, c);
    Nothing(c);
    Ordered(0.0, b - a, c);
    hide Portion;
  }

  lemma {:induction false} RisesScales(values: seq<real>, c: real)
    requires c > 0.0
    ensures Rises(ScaledValues(values, c)) == Portion(Rises(values), c)
  {
    Nothing(c);
    if |values| >= 2 {
      var n := |values| - 1;
      Prefix(values, c, n);
      RisesScales(values[..n], c);
      RiseScales(values[n - 1], values[n], c);
      PortionAdd(Rises(values[..n]), Rise(values[n - 1], values[n]), c);
      hide Portion, Rise;
    }
  }

  lemma {:induction false} NotNegative(a: real, c: real)
    requires 0.0 <= a && c > 0.0
    ensures 0.0 <= Portion(a, c)
  {
    MulNonNegative(a, c);
  }

  lemma {:induction false} ShareScales(total: real, n: nat, c: real)
    requires 1 <= n && 0.0 <= total && c > 0.0
    ensures 0.0 <= Portion(total, c) && Share(Portion(total, c), n) == Portion(Share(total, n), c)
  {
    NotNegative(total, c);
    Divided(total, n as real, c);
    hide Portion;
  }

  lemma {:induction false} SmoothScales(average: real, rise: real, n: nat, c: real)
    requires 1 <= n && 0.0 <= average && 0.0 <= rise && c > 0.0
    ensures 0.0 <= Portion(average, c) && 0.0 <= Portion(rise, c)
    ensures Smooth(Portion(average, c), Portion(rise, c), n) == Portion(Smooth(average, rise, n), c)
  {
    NotNegative(average, c);
    NotNegative(rise, c);
    var k := (n - 1) as real;
    MulNonNegative(average, k);
    Regrouped(average, k, c);
    PortionAdd(average * k, rise, c);
    ShareScales(average * k + rise, n, c);
    hide Portion, Share;
  }

  lemma {:induction false} MeanRiseScales(values: seq<real>, n: nat, c: real)
    requires 1 <= n < |values| && c > 0.0
    ensures MeanRise(ScaledValues(values, c), n) == Portion(MeanRise(values, n), c)
  {
    if |values| == n + 1 {
      RisesScales(values, c);
      ShareScales(Rises(values), n, c);
    } else {
      hide *;
      MeanRiseScales(values[..|values| - 1], n, c);
      MeanRiseNext(values, n, c);
    }
  }

  lemma {:induction false} RiseNotNegative(a: real, b: real)
    ensures 0.0 <= Rise(a, b)
  {
  }

  lemma {:induction false} MeanRiseNext(values: seq<real>, n: nat, c: real)
    requires 1 <= n < |values| - 1 && c > 0.0
    requires MeanRise(ScaledValues(values[..|values| - 1], c), n) == Portion(MeanRise(values[..|values| - 1], n), c)
    ensures MeanRise(ScaledValues(values, c), n) == Portion(MeanRise(values, n), c)
  {
    hide *;
    var m, scaled := |values| - 1, ScaledValues(values, c);
    Prefix(values, c, m);
    MeanRiseOpens(values, n);
    MeanRiseOpens(scaled, n);
    RiseScales(values[m - 1], values[m], c);
    RiseNotNegative(values[m - 1], values[m]);
    SmoothScales(MeanRise(values[..m], n), Rise(values[m - 1], values[m]), n, c);
  }

  lemma {:induction false} MeanRiseOpens(values: seq<real>, n: nat)
    requires 1 <= n < |values| - 1
    ensures
      var m := |values| - 1;
      0.0 <= Rise(values[m - 1], values[m]) &&
      MeanRise(values, n) == Smooth(MeanRise(values[..m], n), Rise(values[m - 1], values[m]), n)
  {
    hide Smooth;
  }

  lemma {:induction false} NegatedScales(values: seq<real>, c: real)
    ensures Negated(ScaledValues(values, c)) == ScaledValues(Negated(values), c)
  {
    forall i | 0 <= i < |values| ensures -Portion(values[i], c) == Portion(-values[i], c) {
      Subtracted(0.0, values[i], c);
      Nothing(c);
    }
  }

  lemma {:induction false} StrengthScales(gain: real, loss: real, c: real)
    requires 0.0 <= gain && 0.0 <= loss && c > 0.0
    ensures 0.0 <= Portion(gain, c) && 0.0 <= Portion(loss, c)
    ensures Strength(Portion(gain, c), Portion(loss, c)) == Strength(gain, loss)
  {
    NotNegative(gain, c);
    NotNegative(loss, c);
    Nothing(c);
    Ordered(0.0, gain, c);
    Ordered(0.0, loss, c);
    if loss > 0.0 {
      var q := gain / loss;
      Quotient(gain, loss);
      Regrouped(loss, q, c);
      Commute(q, loss);
      Unique(q, Portion(gain, c), Portion(loss, c));
    }
  }

  /** The relative strength index does not depend on the unit of price. */
  lemma {:induction false} RsiUnchanged(values: seq<real>, n: nat, c: real)
    requires 1 <= n < |values| && c > 0.0
    ensures RsiOf(ScaledValues(values, c), n) == RsiOf(values, n)
  {
    MeanRiseScales(values, n, c);
    NegatedScales(values, c);
    MeanRiseScales(Negated(values), n, c);
    StrengthScales(MeanRise(values, n), MeanFall(values, n), c);
    hide Portion, MeanRise, Strength, Negated;
  }

  /** The index lies between 0 and 100. */
  lemma {:induction false} RsiBounded(values: seq<real>, n: nat)
    requires 1 <= n < |values|
    ensures 0.0 <= RsiOf(values, n) <= 100.0
  {
    StrengthBounded(MeanRise(values, n), MeanFall(values, n));
    hide MeanRise, MeanFall, Strength;
  }

  lemma {:induction false} StrengthBounded(gain: real, loss: real)
    requires 0.0 <= gain && 0.0 <= loss
    ensures 0.0 <= Strength(gain, loss) <= 100.0
  {
    if loss > 0.0 {
      var q := gain / loss;
      Quotient(gain, loss);
      if q < 0.0 { MulPositive(-q, loss); }
      Quotient(100.0, 1.0 + q);
      InverseBounded(100.0 / (1.0 + q), q);
    }
  }

  lemma {:induction false} InverseBounded(p: real, q: real)
    requires 0.0 <= q && p * (1.0 + q) == 100.0
    ensures 0.0 <= p <= 100.0
  {
    if p > 100.0 { MulMono(100.0, p, 1.0 + q); }
    if p < 0.0 { MulPositive(-p, 1.0 + q); }
  }

  /** How an indicator scales: price lines with the price, the strength index and constants not at all. */
  function ScaledBy(x: Option<real>, indicator: Indicator, c: real): Option<real> {
    if indicator == CLOSE || indicator == EMA then ScaledOption(x, c) else x
  }

  lemma {:induction false} IndicatorScales(values: seq<real>, operand: Operand, c: real)
    requires operand.period >= 1 && c > 0.0
    ensures IndicatorOf(ScaledValues(values, c), operand) == ScaledBy(IndicatorOf(values, operand), operand.indicator, c)
  {
    var n := if operand.lag <= |values| then |values| - operand.lag else 0;
    Prefix(values, c, n);
    var used := if operand.lag == 0 then values else values[..n];
    if operand.indicator == EMA && |used| >= operand.period { EmaScales(used, operand.period, c); }
    if operand.indicator == RSI && |used| > operand.period { RsiUnchanged(used, operand.period, c); }
    hide Portion, EmaOf, RsiOf;
  }

  // ----- rules -----

  lemma {:induction false} CrossesScale(a: Option<real>, b: Option<real>, x: Option<real>, y: Option<real>, below: bool, c: real)
    requires c > 0.0
    ensures Crosses(ScaledOption(a, c), ScaledOption(b, c), ScaledOption(x, c), ScaledOption(y, c), below) == Crosses(a, b, x, y, below)
  {
    if a.Some? && b.Some? { Ordered(a.value, b.value, c); Ordered(b.value, a.value, c); }
    if x.Some? && y.Some? { Ordered(x.value, y.value, c); Ordered(y.value, x.value, c); }
    hide Portion;
  }

  lemma {:induction false} PreviousScales(values: seq<real>, c: real)
    ensures Previous(ScaledValues(values, c)) == ScaledValues(Previous(values), c)
  {
  }

  /** A rule that compares two price lines, or two lines without unit, does not depend on the unit. */
  lemma {:induction false} RuleScales(closes: seq<real>, rule: Cross, c: real)
    requires rule.left.period >= 1 && rule.right.period >= 1 && c > 0.0
    requires (rule.left.indicator == CLOSE || rule.left.indicator == EMA) == (rule.right.indicator == CLOSE || rule.right.indicator == EMA)
    ensures RuleFires(ScaledValues(closes, c), rule) == RuleFires(closes, rule)
  {
    hide IndicatorOf, Previous, Portion, Crosses, ScaledOption;
    PreviousScales(closes, c);
    var earlier := Previous(closes);
    IndicatorScales(earlier, rule.left, c);
    IndicatorScales(earlier, rule.right, c);
    IndicatorScales(closes, rule.left, c);
    IndicatorScales(closes, rule.right, c);
    CrossesScale(IndicatorOf(earlier, rule.left), IndicatorOf(earlier, rule.right),
                 IndicatorOf(closes, rule.left), IndicatorOf(closes, rule.right), !rule.above, c);
  }

  lemma {:induction false} ClosesScale(bars: seq<Candle>, c: real)
    ensures Closes(ScaledBars(bars, c)) == ScaledValues(Closes(bars), c)
  {
  }

  // ----- bands -----

  lemma {:induction false} SquaresScale(values: seq<real>, mean: real, c: real)
    ensures SquaresAbout(ScaledValues(values, c), Portion(mean, c)) == Portion(Portion(SquaresAbout(values, mean), c), c)
  {
    Nothing(c);
    if values != [] {
      var n := |values| - 1;
      Prefix(values, c, n);
      SquaresScale(values[..n], mean, c);
      var d := values[n] - mean;
      Subtracted(values[n], mean, c);
      SquareScales(d, c);
      PortionAdd(SquaresAbout(values[..n], mean), d * d, c);
      PortionAdd(Portion(SquaresAbout(values[..n], mean), c), Portion(d * d, c), c);
      hide Portion;
    }
  }

  lemma {:induction false} SquareScales(d: real, c: real)
    ensures Portion(d, c) * Portion(d, c) == Portion(Portion(d * d, c), c)
  {
    assert (d * c) * (d * c) == ((d * d) * c) * c;
  }

  function ScaledBasis(b: Option<Basis>, c: real): Option<Basis> {
    if b.None? then None else Some(Basis(Portion(b.value.mean, c), Portion(Portion(b.value.variance, c), c)))
  }

  lemma {:induction false} FinalScales(values: seq<real>, period: nat, c: real)
    requires period <= |values|
    ensures Final(ScaledValues(values, c), period) == ScaledValues(Final(values, period), c)
  {
  }

  lemma {:induction false} BollingerScales(values: seq<real>, period: nat, c: real)
    requires period >= 1
    ensures Bollinger(ScaledValues(values, c), period) == ScaledBasis(Bollinger(values, period), c)
  {
    hide Portion, SquaresAbout, Sum, Final;
    if |values| >= period {
      var window := Final(values, period);
      assert |window| == period by { FinalLength(values, period); }
      var mean := Mean(window);
      FinalScales(values, period, c);
      SumScales(window, c);
      Divided(Sum(window), period as real, c);
      SquaresScale(window, mean, c);
      Divided(Portion(SquaresAbout(window, mean), c), period as real, c);
      Divided(SquaresAbout(window, mean), period as real, c);
    }
  }

  lemma {:induction false} FinalLength(values: seq<real>, period: nat)
    requires period <= |values|
    ensures |Final(values, period)| == period
  {
  }

  lemma {:induction false} AtMostLowerScales(x: real, b: Basis, c: real)
    requires c > 0.0
    ensures AtMostLower(Portion(x, c), Basis(Portion(b.mean, c), Portion(Portion(b.variance, c), c))) == AtMostLower(x, b)
  {
    var gap := b.mean - x;
    Subtracted(b.mean, x, c);
    SquareScales(gap, c);
    Regrouped(b.variance, 4.0, c);
    Regrouped(Portion(b.variance, c), 4.0, c);
    Nothing(c);
    Ordered(0.0, gap, c);
    Ordered(4.0 * b.variance, gap * gap, c);
    Ordered(Portion(4.0 * b.variance, c), Portion(gap * gap, c), c);
    hide Portion;
  }

  // ----- volume-weighted price and opening range -----

  lemma {:induction false} VolumeScales(bars: seq<Candle>, c: real)
    ensures Volume(ScaledBars(bars, c)) == Volume(bars)
  {
    if bars != [] {
      BarsPrefix(bars, c);
      VolumeScales(bars[..|bars| - 1], c);
    }
  }

  lemma {:induction false} BarsPrefix(bars: seq<Candle>, c: real)
    requires bars != []
    ensures ScaledBars(bars, c)[..|bars| - 1] == ScaledBars(bars[..|bars| - 1], c)
  {
  }

  lemma {:induction false} TradedScales(b: Candle, c: real)
    ensures Traded(ScaledCandle(b, c)) == Portion(Traded(b), c)
  {
    PortionAdd(b.high, b.low, c);
    PortionAdd(b.high + b.low, b.close, c);
    Divided(b.high + b.low + b.close, 3.0, c);
    Regrouped((b.high + b.low + b.close) / 3.0, b.volume as real, c);
    hide Portion;
  }

  lemma {:induction false} TurnoverScales(bars: seq<Candle>, c: real)
    ensures Turnover(ScaledBars(bars, c)) == Portion(Turnover(bars), c)
  {
    Nothing(c);
    if bars != [] {
      var n := |bars| - 1;
      BarsPrefix(bars, c);
      TurnoverScales(bars[..n], c);
      TradedScales(bars[n], c);
      PortionAdd(Turnover(bars[..n]), Traded(bars[n]), c);
      hide Portion, Traded, ScaledCandle;
    }
  }

  lemma {:induction false} VwapScales(bars: seq<Candle>, c: real)
    requires forall b :: b in bars ==> 0 <= b.volume
    ensures Vwap(ScaledBars(bars, c)) == ScaledOption(Vwap(bars), c)
  {
    VolumeScales(bars, c);
    TurnoverScales(bars, c);
    VolumeNotNegative(bars);
    hide Portion, Turnover, Volume;
    if Volume(bars) != 0 { Divided(Turnover(bars), Volume(bars) as real, c); }
  }

  lemma {:induction false} VolumeNotNegative(bars: seq<Candle>)
    requires forall b :: b in bars ==> 0 <= b.volume
    ensures 0 <= Volume(bars)
  {
    if bars != [] {
      assert bars[|bars| - 1] in bars;
      VolumeNotNegative(bars[..|bars| - 1]);
    }
  }

  lemma {:induction false} MaxScales(a: real, b: real, c: real)
    requires c > 0.0
    ensures Max(Portion(a, c), Portion(b, c)) == Portion(Max(a, b), c)
    ensures Min(Portion(a, c), Portion(b, c)) == Portion(Min(a, b), c)
  {
    Ordered(a, b, c);
    Ordered(b, a, c);
    hide Portion;
  }

  lemma {:induction false} RangeScales(bars: seq<Candle>, c: real)
    requires c > 0.0 && |bars| >= 3
    ensures OpeningRange(ScaledBars(bars, c)).Some? && OpeningRange(bars).Some?
    ensures OpeningRange(ScaledBars(bars, c)).value.0 == Portion(OpeningRange(bars).value.0, c)
  {
    MaxScales(bars[0].high, bars[1].high, c);
    MaxScales(Max(bars[0].high, bars[1].high), bars[2].high, c);
    hide Portion;
  }

  // ----- the six rules -----

  lemma {:induction false} RecoveryScales(closes: seq<real>, c: real)
    requires c > 0.0
    ensures Signal(ScaledValues(closes, c), RECOVERY) == Signal(closes, RECOVERY)
  {
    hide RuleFires;
    RuleScales(closes, RECOVERY[0], c);
    RuleScales(closes, RECOVERY[1], c);
  }

  lemma {:induction false} TrendScales(closes: seq<real>, c: real)
    requires c > 0.0
    ensures RuleFires(ScaledValues(closes, c), Cross(EMA9, EMA21, true)) == RuleFires(closes, Cross(EMA9, EMA21, true))
  {
    RuleScales(closes, Cross(EMA9, EMA21, true), c);
  }

  /** Multiplying every price of a session by a positive number leaves the entry rule's decision as it was. */
  lemma {:induction false} DecisionsAreScaleInvariant(bars: seq<Candle>, d: Definition, c: real)
    requires c > 0.0 && forall b :: b in bars ==> 0 <= b.volume
    ensures EntrySignal(ScaledBars(bars, c), d) == EntrySignal(bars, d)
  {
    hide Portion, IndicatorOf, Signal, Crosses, Previous, Bollinger, AtMostLower, Vwap, OpeningRange, Volume, ScaledOption;
    if |bars| >= 2 {
      var closes := Closes(bars);
      ClosesScale(bars, c);
      PreviousScales(closes, c);
      match d.identifier
      case S01 => RecoveryScales(closes, c);
      case S02 => TrendScales(closes, c);
      case S03 => MomentumScales(bars, d, c);
      case S04 => ReversionScales(bars, d, c);
      case S05 => VwapRuleScales(bars, d, c);
      case S06 => BreakoutScales(bars, d, c);
    }
  }

  lemma {:induction false} MomentumScales(bars: seq<Candle>, d: Definition, c: real)
    requires c > 0.0 && |bars| >= 2 && d.identifier == S03
    ensures EntrySignal(ScaledBars(bars, c), d) == EntrySignal(bars, d)
  {
    hide Portion, IndicatorOf, Previous;
    var closes := Closes(bars);
    ClosesScale(bars, c);
    PreviousScales(closes, c);
    IndicatorScales(closes, EMA21, c);
    IndicatorScales(Previous(closes), RSI14, c);
    IndicatorScales(closes, RSI14, c);
    var average := IndicatorOf(closes, EMA21);
    if average.Some? { Ordered(average.value, closes[|closes| - 1], c); }
  }

  lemma {:induction false} ReversionScales(bars: seq<Candle>, d: Definition, c: real)
    requires c > 0.0 && |bars| >= 2 && d.identifier == S04
    ensures EntrySignal(ScaledBars(bars, c), d) == EntrySignal(bars, d)
  {
    hide Portion, Previous, Bollinger, AtMostLower;
    var closes := Closes(bars);
    ClosesScale(bars, c);
    PreviousScales(closes, c);
    BollingerScales(Previous(closes), 20, c);
    BollingerScales(closes, 20, c);
    var earlier, current := Bollinger(Previous(closes), 20), Bollinger(closes, 20);
    if earlier.Some? { AtMostLowerScales(closes[|closes| - 2], earlier.value, c); }
    if current.Some? { AtMostLowerScales(closes[|closes| - 1], current.value, c); }
  }

  lemma {:induction false} VwapRuleScales(bars: seq<Candle>, d: Definition, c: real)
    requires c > 0.0 && |bars| >= 2 && d.identifier == S05 && forall b :: b in bars ==> 0 <= b.volume
    ensures EntrySignal(ScaledBars(bars, c), d) == EntrySignal(bars, d)
  {
    hide Portion, Previous, Vwap, Volume, Crosses;
    var closes, earlier := Closes(bars), bars[..|bars| - 1];
    ClosesScale(bars, c);
    BarsPrefix(bars, c);
    VolumeScales(bars, c);
    VwapScales(bars, c);
    VwapScales(earlier, c);
    CrossesScale(Some(closes[|closes| - 2]), Vwap(earlier), Some(closes[|closes| - 1]), Vwap(bars), false, c);
  }

  lemma {:induction false} BreakoutScales(bars: seq<Candle>, d: Definition, c: real)
    requires c > 0.0 && |bars| >= 2 && d.identifier == S06
    ensures EntrySignal(ScaledBars(bars, c), d) == EntrySignal(bars, d)
  {
    hide Portion, Previous, OpeningRange, Crosses;
    var closes := Closes(bars);
    ClosesScale(bars, c);
    if |bars| >= 4 {
      RangeScales(bars, c);
      var top := OpeningRange(bars).value.0;
      CrossesScale(Some(closes[|closes| - 2]), Some(top), Some(closes[|closes| - 1]), Some(top), false, c);
    }
  }
}
