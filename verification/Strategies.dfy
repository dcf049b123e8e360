/** Indicators and entry rules (phase14/engine.py and phase1415/strategies.py). */
module Strategies {
  import opened Wrappers
  import opened RealFacts
  import opened Series

  // ----- indicators -----

  datatype Indicator = CLOSE | EMA | RSI | CONSTANT

  datatype Operand = Operand(indicator: Indicator, period: nat, value: real, lag: nat)
  {
    ghost predicate Valid() { 1 <= period <= 1440 && lag <= 1440 && 0.0 <= value }
  }

  function Sum(values: seq<real>): real {
    if values == [] then 0.0 else Sum(values[..|values| - 1]) + values[|values| - 1]
  }

  function Rise(a: real, b: real): real { Max(b - a, 0.0) }

  /** Sum of the rises over consecutive values. */
  function Rises(values: seq<real>): (r: real)
    ensures 0.0 <= r
  {
    if |values| < 2 then 0.0
    else Rises(values[..|values| - 1]) + Rise(values[|values| - 2], values[|values| - 1])
  }

  /** Exponential mean: the plain mean of the first n values, then pulled towards each later one. */
  function EmaOf(values: seq<real>, n: nat): real
    requires 1 <= n <= |values|
  {
    if |values| == n then Sum(values) / n as real
    else
      Pull(EmaOf(values[..|values| - 1], n), values[|values| - 1], n)
  }

  /** Move the average towards a value by the weight 2 / (n + 1). */
  function Pull(average: real, value: real, n: nat): real {
    average + 2.0 / (n as real + 1.0) * (value - average)
  }

  /** Wilder's smoothed mean rise: the plain mean of the first n rises, then averaged in. */
  function MeanRise(values: seq<real>, n: nat): (r: real)
    requires 1 <= n < |values|
    ensures 0.0 <= r
  {
    if |values| == n + 1 then
      Share(Rises(values), n)
    else
      Smooth(MeanRise(values[..|values| - 1], n), Rise(values[|values| - 2], values[|values| - 1]), n)
  }

  /** One smoothing step: the average so far weighs n - 1, the newest rise weighs one. */
  function Smooth(average: real, rise: real, n: nat): (r: real)
    requires 1 <= n && 0.0 <= average && 0.0 <= rise
    ensures 0.0 <= r
  {
    MulNonNegative(average, (n - 1) as real);
    Share(average * (n - 1) as real + rise, n)
  }

  function Share(total: real, n: nat): (r: real)
    requires 1 <= n && 0.0 <= total
    ensures 0.0 <= r
  {
    total / n as real
  }

  function Negated(values: seq<real>): (r: seq<real>)
    ensures |r| == |values|
    ensures forall i :: 0 <= i < |r| ==> r[i] == -values[i]
  {
    seq(|values|, i requires 0 <= i < |values| => -values[i])
  }

  /** A fall is a rise of the negated values. */
  function MeanFall(values: seq<real>, n: nat): real
    requires 1 <= n < |values|
  {
    MeanRise(Negated(values), n)
  }

  function Strength(gain: real, loss: real): real
    requires 0.0 <= gain && 0.0 <= loss
  {
    if loss == 0.0 then (if gain == 0.0 then 50.0 else 100.0)
    else
      Quotient(gain, loss);
      assert 0.0 <= gain / loss;
      100.0 - 100.0 / (1.0 + gain / loss)
  }

  function RsiOf(values: seq<real>, n: nat): real
    requires 1 <= n < |values|
  {
    Strength(MeanRise(values, n), MeanFall(values, n))
  }

  function IndicatorOf(all: seq<real>, operand: Operand): Option<real>
    requires operand.period >= 1
  {
    var values := if operand.lag == 0 then all else all[..if operand.lag <= |all| then |all| - operand.lag else 0];
    if values == [] then None
    else match operand.indicator
      case CONSTANT => Some(operand.value)
      case CLOSE => Some(values[|values| - 1])
      case EMA => if |values| < operand.period then None else Some(EmaOf(values, operand.period))
      case RSI => if |values| <= operand.period then None else Some(RsiOf(values, operand.period))
  }

  /** Dispatch on the operand, proved to compute the indicator. */
  method ComputeIndicator(all: seq<real>, operand: Operand) returns (r: Option<real>)
    requires operand.Valid()
    ensures r == IndicatorOf(all, operand)
  {
    var values := all;
    if operand.lag != 0 {
      values := all[..if operand.lag <= |all| then |all| - operand.lag else 0];
    }
    if values == [] { return None; }
    if operand.indicator == CONSTANT { return Some(operand.value); }
    if operand.indicator == CLOSE { return Some(values[|values| - 1]); }
    if operand.indicator == EMA {
      if |values| < operand.period { return None; }
      var ema := ComputeEma(values, operand.period);
      return Some(ema);
    }
    if |values| <= operand.period { return None; }
    var rsi := ComputeRsi(values, operand.period);
    return Some(rsi);
  }

  method ComputeEma(values: seq<real>, n: nat) returns (result: real)
    requires 1 <= n <= |values|
    ensures result == EmaOf(values, n)
  {
    var sum := 0.0;
    for i := 0 to n
      invariant sum == Sum(values[..i])
    {
      assert values[..i + 1][..i] == values[..i];
      sum := sum + values[i];
    }
    result := sum / n as real;
    for i := n to |values|
      invariant result == EmaOf(values[..i], n)
    {
      assert values[..i + 1][..i] == values[..i];
      result := Pull(result, values[i], n);
    }
    assert values[..|values|] == values;
  }

  /** Wilder's averages of the gains; the losses are the gains of the negated values. */
  method ComputeMeanRise(values: seq<real>, n: nat) returns (gain: real)
    requires 1 <= n < |values|
    ensures gain == MeanRise(values, n)
  {
    gain := 0.0;
    for i := 0 to n
      invariant gain == Rises(values[..i + 1])
    {
      assert values[..i + 2][..i + 1] == values[..i + 1];
      gain := gain + Rise(values[i], values[i + 1]);
    }
    gain := Share(gain, n);
    for i := n to |values| - 1
      invariant 0.0 <= gain == MeanRise(values[..i + 1], n)
    {
      assert values[..i + 2][..i + 1] == values[..i + 1];
      gain := Smooth(gain, Rise(values[i], values[i + 1]), n);
    }
    assert values[..|values|] == values;
  }

  method ComputeRsi(values: seq<real>, n: nat) returns (rsi: real)
    requires 1 <= n < |values|
    ensures rsi == RsiOf(values, n)
  {
    var gain := ComputeMeanRise(values, n);
    var loss := ComputeMeanRise(Negated(values), n);
    if loss == 0.0 { return if gain == 0.0 then 50.0 else 100.0; }
    Quotient(gain, loss);
    rsi := 100.0 - 100.0 / (1.0 + gain / loss);
  }

  // ----- rules of the phase14 strategy -----

  datatype Cross = Cross(left: Operand, right: Operand, above: bool)

  datatype Strategy = Strategy(confirmed: bool, long: bool, conditions: seq<Cross>, stop: real, target: real)
  {
    ghost predicate Valid() {
      && conditions != [] && 0.0 < stop < 1.0 && 0.0 < target < 1.0
      && forall c :: c in conditions ==> c.left.Valid() && c.right.Valid()
    }

    predicate Permitted() { confirmed && long }
  }

  /** RSI14 crossing above 30 while the close crosses above EMA21. */
  const RECOVERY: seq<Cross> := [
    Cross(Operand(RSI, 14, 0.0, 0), Operand(CONSTANT, 1, 30.0, 0), true),
    Cross(Operand(CLOSE, 1, 0.0, 0), Operand(EMA, 21, 0.0, 0), true)]

  predicate Crosses(a: Option<real>, b: Option<real>, c: Option<real>, d: Option<real>, below: bool) {
    a.Some? && b.Some? && c.Some? && d.Some? &&
    if below then a.value >= b.value && c.value < d.value else a.value <= b.value && c.value > d.value
  }

  function Previous(closes: seq<real>): seq<real> {
    if closes == [] then [] else closes[..|closes| - 1]
  }

  predicate RuleFires(closes: seq<real>, rule: Cross)
    requires rule.left.period >= 1 && rule.right.period >= 1
  {
    Crosses(IndicatorOf(Previous(closes), rule.left), IndicatorOf(Previous(closes), rule.right),
            IndicatorOf(closes, rule.left), IndicatorOf(closes, rule.right), !rule.above)
  }

  /** All conditions cross on the same completed bar. */
  predicate Signal(closes: seq<real>, conditions: seq<Cross>)
    requires forall c :: c in conditions ==> c.left.period >= 1 && c.right.period >= 1
  {
    forall k :: 0 <= k < |conditions| ==> RuleFires(closes, conditions[k])
  }

  // ----- the six registered definitions -----

  datatype Identifier = S01 | S02 | S03 | S04 | S05 | S06

  datatype Definition = Definition(identifier: Identifier, stop: real, target: real, minimumVolume: int)
  {
    ghost predicate Valid() {
      0.0 < stop < 1.0 && 0.0 < target < 1.0 && 1 <= minimumVolume
    }
  }

  const EMA9 := Operand(EMA, 9, 0.0, 0)
  const EMA21 := Operand(EMA, 21, 0.0, 0)
  const RSI14 := Operand(RSI, 14, 0.0, 0)

  function Closes(bars: seq<Candle>): (r: seq<real>)
    ensures |r| == |bars|
    ensures forall i :: 0 <= i < |r| ==> r[i] == bars[i].close
  {
    seq(|bars|, i requires 0 <= i < |bars| => bars[i].close)
  }

  function Final(values: seq<real>, period: nat): seq<real>
    requires period <= |values|
  {
    values[|values| - period..]
  }

  function Mean(values: seq<real>): real
    requires values != []
  {
    Sum(values) / |values| as real
  }

  function SquaresAbout(values: seq<real>, mean: real): real {
    if values == [] then 0.0
    else
      var d := values[|values| - 1] - mean;
      SquaresAbout(values[..|values| - 1], mean) + d * d
  }

  /** Mean and population variance of the last twenty values: the Bollinger basis. */
  datatype Basis = Basis(mean: real, variance: real)

  function Bollinger(values: seq<real>, period: nat): Option<Basis>
    requires period >= 1
  {
    if |values| < period then None
    else
      var window := Final(values, period);
      var mean := Mean(window);
      Some(Basis(mean, SquaresAbout(window, mean) / period as real))
  }

  /** x <= mean - 2 * sqrt(variance), decided without the square root. */
  predicate AtMostLower(x: real, b: Basis) {
    b.mean - x >= 0.0 && (b.mean - x) * (b.mean - x) >= 4.0 * b.variance
  }

  /** The root-free comparison is the comparison with the band itself. */
  lemma {:induction false} LowerBand(x: real, b: Basis, deviation: real)
    requires 0.0 <= deviation && deviation * deviation == b.variance
    ensures AtMostLower(x, b) <==> x <= b.mean - 2.0 * deviation
  {
    var gap, width := b.mean - x, 2.0 * deviation;
    assert width * width == 4.0 * b.variance;
    if gap >= 0.0 { SquareOrder(gap, width); }
  }

  lemma {:induction false} SquareOrder(a: real, b: real)
    requires 0.0 <= a && 0.0 <= b
    ensures a * a >= b * b <==> a >= b
  {
    assert a * a - b * b == (a - b) * (a + b);
    if a >= b {
      MulNonNegative(a - b, a + b);
    } else {
      MulPositive(b - a, a + b);
      assert (b - a) * (a + b) == -((a - b) * (a + b));
    }
  }

  function Volume(bars: seq<Candle>): int {
    if bars == [] then 0 else Volume(bars[..|bars| - 1]) + bars[|bars| - 1].volume
  }

  /** A candle's typical price times its volume. */
  function Traded(b: Candle): real { (b.high + b.low + b.close) / 3.0 * b.volume as real }

  function Turnover(bars: seq<Candle>): real {
    if bars == [] then 0.0 else Turnover(bars[..|bars| - 1]) + Traded(bars[|bars| - 1])
  }

  function Vwap(bars: seq<Candle>): Option<real> {
    if Volume(bars) == 0 then None else Some(Turnover(bars) / Volume(bars) as real)
  }

  /** High and low of the first fifteen minutes. */
  function OpeningRange(bars: seq<Candle>): Option<(real, real)> {
    if |bars| < 3 then None
    else Some((Max(Max(bars[0].high, bars[1].high), bars[2].high),
               Min(Min(bars[0].low, bars[1].low), bars[2].low)))
  }

  /** The entry rule over the completed bars of one session. */
  predicate EntrySignal(bars: seq<Candle>, d: Definition) {
    if |bars| < 2 then false
    else
      var closes := Closes(bars);
      var previous := Previous(closes);
      var before, now := closes[|closes| - 2], closes[|closes| - 1];
      match d.identifier
      case S01 => Signal(closes, RECOVERY)
      case S02 =>
        Crosses(IndicatorOf(previous, EMA9), IndicatorOf(previous, EMA21),
                IndicatorOf(closes, EMA9), IndicatorOf(closes, EMA21), false)
      case S03 =>
        var average := IndicatorOf(closes, EMA21);
        average.Some? && now > average.value &&
        Crosses(IndicatorOf(previous, RSI14), Some(50.0), IndicatorOf(closes, RSI14), Some(50.0), false)
      case S04 =>
        var earlier, current := Bollinger(previous, 20), Bollinger(closes, 20);
        earlier.Some? && current.Some? && AtMostLower(before, earlier.value) && !AtMostLower(now, current.value)
      case S05 =>
        bars[|bars| - 1].volume > 0 && Volume(bars) >= d.minimumVolume &&
        Crosses(Some(before), Vwap(bars[..|bars| - 1]), Some(now), Vwap(bars), false)
      case S06 =>
        var interval := OpeningRange(bars);
        |bars| >= 4 && interval.Some? &&
        Crosses(Some(before), Some(interval.value.0), Some(now), Some(interval.value.0), false)
  }

  /** The closes of a shorter run are the earlier closes. */
  lemma {:induction false} ClosesPrefix(bars: seq<Candle>)
    requires bars != []
    ensures Previous(Closes(bars)) == Closes(bars[..|bars| - 1])
  {
  }

  /** A rule that fires needs the opposite side just before, so it cannot fire twice running. */
  lemma {:induction false} NeverFiresTwiceRunning(bars: seq<Candle>, d: Definition)
    requires bars != []
    ensures !(EntrySignal(bars[..|bars| - 1], d) && EntrySignal(bars, d))
  {
    var earlier := bars[..|bars| - 1];
    ClosesPrefix(bars);
    if EntrySignal(bars, d) && |earlier| >= 2 {
      ClosesPrefix(earlier);
      match d.identifier
      case S01 =>
        assert RuleFires(Closes(bars), RECOVERY[0]);
        assert !RuleFires(Closes(earlier), RECOVERY[0]);
      case S06 =>
        assert |earlier| >= 3 ==> OpeningRange(earlier) == OpeningRange(bars);
      case _ =>
    }
  }
}
