/** The averages on runs of equal steps, and for each entry rule a session on which it fires. */
module SignalExamples {
  import opened Wrappers
  import opened Clock
  import opened RealFacts
  import opened Series
  import opened Strategies
  import opened SignalLaws

  // ----- runs of equal steps -----

  function Ramp(from: real, step: real, k: nat): (r: seq<real>)
    ensures |r| == k && forall i :: 0 <= i < k ==> r[i] == from + i as real * step
  {
    seq(k, i requires 0 <= i < k => from + i as real * step)
  }

  lemma {:induction false} RampFront(from: real, step: real, k: nat)
    ensures Ramp(from, step, k + 1)[..k] == Ramp(from, step, k)
    ensures Ramp(from, step, k + 1)[k] == from + k as real * step
    ensures k > 0 ==> Ramp(from, step, k + 1)[k] - Ramp(from, step, k + 1)[k - 1] == step
  {
  }

  lemma {:induction false} RampSum(from: real, step: real, k: nat)
    ensures Sum(Ramp(from, step, k)) == k as real * from + step * (k as real * (k as real - 1.0) / 2.0)
  {
    if k > 0 {
      RampSum(from, step, k - 1);
      RampFront(from, step, k - 1);
      RampSumStep(from, step, k as real);
    }
  }

  lemma {:induction false} RampSumStep(from: real, step: real, k: real)
    ensures
      (k - 1.0) * from + step * ((k - 1.0) * (k - 2.0) / 2.0) + (from + (k - 1.0) * step) == k * from + step * (k * (k - 1.0) / 2.0)
  {
  }

  /** What a steady trend was (n - 1) / 2 steps before its k-th value. */
  function Behind(from: real, step: real, k: real, n: real): real { from + (k - 1.0) * step - (n - 1.0) / 2.0 * step }

  /** The exponential average of n follows a steady trend (n - 1) / 2 steps behind, from its first value on. */
  lemma {:induction false} EmaLags(from: real, step: real, k: nat, n: nat)
    requires 1 <= n <= k
    ensures EmaOf(Ramp(from, step, k), n) == Behind(from, step, k as real, n as real)
  {
    hide *;
    EmaOpens(Ramp(from, step, k), n);
    if k == n {
      RampSum(from, step, k);
      MeanOfRamp(from, step, k as real);
    } else {
      EmaLags(from, step, k - 1, n);
      RampFront(from, step, k - 1);
      PullLags(from, step, (k - 1) as real, n, Ramp(from, step, k)[k - 1]);
      assert (k - 1) as real + 1.0 == k as real;
    }
  }

  lemma {:induction false} EmaOpens(values: seq<real>, n: nat)
    requires 1 <= n <= |values|
    ensures
      EmaOf(values, n) ==
      if |values| == n then Sum(values) / n as real else Pull(EmaOf(values[..|values| - 1], n), values[|values| - 1], n)
  {
    hide Pull;
  }

  lemma {:induction false} MeanOfRamp(from: real, step: real, k: real)
    requires k > 0.0
    ensures (k * from + step * (k * (k - 1.0) / 2.0)) / k == Behind(from, step, k, k)
  {
    var mean := from + (k - 1.0) / 2.0 * step;
    assert k * from + step * (k * (k - 1.0) / 2.0) == mean * k;
    Quotient(mean * k, k);
    SameProduct(mean * k / k, mean, k);
  }

  lemma {:induction false} PullLags(from: real, step: real, k: real, n: nat, value: real)
    requires 1 <= n && value == from + k * step
    ensures Pull(Behind(from, step, k, n as real), value, n) == Behind(from, step, k + 1.0, n as real)
  {
    hide *;
    Gap(from, step, k, n as real);
    PullIs(Behind(from, step, k, n as real), value, n);
    HalfWay(value - Behind(from, step, k, n as real), n as real + 1.0, step);
  }

  /** The newest value of a trend stands (m + 1) / 2 steps above an average that lags. */
  lemma {:induction false} Gap(from: real, step: real, k: real, m: real)
    ensures (from + k * step) - Behind(from, step, k, m) == (m + 1.0) / 2.0 * step
    ensures Behind(from, step, k + 1.0, m) == Behind(from, step, k, m) + step
  {
  }

  lemma {:induction false} HalfWay(gap: real, m: real, step: real)
    requires m > 0.0 && gap == m / 2.0 * step
    ensures Portion(gap, 2.0 / m) == step
  {
    var w := 2.0 / m;
    Quotient(2.0, m);
    Regroup(step / 2.0, m, w);
    assert gap == step / 2.0 * m;
    Commute(m, w);
    assert step / 2.0 * 2.0 == step;
  }

  /** Wilder's mean of steady rises is the rise, and of steady falls nothing. */
  lemma {:induction false} RampRises(from: real, step: real, k: nat, n: nat)
    requires 1 <= n < k
    ensures MeanRise(Ramp(from, step, k), n) == Max(step, 0.0)
  {
    var m := k - 1;
    RampFront(from, step, m);
    if k == n + 1 {
      AllRises(from, step, k);
      ShareOf(n, Max(step, 0.0));
    } else {
      RampRises(from, step, m, n);
      SmoothSteady(Max(step, 0.0), n);
    }
  }

  lemma {:induction false} AllRises(from: real, step: real, k: nat)
    requires k >= 1
    ensures Rises(Ramp(from, step, k)) == (k - 1) as real * Max(step, 0.0)
  {
    hide *;
    if k == 1 {
      NoRise(from, step);
    } else {
      AllRises(from, step, k - 1);
      NextRise(from, step, k);
      OneMore((k - 1) as real, Max(step, 0.0));
      assert (k - 2) as real == (k - 1) as real - 1.0;
    }
  }

  lemma {:induction false} OneMore(k: real, x: real)
    ensures k * x == (k - 1.0) * x + x
  {
  }

  lemma {:induction false} NoRise(from: real, step: real)
    ensures Rises(Ramp(from, step, 1)) == 0 as real * Max(step, 0.0)
  {
    assert |Ramp(from, step, 1)| == 1;
  }

  lemma {:induction false} NextRise(from: real, step: real, k: nat)
    requires k >= 2
    ensures Rises(Ramp(from, step, k)) == Rises(Ramp(from, step, k - 1)) + Max(step, 0.0)
  {
    RampFront(from, step, k - 1);
    var ramp := Ramp(from, step, k);
    assert ramp[k - 1] == from + (k - 1) as real * step && ramp[k - 2] == from + (k - 2) as real * step;
    NextStep(from, step, (k - 2) as real);
    assert ramp[k - 1] - ramp[k - 2] == step;
    hide Ramp, Max;
  }

  lemma {:induction false} NextStep(from: real, step: real, k: real)
    ensures from + (k + 1.0) * step == from + k * step + step
  {
  }

  lemma {:induction false} ShareOf(n: nat, x: real)
    requires 1 <= n && 0.0 <= x
    ensures n as real * x >= 0.0 && Share(n as real * x, n) == x
  {
    MulNonNegative(n as real, x);
    Quotient(n as real * x, n as real);
    Commute(n as real, x);
    SameProduct(n as real * x / n as real, x, n as real);
  }

  lemma {:induction false} SmoothSteady(x: real, n: nat)
    requires 1 <= n && 0.0 <= x
    ensures Smooth(x, x, n) == x
  {
    assert x * (n - 1) as real + x == n as real * x;
    ShareOf(n, x);
  }

  lemma {:induction false} RampFalls(from: real, step: real, k: nat, n: nat)
    requires 1 <= n < k
    ensures MeanFall(Ramp(from, step, k), n) == Max(-step, 0.0)
  {
    var down := Ramp(-from, -step, k);
    forall i | 0 <= i < k ensures Negated(Ramp(from, step, k))[i] == down[i] { Opposite(i as real, step); }
    assert Negated(Ramp(from, step, k)) == down;
    RampRises(-from, -step, k, n);
  }

  lemma {:induction false} Opposite(a: real, b: real)
    ensures a * -b == -(a * b)
  {
  }

  /** The index of a steady rise is 100, of a steady fall 0, and of a price that stands still 50. */
  lemma {:induction false} RampStrength(from: real, step: real, k: nat, n: nat)
    requires 1 <= n < k
    ensures RsiOf(Ramp(from, step, k), n) == if step > 0.0 then 100.0 else if step < 0.0 then 0.0 else 50.0
  {
    RampRises(from, step, k, n);
    RampFalls(from, step, k, n);
    hide MeanRise, MeanFall;
    if step < 0.0 { assert 0.0 / -step == 0.0; }
  }

  // ----- sessions -----

  /** Candles that stand at their closes, one after the other from an instant, of a given volume. */
  function Standing(at: int, closes: seq<real>, volume: int): (r: seq<Candle>)
    ensures |r| == |closes|
    ensures forall i :: 0 <= i < |r| ==> r[i] == Candle(at + FIVE * i, closes[i], closes[i], closes[i], closes[i], volume)
  {
    seq(|closes|, i requires 0 <= i < |closes| => Candle(at + FIVE * i, closes[i], closes[i], closes[i], closes[i], volume))
  }

  lemma {:induction false} StandingCloses(at: int, closes: seq<real>, volume: int)
    ensures Closes(Standing(at, closes, volume)) == closes
    ensures at % FIVE == 0 && 0 <= volume && (forall c :: c in closes ==> 0.0 < c) ==> Sound(Standing(at, closes, volume))
  {
    assert forall i :: 0 <= i < |closes| ==> closes[i] in closes;
  }

  /** A price that stands still, and then jumps. */
  function Jump(k: nat, from: real, step: real, to: real): seq<real> { Ramp(from, step, k) + [to] }

  /** A session for each rule. */
  function Example(id: Identifier): seq<real> {
    match id
    case S01 => Jump(21, 120.0, -1.0, 115.0)
    case S02 => Jump(21, 100.0, 0.0, 110.0)
    case S03 => Jump(21, 100.0, 0.0, 110.0)
    case S04 => Ramp(100.0, 0.0, 19) + [90.0, 110.0]
    case S05 => Jump(3, 100.0, 0.0, 102.0)
    case S06 => Jump(3, 100.0, 0.0, 102.0)
  }

  lemma {:induction false} JumpEma(k: nat, from: real, step: real, to: real, n: nat)
    requires 1 <= n <= k
    ensures EmaOf(Jump(k, from, step, to), n) == Pull(EmaOf(Ramp(from, step, k), n), to, n)
  {
    var all := Jump(k, from, step, to);
    assert all[..|all| - 1] == Ramp(from, step, k);
  }

  lemma {:induction false} JumpRises(k: nat, from: real, step: real, to: real, n: nat)
    requires 1 <= n < k
    ensures MeanRise(Jump(k, from, step, to), n) == Smooth(Max(step, 0.0), Rise(Ramp(from, step, k)[k - 1], to), n)
    ensures MeanFall(Jump(k, from, step, to), n) == Smooth(Max(-step, 0.0), Rise(-Ramp(from, step, k)[k - 1], -to), n)
  {
    hide Ramp, MeanRise, Rise, Smooth;
    var all, down := Jump(k, from, step, to), Negated(Jump(k, from, step, to));
    assert all[..k] == Ramp(from, step, k);
    assert down[..k] == Negated(Ramp(from, step, k));
    RampRises(from, step, k, n);
    RampFalls(from, step, k, n);
    RiseNext(all, n);
    RiseNext(down, n);
  }

  lemma {:induction false} RiseNext(values: seq<real>, n: nat)
    requires 1 <= n < |values| - 1
    ensures
      var m := |values| - 1;
      MeanRise(values, n) == Smooth(MeanRise(values[..m], n), Rise(values[m - 1], values[m]), n)
  {
    hide Smooth;
  }

  /** The recovery's figures: after twenty falls by one, a rise by fifteen lifts the index from 0 to 100 - 1300 / 28 and the
      close above an average of 110 and five elevenths. */
  lemma {:induction false} RecoveryFigures()
    ensures
      var closes := Example(S01);
      && RsiOf(Previous(closes), 14) == 0.0 && RsiOf(closes, 14) == 100.0 - 1300.0 / 28.0
      && EmaOf(Previous(closes), 21) == 110.0 && EmaOf(closes, 21) == 110.0 + 5.0 / 11.0
  {
    var closes := Example(S01);
    assert Previous(closes) == Ramp(120.0, -1.0, 21);
    RampStrength(120.0, -1.0, 21, 14);
    EmaLags(120.0, -1.0, 21, 21);
    JumpEma(21, 120.0, -1.0, 115.0, 21);
    JumpRises(21, 120.0, -1.0, 115.0, 14);
    hide MeanRise, EmaOf, Ramp, Jump;
    StrengthFigure();
  }

  lemma {:induction false} StrengthFigure()
    ensures Strength(Smooth(0.0, 15.0, 14), Smooth(1.0, 0.0, 14)) == 100.0 - 1300.0 / 28.0
  {
    var g, l := Smooth(0.0, 15.0, 14), Smooth(1.0, 0.0, 14);
    assert g == 15.0 / 14.0 && l == 13.0 / 14.0;
    Quotient(g, l);
    SameProduct(g / l, 15.0 / 13.0, l);
  }

  /** A jump by ten after a price that stood still: both averages and the index. */
  lemma {:induction false} JumpFigures()
    ensures
      var closes := Example(S02);
      && EmaOf(Previous(closes), 9) == 100.0 && EmaOf(Previous(closes), 21) == 100.0
      && EmaOf(closes, 9) == 102.0 && EmaOf(closes, 21) == 100.0 + 10.0 / 11.0
      && RsiOf(Previous(closes), 14) == 50.0 && RsiOf(closes, 14) == 100.0
  {
    var closes := Example(S02);
    assert Previous(closes) == Ramp(100.0, 0.0, 21);
    EmaLags(100.0, 0.0, 21, 9);
    EmaLags(100.0, 0.0, 21, 21);
    JumpEma(21, 100.0, 0.0, 110.0, 9);
    JumpEma(21, 100.0, 0.0, 110.0, 21);
    RampStrength(100.0, 0.0, 21, 14);
    JumpRises(21, 100.0, 0.0, 110.0, 14);
    hide MeanRise, EmaOf, Ramp, Jump;
  }

  lemma {:induction false} BandFigures()
    ensures
      var closes := Example(S04);
      && AtMostLower(90.0, Bollinger(Previous(closes), 20).value) && !AtMostLower(110.0, Bollinger(closes, 20).value)
  {
    var closes, flat := Example(S04), Ramp(100.0, 0.0, 19);
    assert Final(Previous(closes), 20) == flat + [90.0];
    assert Final(closes, 20) == (Ramp(100.0, 0.0, 18) + [90.0]) + [110.0] by { RampFront(100.0, 0.0, 18); }
    RampSum(100.0, 0.0, 19);
    RampSum(100.0, 0.0, 18);
    FlatSquares(100.0, 19);
    BandDecides(flat, 90.0);
    var front := Ramp(100.0, 0.0, 18) + [90.0];
    assert front[..18] == Ramp(100.0, 0.0, 18);
    assert Sum(front) == 1890.0;
    BandDecides(front, 110.0);
    hide Sum, SquaresAbout, AtMostLower, Ramp;
  }

  lemma {:induction false} FlatSquares(p: real, k: nat)
    ensures SquaresAbout(Ramp(p, 0.0, k), p) == 0.0
  {
    if k > 0 {
      FlatSquares(p, k - 1);
      RampFront(p, 0.0, k - 1);
    }
  }

  lemma {:induction false} StandingPrefix(at: int, closes: seq<real>, volume: int, n: nat)
    requires n <= |closes|
    ensures Standing(at, closes, volume)[..n] == Standing(at, closes[..n], volume)
  {
  }

  /** At equal volumes the weighted price of standing candles is the mean of the closes. */
  lemma {:induction false} EqualVolumes(at: int, closes: seq<real>, volume: int)
    requires closes != [] && 1 <= volume
    ensures Volume(Standing(at, closes, volume)) == |closes| * volume
    ensures Vwap(Standing(at, closes, volume)) == Some(Mean(closes))
  {
    TurnoverOf(at, closes, volume);
    hide Volume, Turnover, Sum, Standing;
    var v, k, n := volume as real, |closes| as real, |closes|;
    Products(n, volume);
    VwapOf(Standing(at, closes, volume), Sum(closes), k, v);
  }

  lemma {:induction false} Products(n: int, volume: int)
    requires n >= 1 && volume >= 1
    ensures n * volume >= 1 && (n * volume) as real == n as real * volume as real
  {
  }

  lemma {:induction false} VwapOf(bars: seq<Candle>, a: real, k: real, v: real)
    requires k > 0.0 && v > 0.0 && Volume(bars) as real == k * v && Turnover(bars) == a * v && Volume(bars) != 0
    ensures Vwap(bars) == Some(a / k)
  {
    hide Volume, Turnover;
    var all := Volume(bars) as real;
    MulPositive(k, v);
    Quotient(Turnover(bars), all);
    Quotient(a, k);
    Regroup(a / k, k, v);
    SameProduct(Turnover(bars) / all, a / k, all);
  }

  lemma {:induction false} TurnoverOf(at: int, closes: seq<real>, volume: int)
    ensures Volume(Standing(at, closes, volume)) == |closes| * volume
    ensures Turnover(Standing(at, closes, volume)) == Sum(closes) * volume as real
  {
    if closes != [] {
      var m := |closes| - 1;
      StandingPrefix(at, closes, volume, m);
      TurnoverOf(at, closes[..m], volume);
      assert (m + 1) * volume == m * volume + volume;
      MulAdd(Sum(closes[..m]), closes[m], volume as real);
      StandingTraded(at + FIVE * m, closes[m], volume);
      hide Traded;
    }
  }

  lemma {:induction false} StandingTraded(at: int, c: real, volume: int)
    ensures Traded(Candle(at, c, c, c, c, volume)) == c * volume as real
  {
    assert (c + c + c) / 3.0 == c;
  }

  /** Each rule fires on its session, whatever the stop, the target and the minimum volume, and not on the session
      one candle shorter. */
  lemma {:induction false} EachRuleFires(d: Definition)
    requires d.Valid()
    ensures
      var bars := Standing(0, Example(d.identifier), d.minimumVolume);
      bars != [] && Sound(bars) && EntrySignal(bars, d) && !EntrySignal(bars[..|bars| - 1], d)
  {
    hide EntrySignal, Standing, Example, Ramp;
    var bars := Standing(0, Example(d.identifier), d.minimumVolume);
    ExamplePrices(d.identifier);
    StandingCloses(0, Example(d.identifier), d.minimumVolume);
    match d.identifier
    {
      case S01 => RecoveryFires(d);
      case S02 => CrossFires(d);
      case S03 => StrengthFires(d);
      case S04 => BandFires(d);
      case S05 => VwapFires(d);
      case S06 => RangeFires(d);
    }
    NeverFiresTwiceRunning(bars, d);
  }

  lemma {:induction false} ExamplePrices(id: Identifier)
    ensures Example(id) != [] && forall c :: c in Example(id) ==> 0.0 < c
  {
  }

  lemma {:induction false} RecoveryFires(d: Definition)
    requires d.identifier == S01
    ensures EntrySignal(Standing(0, Example(S01), d.minimumVolume), d)
  {
    var closes := Example(S01);
    StandingCloses(0, closes, d.minimumVolume);
    RecoveryFigures();
    hide EmaOf, RsiOf, Standing, Ramp;
    assert RuleFires(closes, RECOVERY[0]);
    assert RuleFires(closes, RECOVERY[1]);
  }

  lemma {:induction false} CrossFires(d: Definition)
    requires d.identifier == S02
    ensures EntrySignal(Standing(0, Example(S02), d.minimumVolume), d)
  {
    StandingCloses(0, Example(S02), d.minimumVolume);
    JumpFigures();
    hide EmaOf, RsiOf, Standing, Ramp;
  }

  lemma {:induction false} StrengthFires(d: Definition)
    requires d.identifier == S03
    ensures EntrySignal(Standing(0, Example(S03), d.minimumVolume), d)
  {
    StandingCloses(0, Example(S03), d.minimumVolume);
    JumpFigures();
    hide EmaOf, RsiOf, Standing, Ramp;
  }

  lemma {:induction false} BandFires(d: Definition)
    requires d.identifier == S04
    ensures EntrySignal(Standing(0, Example(S04), d.minimumVolume), d)
  {
    StandingCloses(0, Example(S04), d.minimumVolume);
    BandFigures();
    BandThere(Previous(Example(S04)));
    BandThere(Example(S04));
    hide Bollinger, AtMostLower, Standing, Ramp;
  }

  lemma {:induction false} BandThere(values: seq<real>)
    ensures Bollinger(values, 20).Some? <==> 20 <= |values|
  {
  }

  lemma {:induction false} VwapFires(d: Definition)
    requires d.identifier == S05 && 1 <= d.minimumVolume
    ensures EntrySignal(Standing(0, Example(S05), d.minimumVolume), d)
  {
    var closes, bars := Example(S05), Standing(0, Example(S05), d.minimumVolume);
    StandingCloses(0, closes, d.minimumVolume);
    StandingPrefix(0, closes, d.minimumVolume, 3);
    EqualVolumes(0, closes, d.minimumVolume);
    EqualVolumes(0, closes[..3], d.minimumVolume);
    assert closes == [100.0, 100.0, 100.0, 102.0] && closes[..3] == [100.0, 100.0, 100.0];
    MeansThere();
    hide Vwap, Volume, Mean, Ramp;
  }

  lemma {:induction false} MeansThere()
    ensures Mean([100.0, 100.0, 100.0, 102.0]) == 100.5 && Mean([100.0, 100.0, 100.0]) == 100.0
  {
    assert [100.0, 100.0, 100.0, 102.0][..3] == [100.0, 100.0, 100.0] && [100.0, 100.0, 100.0][..2] == [100.0, 100.0];
    assert [100.0, 100.0][..1] == [100.0] && [100.0][..0] == [];
  }

  lemma {:induction false} RangeFires(d: Definition)
    requires d.identifier == S06
    ensures EntrySignal(Standing(0, Example(S06), d.minimumVolume), d)
  {
    var closes := Example(S06);
    StandingCloses(0, closes, d.minimumVolume);
    assert closes == [100.0, 100.0, 100.0, 102.0];
    hide Ramp;
  }
}
