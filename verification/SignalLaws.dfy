/** Which way the entry rules point: a higher close never takes a signal away, and each rule has sessions on which it
    fires. Beside it, what the averages are on simple runs of closes. */
module SignalLaws {
  import opened Wrappers
  import opened RealFacts
  import opened Series
  import opened Strategies

  // ----- a higher last close -----

  function Lifted(values: seq<real>, c: real): (r: seq<real>)
    requires values != []
    ensures |r| == |values|
  {
    values[..|values| - 1] + [c]
  }

  /** The same session, its last candle closing at c. */
  function Raised(bars: seq<Candle>, c: real): (r: seq<Candle>)
    requires bars != []
    ensures |r| == |bars|
  {
    bars[..|bars| - 1] + [bars[|bars| - 1].(close := c)]
  }

  lemma {:induction false} ClosesRaised(bars: seq<Candle>, c: real)
    requires bars != []
    ensures Closes(Raised(bars, c)) == Lifted(Closes(bars), c)
    ensures Previous(Closes(Raised(bars, c))) == Previous(Closes(bars))
  {
    assert Previous(Closes(Raised(bars, c))) == Closes(bars)[..|bars| - 1];
  }

  /** The newest value weighs one n-th in the first average and two (n + 1)-ths in every later one. */
  function Weight(values: seq<real>, n: nat): real
    requires 1 <= n <= |values|
  {
    if |values| == n then 1.0 / n as real else 2.0 / (n as real + 1.0)
  }

  lemma {:induction false} EmaLifted(values: seq<real>, n: nat, c: real)
    requires 1 <= n <= |values|
    ensures EmaOf(Lifted(values, c), n) == EmaOf(values, n) + Portion(c - values[|values| - 1], Weight(values, n))
  {
    hide Pull;
    var lifted, last := Lifted(values, c), values[|values| - 1];
    assert lifted[..|lifted| - 1] == values[..|values| - 1];
    if |values| == n {
      SumLifted(Sum(values[..|values| - 1]), last, c, n as real);
    } else {
      PullLifted(EmaOf(values[..|values| - 1], n), last, c, n);
    }
  }

  lemma {:induction false} SumLifted(front: real, last: real, c: real, n: real)
    requires n > 0.0
    ensures (front + c) / n == (front + last) / n + Portion(c - last, 1.0 / n)
  {
    var a, b, w := (front + c) / n, (front + last) / n, 1.0 / n;
    Quotient(front + c, n);
    Quotient(front + last, n);
    Quotient(1.0, n);
    Regroup(c - last, w, n);
    MulAdd(b, (c - last) * w, n);
    SameProduct(a, b + (c - last) * w, n);
  }

  lemma {:induction false} SameProduct(a: real, b: real, n: real)
    requires n > 0.0 && a * n == b * n
    ensures a == b
  {
    MulSub(a, b, n);
    if a > b { MulPositive(a - b, n); } else if a < b { MulPositive(b - a, n); MulSub(b, a, n); }
  }

  lemma {:induction false} PullLifted(average: real, last: real, c: real, n: nat)
    ensures Pull(average, c, n) == Pull(average, last, n) + Portion(c - last, 2.0 / (n as real + 1.0))
  {
    hide *;
    PullIs(average, last, n);
    PullIs(average, c, n);
    Further(average, last, c, 2.0 / (n as real + 1.0));
  }

  lemma {:induction false} Further(average: real, last: real, c: real, w: real)
    ensures Portion(c - average, w) == Portion(last - average, w) + Portion(c - last, w)
  {
    PortionAdd(last - average, c - last, w);
    assert (last - average) + (c - last) == c - average;
  }

  lemma {:induction false} PullIs(average: real, value: real, n: nat)
    ensures Pull(average, value, n) == average + Portion(value - average, 2.0 / (n as real + 1.0))
  {
    Commute(2.0 / (n as real + 1.0), value - average);
  }

  lemma {:induction false} WeightAtMostOne(values: seq<real>, n: nat)
    requires 1 <= n <= |values|
    ensures 0.0 <= Weight(values, n) <= 1.0
  {
    ShareAtMostOne(1.0, n as real);
    ShareAtMostOne(2.0, n as real + 1.0);
  }

  lemma {:induction false} ShareAtMostOne(a: real, n: real)
    requires 0.0 <= a <= n && n > 0.0
    ensures 0.0 <= a / n <= 1.0
  {
  }

  /** A close stays above its own average when it rises. */
  lemma {:induction false} AboveAverageStays(values: seq<real>, n: nat, c: real)
    requires 1 <= n <= |values| && values[|values| - 1] <= c && values[|values| - 1] > EmaOf(values, n)
    ensures c > EmaOf(Lifted(values, c), n)
  {
    var d := c - values[|values| - 1];
    hide *;
    EmaLifted(values, n, c);
    WeightAtMostOne(values, n);
    PortionBounds(c - values[|values| - 1], Weight(values, n));
  }

  /** The faster average gains more. */
  lemma {:induction false} FastGainsMore(values: seq<real>, c: real)
    requires 21 <= |values| && values[|values| - 1] <= c && EmaOf(values, 9) > EmaOf(values, 21)
    ensures EmaOf(Lifted(values, c), 9) > EmaOf(Lifted(values, c), 21)
  {
    hide *;
    EmaLifted(values, 9, c);
    EmaLifted(values, 21, c);
    FasterWeighs(values);
    LargerShare(c - values[|values| - 1], Weight(values, 21), Weight(values, 9));
  }

  lemma {:induction false} FasterWeighs(values: seq<real>)
    requires 21 <= |values|
    ensures Weight(values, 21) <= Weight(values, 9)
  {
    assert Weight(values, 9) == 0.2 && Weight(values, 21) <= 0.1;
  }

  lemma {:induction false} LargerShare(amount: real, share: real, larger: real)
    requires 0.0 <= amount && share <= larger
    ensures Portion(amount, share) <= Portion(amount, larger)
  {
    MulMono(share, larger, amount);
    Commute(share, amount);
    Commute(larger, amount);
  }

  // ----- the strength index -----

  lemma {:induction false} ShareOrder(a: real, b: real, n: nat)
    requires 1 <= n && 0.0 <= a <= b
    ensures Share(a, n) <= Share(b, n)
  {
  }

  /** Mean rises do not fall, and mean falls do not rise, with the last value. */
  lemma {:induction false} MeanRiseLifted(values: seq<real>, n: nat, c: real)
    requires 1 <= n < |values| && values[|values| - 1] <= c
    ensures MeanRise(values, n) <= MeanRise(Lifted(values, c), n)
  {
    var lifted, m := Lifted(values, c), |values| - 1;
    assert lifted[..m] == values[..m] && lifted[m - 1] == values[m - 1];
    var a, b := Rise(values[m - 1], values[m]), Rise(lifted[m - 1], lifted[m]);
    assert a <= b;
    if |values| == n + 1 {
      assert Rises(values) == Rises(values[..m]) + a && Rises(lifted) == Rises(values[..m]) + b;
      ShareOrder(Rises(values), Rises(lifted), n);
    } else {
      SmoothOrder(MeanRise(values[..m], n), a, b, n);
    }
  }

  lemma {:induction false} SmoothOrder(average: real, a: real, b: real, n: nat)
    requires 1 <= n && 0.0 <= average && 0.0 <= a <= b
    ensures Smooth(average, a, n) <= Smooth(average, b, n)
  {
    MulNonNegative(average, (n - 1) as real);
    ShareOrder(average * (n - 1) as real + a, average * (n - 1) as real + b, n);
  }

  lemma {:induction false} MeanFallLifted(values: seq<real>, n: nat, c: real)
    requires 1 <= n < |values| && values[|values| - 1] <= c
    ensures MeanFall(Lifted(values, c), n) <= MeanFall(values, n)
  {
    var lowered := Negated(Lifted(values, c));
    assert Negated(values) == Lifted(lowered, -values[|values| - 1]);
    MeanRiseLifted(lowered, n, -values[|values| - 1]);
  }

  /** More gain or less loss is more strength. */
  lemma {:induction false} StrengthOrder(g: real, l: real, gain: real, loss: real)
    requires 0.0 <= g <= gain && 0.0 <= loss <= l
    ensures Strength(g, l) <= Strength(gain, loss)
  {
    if l != 0.0 {
      StrengthBound(g, l);
      if loss != 0.0 {
        RatioOrder(g, l, gain, loss);
        Quotient(g, l);
        assert 0.0 <= g / l <= gain / loss;
        InverseOrder(1.0 + g / l, 1.0 + gain / loss);
      } else if gain == 0.0 {
        assert g / l == 0.0;
      }
    }
  }

  lemma {:induction false} StrengthBound(g: real, l: real)
    requires 0.0 <= g && 0.0 < l
    ensures Strength(g, l) <= 100.0
  {
    Quotient(g, l);
    assert 0.0 <= g / l;
  }

  lemma {:induction false} RatioOrder(g: real, l: real, gain: real, loss: real)
    requires 0.0 <= g <= gain && 0.0 < loss <= l
    ensures g / l <= gain / loss
  {
    MulMono(g, gain, loss);
    MulMono(loss, l, gain);
    Commute(loss, gain);
    Commute(l, gain);
    CrossOrder(g, l, gain, loss);
  }

  lemma {:induction false} InverseOrder(a: real, b: real)
    requires 0.0 < a <= b
    ensures 100.0 / b <= 100.0 / a
  {
    CrossOrder(100.0, b, 100.0, a);
  }

  lemma {:induction false} RsiLifted(values: seq<real>, n: nat, c: real)
    requires 1 <= n < |values| && values[|values| - 1] <= c
    ensures RsiOf(values, n) <= RsiOf(Lifted(values, c), n)
  {
    MeanRiseLifted(values, n, c);
    MeanFallLifted(values, n, c);
    hide MeanRise, MeanFall, Strength;
    NotNegative(values, n);
    NotNegative(Lifted(values, c), n);
    StrengthOrder(MeanRise(values, n), MeanFall(values, n), MeanRise(Lifted(values, c), n), MeanFall(Lifted(values, c), n));
  }

  lemma {:induction false} NotNegative(values: seq<real>, n: nat)
    requires 1 <= n < |values|
    ensures 0.0 <= MeanRise(values, n) && 0.0 <= MeanFall(values, n)
  {
  }

  // ----- the band -----

  /** Squares about b, from those about a and the sum of k values. */
  function Shifted(squares: real, sum: real, k: real, a: real, b: real): real {
    squares + 2.0 * (a - b) * (sum - k * a) + k * ((a - b) * (a - b))
  }

  lemma {:induction false} SquaresShift(values: seq<real>, a: real, b: real)
    ensures SquaresAbout(values, b) == Shifted(SquaresAbout(values, a), Sum(values), |values| as real, a, b)
  {
    if values == [] {
      assert Shifted(0.0, 0.0, 0.0, a, b) == 0.0;
    } else {
      hide *;
      var front, v := values[..|values| - 1], values[|values| - 1];
      SquaresShift(front, a, b);
      SquaresOpen(values, a);
      SquaresOpen(values, b);
      ShiftStep(SquaresAbout(front, a), Sum(front), |front| as real, v, a, b);
    }
  }

  function Square(x: real): real { x * x }

  lemma {:induction false} SquaresOpen(values: seq<real>, a: real)
    requires values != []
    ensures
      var front, v := values[..|values| - 1], values[|values| - 1];
      && SquaresAbout(values, a) == SquaresAbout(front, a) + Square(v - a)
      && Sum(values) == Sum(front) + v && |values| as real == |front| as real + 1.0
  {
  }

  lemma {:induction false} ShiftStep(squares: real, sum: real, k: real, v: real, a: real, b: real)
    ensures Shifted(squares, sum, k, a, b) + Square(v - b) == Shifted(squares + Square(v - a), sum + v, k + 1.0, a, b)
  {
    var g := a - b;
    assert Square(v - b) == Square(v - a) + 2.0 * g * (v - a) + g * g;
    ShiftTerms(g, sum, k, v, a);
  }

  lemma {:induction false} ShiftTerms(g: real, sum: real, k: real, v: real, a: real)
    ensures 2.0 * g * (sum - k * a) + k * (g * g) + 2.0 * g * (v - a) + g * g == 2.0 * g * (sum + v - (k + 1.0) * a) + (k + 1.0) * (g * g)
  {
  }

  /** So far below the mean of the nineteen before it that it is at or below the lower band. */
  predicate FarBelow(front: seq<real>, x: real) {
    var m := Sum(front) / 19.0;
    m - x >= 0.0 && 285.0 * ((m - x) * (m - x)) >= 80.0 * SquaresAbout(front, m)
  }

  /** How far a last value lies below the mean of the nineteen before it decides the lower band: it is at or below it
      exactly when 285 times the square of that distance is at least 80 times their spread. */
  lemma {:induction false} BandDecides(front: seq<real>, x: real)
    requires |front| == 19
    ensures
      var window := front + [x];
      var mean := Sum(window) / 20.0;
      AtMostLower(x, Basis(mean, SquaresAbout(window, mean) / 20.0)) <==> FarBelow(front, x)
  {
    var m, window := Sum(front) / 19.0, front + [x];
    var mean := Sum(window) / 20.0;
    assert window[..19] == front && window[19] == x;
    assert Sum(window) == 19.0 * m + x && Sum(front) == 19.0 * m;
    SquaresShift(front, m, mean);
    var u, s := m - x, SquaresAbout(front, m);
    assert mean - x == 0.95 * u && m - mean == 0.05 * u;
    hide SquaresAbout, Sum;
    SpreadOf(u, s, SquaresAbout(front, mean), SquaresAbout(window, mean), mean - x, m - mean);
  }

  lemma {:induction false} SpreadOf(u: real, s: real, front: real, all: real, below: real, shift: real)
    requires below == 0.95 * u && shift == 0.05 * u
    requires front == s + 19.0 * (shift * shift) && all == front + below * below
    ensures below >= 0.0 && below * below >= 4.0 * (all / 20.0) <==> u >= 0.0 && 285.0 * (u * u) >= 80.0 * s
  {
    assert below * below == 0.9025 * (u * u);
    assert shift * shift == 0.0025 * (u * u);
  }

  lemma {:induction false} BandOfLast(values: seq<real>)
    requires 20 <= |values|
    ensures Bollinger(values, 20).Some?
    ensures
      var k := |values|;
      AtMostLower(values[k - 1], Bollinger(values, 20).value) <==> FarBelow(values[k - 20..k - 1], values[k - 1])
  {
    var k := |values|;
    assert Final(values, 20) == values[k - 20..k - 1] + [values[k - 1]];
    BandDecides(values[k - 20..k - 1], values[k - 1]);
    hide Sum, SquaresAbout, AtMostLower, FarBelow;
  }

  lemma {:induction false} LessFarBelow(front: seq<real>, x: real, c: real)
    requires x <= c && FarBelow(front, c)
    ensures FarBelow(front, x)
  {
    var m := Sum(front) / 19.0;
    SquareOrder(m - x, m - c);
    hide Sum, SquaresAbout;
  }

  /** A close above the lower band stays above it when it rises. */
  lemma {:induction false} AboveBandStays(values: seq<real>, c: real)
    requires 20 <= |values| && values[|values| - 1] <= c
    requires !AtMostLower(values[|values| - 1], Bollinger(values, 20).value)
    ensures Bollinger(Lifted(values, c), 20).Some? && !AtMostLower(c, Bollinger(Lifted(values, c), 20).value)
  {
    hide FarBelow, AtMostLower, Bollinger;
    var k := |values|;
    BandOfLast(values);
    BandOfLast(Lifted(values, c));
    assert Lifted(values, c)[k - 20..k - 1] == values[k - 20..k - 1];
    if FarBelow(values[k - 20..k - 1], c) { LessFarBelow(values[k - 20..k - 1], values[k - 1], c); }
  }

  // ----- the volume-weighted price -----

  lemma {:induction false} VolumeRaised(bars: seq<Candle>, c: real)
    requires bars != []
    ensures Volume(Raised(bars, c)) == Volume(bars)
    ensures Turnover(Raised(bars, c)) == Turnover(bars) + (c - bars[|bars| - 1].close) / 3.0 * bars[|bars| - 1].volume as real
  {
    var raised, last := Raised(bars, c), bars[|bars| - 1];
    assert raised[..|raised| - 1] == bars[..|bars| - 1] && raised[|raised| - 1] == last.(close := c);
    TradedRaised(last, c);
    hide Traded;
  }

  lemma {:induction false} TradedRaised(b: Candle, c: real)
    ensures Traded(b.(close := c)) == Traded(b) + (c - b.close) / 3.0 * b.volume as real
  {
    var v := b.volume as real;
    assert (b.high + b.low + c) / 3.0 == (b.high + b.low + b.close) / 3.0 + (c - b.close) / 3.0;
    MulAdd((b.high + b.low + b.close) / 3.0, (c - b.close) / 3.0, v);
  }

  lemma {:induction false} VolumeHolds(bars: seq<Candle>)
    requires Sound(bars)
    ensures 0 <= Volume(bars) && (bars != [] ==> bars[|bars| - 1].volume <= Volume(bars))
  {
    if bars != [] {
      assert forall b :: b in bars[..|bars| - 1] ==> b in bars;
      VolumeHolds(bars[..|bars| - 1]);
      assert bars[|bars| - 1].Valid();
    }
  }

  lemma {:induction false} AboveVwap(bars: seq<Candle>, x: real)
    requires Volume(bars) > 0
    ensures Vwap(bars).Some? && (x > Vwap(bars).value <==> Portion(x, Volume(bars) as real) > Turnover(bars))
  {
    hide Volume, Turnover;
    QuotientOrder(x, Turnover(bars), Volume(bars) as real);
  }

  lemma {:induction false} QuotientOrder(x: real, a: real, d: real)
    requires d > 0.0
    ensures x > a / d <==> Portion(x, d) > a
  {
    Quotient(a, d);
    MulSub(x, a / d, d);
    if x > a / d { MulPositive(x - a / d, d); } else { MulMono(x, a / d, d); }
  }

  lemma {:induction false} ThirdIsLess(d: real, mine: real, all: real)
    requires 0.0 <= d && 0.0 <= mine <= all
    ensures d / 3.0 * mine <= Portion(d, all)
  {
    MulMono(d / 3.0, d, mine);
    MulMono(mine, all, d);
    Commute(mine, d);
    Commute(all, d);
  }

  /** A close above the volume-weighted price stays above it when it rises. */
  lemma {:induction false} AboveVwapStays(bars: seq<Candle>, c: real)
    requires bars != [] && Sound(bars) && bars[|bars| - 1].close <= c
    requires Vwap(bars).Some? && bars[|bars| - 1].close > Vwap(bars).value
    ensures Vwap(Raised(bars, c)).Some? && c > Vwap(Raised(bars, c)).value
  {
    hide *;
    var last, all := bars[|bars| - 1], Volume(bars) as real;
    VolumeRaised(bars, c);
    VolumeHolds(bars);
    LastVolume(bars);
    AboveVwap(bars, last.close);
    AboveVwap(Raised(bars, c), c);
    PortionAdd(last.close, c - last.close, all);
    assert last.close + (c - last.close) == c;
    ThirdIsLess(c - last.close, last.volume as real, all);
  }

  lemma {:induction false} LastVolume(bars: seq<Candle>)
    requires bars != [] && Sound(bars)
    ensures bars[|bars| - 1].volume >= 0 && (Vwap(bars).Some? ==> Volume(bars) != 0)
  {
    assert bars[|bars| - 1].Valid();
    hide Volume;
  }

  // ----- all six rules -----

  /** The direction of every rule: if a session fires, it still fires when its last close is any higher. */
  lemma {:induction false} HigherCloseStillFires(bars: seq<Candle>, d: Definition, c: real)
    requires bars != [] && Sound(bars) && bars[|bars| - 1].close <= c && EntrySignal(bars, d)
    ensures EntrySignal(Raised(bars, c), d)
  {
    ClosesRaised(bars, c);
    match d.identifier
    case S01 => RecoveryStays(bars, d, c);
    case S02 => CrossStays(bars, d, c);
    case S03 => StrengthStays(bars, d, c);
    case S04 => BandStays(bars, d, c);
    case S05 => VwapStays(bars, d, c);
    case S06 => RangeStays(bars, d, c);
  }

  lemma {:induction false} RecoveryStays(bars: seq<Candle>, d: Definition, c: real)
    requires bars != [] && bars[|bars| - 1].close <= c && EntrySignal(bars, d) && d.identifier == S01
    ensures EntrySignal(Raised(bars, c), d)
  {
    var closes := Closes(bars);
    ClosesRaised(bars, c);
    assert RuleFires(closes, RECOVERY[0]) && RuleFires(closes, RECOVERY[1]);
    hide EmaOf, RsiOf;
    RsiLifted(closes, 14, c);
    AboveAverageStays(closes, 21, c);
    var raised := Lifted(closes, c);
    assert RuleFires(raised, RECOVERY[0]);
    assert RuleFires(raised, RECOVERY[1]);
  }

  lemma {:induction false} CrossStays(bars: seq<Candle>, d: Definition, c: real)
    requires bars != [] && bars[|bars| - 1].close <= c && EntrySignal(bars, d) && d.identifier == S02
    ensures EntrySignal(Raised(bars, c), d)
  {
    ClosesRaised(bars, c);
    hide EmaOf;
    FastGainsMore(Closes(bars), c);
  }

  lemma {:induction false} StrengthStays(bars: seq<Candle>, d: Definition, c: real)
    requires bars != [] && bars[|bars| - 1].close <= c && EntrySignal(bars, d) && d.identifier == S03
    ensures EntrySignal(Raised(bars, c), d)
  {
    ClosesRaised(bars, c);
    hide EmaOf, RsiOf;
    RsiLifted(Closes(bars), 14, c);
    AboveAverageStays(Closes(bars), 21, c);
  }

  lemma {:induction false} BandStays(bars: seq<Candle>, d: Definition, c: real)
    requires bars != [] && bars[|bars| - 1].close <= c && EntrySignal(bars, d) && d.identifier == S04
    ensures EntrySignal(Raised(bars, c), d)
  {
    ClosesRaised(bars, c);
    BandNeedsTwenty(Closes(bars));
    hide Bollinger, AtMostLower;
    AboveBandStays(Closes(bars), c);
  }

  lemma {:induction false} BandNeedsTwenty(values: seq<real>)
    ensures Bollinger(values, 20).Some? ==> 20 <= |values|
  {
  }

  lemma {:induction false} VwapStays(bars: seq<Candle>, d: Definition, c: real)
    requires bars != [] && Sound(bars) && bars[|bars| - 1].close <= c && EntrySignal(bars, d) && d.identifier == S05
    ensures EntrySignal(Raised(bars, c), d)
  {
    ClosesRaised(bars, c);
    VolumeRaised(bars, c);
    hide Vwap, Volume, Turnover;
    AboveVwapStays(bars, c);
    assert Raised(bars, c)[..|bars| - 1] == bars[..|bars| - 1];
  }

  lemma {:induction false} RangeStays(bars: seq<Candle>, d: Definition, c: real)
    requires bars != [] && bars[|bars| - 1].close <= c && EntrySignal(bars, d) && d.identifier == S06
    ensures EntrySignal(Raised(bars, c), d)
  {
    ClosesRaised(bars, c);
    assert OpeningRange(Raised(bars, c)) == OpeningRange(bars);
  }
}
