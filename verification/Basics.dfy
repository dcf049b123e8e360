/** Shared vocabulary: optional and failing values, and the clock of the exchange. */
module Wrappers {

  datatype Option<+T> = None | Some(value: T)

  /** A returned value, or the text of the error the program raises. */
  datatype Result<+T> = Ok(value: T) | Err(error: string) {
    predicate IsFailure() {
      Err?
    }

    function PropagateFailure<U>(): Result<U>
      requires Err?
    {
      Err(error)
    }

    function Extract(): T
      requires Ok?
    {
      value
    }
  }
}

/** Instants are whole minutes since the UTC epoch; the exchange runs on UTC + 5:30. */
module Clock {
  const FIVE := 5
  const MINUTES_PER_DAY := 1440
  const IST_OFFSET := 330

  /** The calendar day of an instant on the exchange's clock. */
  function DateOf(at: int): int {
    (at + IST_OFFSET) / MINUTES_PER_DAY
  }

  /** The minute of that day. */
  function TimeOfDay(at: int): int {
    (at + IST_OFFSET) % MINUTES_PER_DAY
  }

  /** The instant at which a wall-clock minute of a given day occurs. */
  function Combine(date: int, time: int): int {
    date * MINUTES_PER_DAY + time - IST_OFFSET
  }
}

/** Small order facts over the reals that the money proofs share. */
module RealFacts {

  function Min(a: real, b: real): real { if a <= b then a else b }

  function Max(a: real, b: real): real { if a >= b then a else b }

  /** Division as the simulators use it, on denominators they keep positive. */
  function Ratio(a: real, b: real): real { if b == 0.0 then 0.0 else a / b }

  lemma {:induction false} MulMono(a: real, b: real, c: real)
    requires a <= b && c >= 0.0
    ensures a * c <= b * c
  {
    assert (b - a) * c >= 0.0;
  }

  lemma {:induction false} MulNonNegative(a: real, b: real)
    requires a >= 0.0 && b >= 0.0
    ensures a * b >= 0.0
  {
  }

  lemma {:induction false} MulSub(a: real, b: real, c: real)
    ensures (a - b) * c == a * c - b * c
  {
  }

  lemma {:induction false} MulAdd(a: real, b: real, c: real)
    ensures (a + b) * c == a * c + b * c
  {
  }

  lemma {:induction false} Commute(a: real, b: real)
    ensures a * b == b * a
  {
  }

  lemma {:induction false} MulPositive(a: real, b: real)
    requires a > 0.0 && b > 0.0
    ensures a * b > 0.0
  {
  }

  // ----- shares of amounts -----

  /** The given share of an amount. The lemmas below speak of it as a symbol, so that proofs about
      sums of shares stay linear. */
  function Portion(amount: real, share: real): real { amount * share }

  lemma {:induction false} PortionAdd(a: real, b: real, share: real)
    ensures Portion(a + b, share) == Portion(a, share) + Portion(b, share)
  {
  }

  lemma {:induction false} PortionBounds(amount: real, share: real)
    requires 0.0 <= amount && 0.0 <= share <= 1.0
    ensures 0.0 <= Portion(amount, share) <= amount
    ensures 0.0 < amount && 0.0 < share ==> 0.0 < Portion(amount, share)
  {
    MulNonNegative(amount, share);
    MulMono(share, 1.0, amount);
    if 0.0 < amount && 0.0 < share { MulPositive(amount, share); }
  }

  /** A larger amount has the larger share, and leaves the larger rest. */
  lemma {:induction false} PortionOrder(a: real, b: real, share: real)
    requires 0.0 <= a <= b && 0.0 <= share <= 1.0
    ensures Portion(a, share) <= Portion(b, share)
    ensures a - Portion(a, share) <= b - Portion(b, share)
  {
    hide Portion;
    PortionAdd(a, b - a, share);
    PortionBounds(b - a, share);
  }

  /** Dividing: a / d is the one number that times d gives a. */
  lemma {:induction false} Quotient(a: real, d: real)
    requires d > 0.0
    ensures (a / d) * d == a
  {
  }

  /** For positive divisors, a quotient is at most another when the cross products are. */
  lemma {:induction false} CrossOrder(a: real, d: real, b: real, e: real)
    requires d > 0.0 && e > 0.0
    requires a * e <= b * d
    ensures a / d <= b / e
  {
    var x, y := a / d, b / e;
    Quotient(a, d);
    Quotient(b, e);
    CommonDenominator(x, y, d, e);
  }

  lemma {:induction false} CommonDenominator(x: real, y: real, d: real, e: real)
    requires d > 0.0 && e > 0.0
    requires (x * d) * e <= (y * e) * d
    ensures x <= y
  {
    MulPositive(d, e);
    Regroup(x, d, e);
    Regroup(y, e, d);
    Commute(d, e);
    MulSub(x, y, d * e);
    if x > y { MulPositive(x - y, d * e); }
  }

  lemma {:induction false} Regroup(a: real, b: real, c: real)
    ensures (a * b) * c == a * (b * c)
  {
  }

  /** Shares of a fall: a lower value below a higher peak is the larger drawdown. */
  lemma {:induction false} DrawdownOrder(peak: real, value: real, lowPeak: real, highValue: real)
    requires 0.0 < lowPeak <= peak
    requires value <= highValue
    requires 0.0 <= highValue
    ensures (lowPeak - highValue) / lowPeak <= (peak - value) / peak
  {
    DrawdownCross(peak, value, lowPeak, highValue);
    CrossOrder(lowPeak - highValue, lowPeak, peak - value, peak);
  }

  lemma {:induction false} DrawdownCross(peak: real, value: real, lowPeak: real, highValue: real)
    requires 0.0 < lowPeak <= peak && value <= highValue && 0.0 <= highValue
    ensures (lowPeak - highValue) * peak <= (peak - value) * lowPeak
  {
    MulMono(lowPeak, peak, highValue);
    MulMono(value, highValue, lowPeak);
    MulSub(lowPeak, highValue, peak);
    MulSub(peak, value, lowPeak);
    Commute(lowPeak, peak);
    Commute(highValue, peak);
    Commute(highValue, lowPeak);
  }
}

/** Texts cut at a separator. */
module Texts {
  /** A text cut at every occurrence of a character. */
  function Split(s: string, c: char): (r: seq<string>)
    ensures r != []
  {
    if s == "" then [""]
    else if s[0] == c then [""] + Split(s[1..], c)
    else
      var rest := Split(s[1..], c);
      [[s[0]] + rest[0]] + rest[1..]
  }

  lemma {:induction false} SplitWhole(a: string, c: char)
    requires c !in a
    ensures Split(a, c) == [a]
  {
    if a != "" {
      SplitWhole(a[1..], c);
      assert Split(a, c) == [[a[0]] + a[1..]] && [a[0]] + a[1..] == a;
    }
  }

  lemma {:induction false} SplitFirst(a: string, c: char, rest: string)
    requires c !in a
    ensures Split(a + [c] + rest, c) == [a] + Split(rest, c)
  {
    if a == "" {
      assert (a + [c] + rest)[1..] == rest;
    } else {
      assert (a + [c] + rest)[1..] == a[1..] + [c] + rest;
      SplitFirst(a[1..], c, rest);
      assert (a + [c] + rest)[0] == a[0] && [a[0]] + a[1..] == a;
      assert ([a[1..]] + Split(rest, c))[1..] == Split(rest, c);
    }
  }
}
