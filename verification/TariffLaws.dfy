/** When a tariff quotes, and a worked quotation; and where the exchange's clock stands. */
module TariffLaws {
  import opened Wrappers
  import opened Clock
  import opened Costs

  // ----- the clock -----

  /** The session opens at 9:15 on the exchange's clock, which is 3:45 UTC of the same day, all year. */
  lemma {:induction false} OpeningInUtc(day: int)
    ensures var at := day * MINUTES_PER_DAY + 3 * 60 + 45; DateOf(at) == day && TimeOfDay(at) == 9 * 60 + 15
    ensures Combine(day, 9 * 60 + 15) == day * MINUTES_PER_DAY + 3 * 60 + 45
  {
  }

  /** Every instant is its wall-clock minute of its day. */
  lemma {:induction false} ClockRoundTrips(at: int)
    ensures Combine(DateOf(at), TimeOfDay(at)) == at && 0 <= TimeOfDay(at) < MINUTES_PER_DAY
  {
  }

  // ----- when a tariff quotes -----

  predicate Quotes(s: Schedule, side: Side, n: real, at: int, basis: real) {
    Fee(s, side, n, at, if side == BUY then None else Some(basis)).Ok?
  }

  /** A tariff fixed as of a date gives the same quotation at any time. */
  lemma {:induction false} FixedTariffIgnoresTime(s: Schedule, side: Side, n: real, at: int, later: int, basis: Option<real>)
    requires s.asOf.Some?
    ensures Fee(s, side, n, at, basis) == Fee(s, side, n, later, basis)
  {
  }

  /** A historical tariff quotes positive orders exactly from its first day on to the day before its end. */
  lemma {:induction false} HistoricalTariffByDate(s: Schedule, side: Side, n: real, at: int, basis: real)
    requires s.asOf.None? && n > 0.0 && basis > 0.0
    ensures Quotes(s, side, n, at, basis) <==> s.effectiveFrom <= DateOf(at) < s.effectiveTo
  {
    QuoteSucceedsExactlyWhenEffective(s, side, n, at, basis);
  }

  /** Where one historical tariff ends and the next begins, exactly one of them quotes on every day. */
  lemma {:induction false} TariffsMeet(s: Schedule, t: Schedule, side: Side, n: real, at: int, basis: real)
    requires s.asOf.None? && t.asOf.None? && s.effectiveTo == t.effectiveFrom && n > 0.0 && basis > 0.0
    requires s.effectiveFrom <= DateOf(at) < t.effectiveTo
    ensures Quotes(s, side, n, at, basis) <==> !Quotes(t, side, n, at, basis)
  {
    HistoricalTariffByDate(s, side, n, at, basis);
    HistoricalTariffByDate(t, side, n, at, basis);
  }

  // ----- a worked quotation -----

  /** The tariff of the repository's own examples, from day 0 to day 730. */
  function SampleTariff(): Schedule {
    Schedule(0, 730, None, 0.0003, 20.0, 0.00025, 0.00003, 0.000001, 0.000001, 0.18, 0.00003)
  }

  /** Buying for 10000 and selling for 10100: transaction tax on the average of both legs of the sale only, stamp duty on the
      purchase only, and GST on neither of them. */
  lemma {:induction false} SampleQuotations(at: int)
    requires 0 <= DateOf(at) < 730
    ensures SampleTariff().Quote(BUY, 10000.0, at, None) == Ok(Charges(3.0, 0.0, 0.3, 0.01, 0.01, 0.5976, 0.3))
    ensures SampleTariff().Quote(SELL, 10100.0, at, Some(10000.0)) == Ok(Charges(3.03, 2.5125, 0.303, 0.0101, 0.0101, 0.603576, 0.0))
    ensures SampleTariff().Quote(BUY, 100000.0, at, None).value.brokerage == 20.0
  {
    hide DateOf;
  }
}
