/** The intraday tariff of NSE cash shares (backtest/costs.py). */
module Costs {
  import opened Wrappers
  import opened Clock
  import opened RealFacts

  datatype Side = BUY | SELL

  datatype Schedule = Schedule(
    effectiveFrom: int, effectiveTo: int, asOf: Option<int>,
    brokerageRate: real, brokerageCap: real, sttRate: real, exchangeRate: real,
    ipftRate: real, sebiRate: real, gstRate: real, stampRate: real)
  {
    predicate Effective(date: int) {
      effectiveFrom <= date < effectiveTo
    }

    ghost predicate Valid() {
      && effectiveFrom < effectiveTo
      && (asOf.Some? ==> Effective(asOf.value))
      && 0.0 <= brokerageCap
      && 0.0 <= brokerageRate <= 1.0
      && 0.0 <= sttRate <= 1.0
      && 0.0 <= exchangeRate <= 1.0
      && 0.0 <= ipftRate <= 1.0
      && 0.0 <= sebiRate <= 1.0
      && 0.0 <= gstRate <= 1.0
      && 0.0 <= stampRate <= 1.0
    }

    /** The date whose tariff applies to an execution. */
    function PricingDate(at: int): int {
      if asOf.Some? then asOf.value else DateOf(at)
    }

    function Quote(side: Side, notional: real, at: int, entryNotional: Option<real>): Result<Charges> {
      if !Effective(PricingDate(at)) then Err("COST_SCHEDULE_NOT_EFFECTIVE")
      else if notional <= 0.0 then Err("INVALID_NOTIONAL")
      else if side == SELL && (entryNotional.None? || entryNotional.value <= 0.0) then Err("ENTRY_BASIS_REQUIRED")
      else
        var brokerage := Min(brokerageCap, notional * brokerageRate);
        var exchange := notional * exchangeRate;
        var ipft := notional * ipftRate;
        var sebi := notional * sebiRate;
        var basis := if entryNotional.Some? then entryNotional.value else 0.0;
        Ok(Charges(
             brokerage,
             if side == BUY then 0.0 else (notional + basis) / 2.0 * sttRate,
             exchange, ipft, sebi,
             (brokerage + exchange + ipft + sebi) * gstRate,
             if side == BUY then notional * stampRate else 0.0))
    }

    /** What the next unit of a small sale costs; a cap of zero takes brokerage out at every amount. */
    function Slope(): real {
      (BrokerageSlope() + exchangeRate + ipftRate + sebiRate) * (1.0 + gstRate) + sttRate / 2.0
    }

    function BrokerageSlope(): real { if brokerageCap > 0.0 then brokerageRate else 0.0 }
  }

  datatype Charges = Charges(brokerage: real, stt: real, exchange: real, ipft: real, sebi: real, gst: real, stamp: real)
  {
    function Total(): real {
      brokerage + stt + exchange + ipft + sebi + gst + stamp
    }
  }

  /** The charged total of a quotation: what every accounting step takes from the quote. */
  function Fee(s: Schedule, side: Side, notional: real, at: int, basis: Option<real>): Result<real> {
    var c :- s.Quote(side, notional, at, basis);
    Ok(c.Total())
  }

  /** Quotations of positive orders succeed exactly when a tariff is in force on the pricing date,
      whatever the amounts. */
  lemma {:induction false} QuoteSucceedsExactlyWhenEffective(s: Schedule, side: Side, notional: real, at: int, basis: real)
    requires notional > 0.0 && basis > 0.0
    ensures Fee(s, BUY, notional, at, None).Ok? <==> s.Effective(s.PricingDate(at))
    ensures Fee(s, SELL, notional, at, Some(basis)).Ok? <==> s.Effective(s.PricingDate(at))
    ensures Fee(s, BUY, notional, at, None).Err? ==> Fee(s, BUY, notional, at, None).error == "COST_SCHEDULE_NOT_EFFECTIVE"
    ensures Fee(s, SELL, notional, at, Some(basis)).Err? ==> Fee(s, SELL, notional, at, Some(basis)).error == "COST_SCHEDULE_NOT_EFFECTIVE"
  {
  }

  /** The charges on which GST is levied. */
  function Levied(s: Schedule, n: real): real {
    Min(s.brokerageCap, n * s.brokerageRate) + n * s.exchangeRate + n * s.ipftRate + n * s.sebiRate
  }

  lemma {:induction false} LeviedBounds(s: Schedule, n: real, d: real)
    requires s.Valid() && 0.0 < n && 0.0 <= d
    ensures 0.0 <= Levied(s, n) <= Levied(s, n + d)
    ensures Levied(s, n + d) - Levied(s, n) <= d * (s.BrokerageSlope() + s.exchangeRate + s.ipftRate + s.sebiRate)
    ensures 0.0 < d ==> Levied(s, n + d) <= Levied(s, n) + Levied(s, d)
  {
    hide *;
    BrokerageBounds(s, n, d);
    LeviedSplits(s, n);
    LeviedSplits(s, n + d);
    LeviedSplits(s, d);
    RestGrown(s, n, d);
    RatesAdd(d, s.BrokerageSlope(), s.exchangeRate, s.ipftRate, s.sebiRate);
  }

  function Brokerage(s: Schedule, n: real): real { Min(s.brokerageCap, n * s.brokerageRate) }

  /** The levied charges other than brokerage. */
  function Rest(s: Schedule, n: real): real { n * s.exchangeRate + n * s.ipftRate + n * s.sebiRate }

  lemma {:induction false} LeviedSplits(s: Schedule, n: real)
    ensures Levied(s, n) == Brokerage(s, n) + Rest(s, n)
  {
  }

  lemma {:induction false} RestGrown(s: Schedule, n: real, d: real)
    requires s.Valid() && 0.0 < n && 0.0 <= d
    ensures Rest(s, n + d) == Rest(s, n) + Rest(s, d) && 0.0 <= Rest(s, n) && 0.0 <= Rest(s, d)
    ensures Rest(s, d) == d * s.exchangeRate + d * s.ipftRate + d * s.sebiRate
  {
    Grown(n, d, s.exchangeRate);
    Grown(n, d, s.ipftRate);
    Grown(n, d, s.sebiRate);
  }

  lemma {:induction false} BrokerageBounds(s: Schedule, n: real, d: real)
    requires s.Valid() && 0.0 < n && 0.0 <= d
    ensures
      && 0.0 <= Brokerage(s, n) <= Brokerage(s, n + d)
      && Brokerage(s, n + d) - Brokerage(s, n) <= d * s.BrokerageSlope()
      && (0.0 < d ==> Brokerage(s, n + d) <= Brokerage(s, n) + Brokerage(s, d))
  {
    Grown(n, d, s.brokerageRate);
    if s.brokerageCap == 0.0 { assert d * 0.0 == 0.0; }
  }

  lemma {:induction false} RatesAdd(d: real, a: real, b: real, c: real, e: real)
    ensures d * (a + b + c + e) == d * a + d * b + d * c + d * e
  {
  }

  lemma {:induction false} Grown(n: real, d: real, rate: real)
    requires 0.0 <= n && 0.0 <= d && 0.0 <= rate
    ensures (n + d) * rate == n * rate + d * rate
    ensures 0.0 <= n * rate && 0.0 <= d * rate
  {
    MulNonNegative(n, rate);
    MulNonNegative(d, rate);
  }

  /** What a purchase and a sale cost, as functions of their amounts. */
  function BuyCost(s: Schedule, n: real): real {
    Levied(s, n) + Levied(s, n) * s.gstRate + n * s.stampRate
  }

  function SellCost(s: Schedule, n: real, basis: real): real {
    Levied(s, n) + Levied(s, n) * s.gstRate + (n + basis) / 2.0 * s.sttRate
  }

  /** The quotations total exactly these costs. */
  lemma {:induction false} FeeOf(s: Schedule, side: Side, n: real, at: int, basis: Option<real>)
    requires Fee(s, side, n, at, basis).Ok?
    ensures 0.0 < n && s.Effective(s.PricingDate(at))
    ensures side == SELL ==> basis.Some? && 0.0 < basis.value && Fee(s, side, n, at, basis).value == SellCost(s, n, basis.value)
    ensures side == BUY ==> Fee(s, side, n, at, basis).value == BuyCost(s, n)
  {
  }

  /** Fees are never negative and never fall when the order or its basis grows. */
  lemma {:induction false} CostsGrow(s: Schedule, n0: real, n1: real, basis0: real, basis1: real)
    requires s.Valid() && 0.0 < n0 <= n1 && 0.0 <= basis0 <= basis1
    ensures 0.0 <= BuyCost(s, n0) <= BuyCost(s, n1)
    ensures 0.0 <= SellCost(s, n0, basis0) <= SellCost(s, n1, basis1)
  {
    LeviedBounds(s, n0, n1 - n0);
    ChargesGrow(Levied(s, n0), Levied(s, n1), s.gstRate, n0, n1, s.stampRate);
    ChargesGrow(Levied(s, n0), Levied(s, n1), s.gstRate, (n0 + basis0) / 2.0, (n1 + basis1) / 2.0, s.sttRate);
  }

  lemma {:induction false} ChargesGrow(l0: real, l1: real, gst: real, n0: real, n1: real, rate: real)
    requires 0.0 <= l0 <= l1 && 0.0 <= n0 <= n1 && 0.0 <= gst && 0.0 <= rate
    ensures 0.0 <= l0 + l0 * gst + n0 * rate <= l1 + l1 * gst + n1 * rate
  {
    MulMono(l0, l1, gst);
    MulNonNegative(l0, gst);
    MulMono(n0, n1, rate);
    MulNonNegative(n0, rate);
  }

  /** Splitting an order never makes it cheaper: the brokerage cap makes the tariff subadditive. */
  lemma {:induction false} SplittingNeverSaves(s: Schedule, n0: real, n1: real, basis0: real, basis1: real)
    requires s.Valid() && 0.0 < n0 && 0.0 < n1 && 0.0 <= basis0 && 0.0 <= basis1
    ensures BuyCost(s, n0 + n1) <= BuyCost(s, n0) + BuyCost(s, n1)
    ensures SellCost(s, n0 + n1, basis0 + basis1) <= SellCost(s, n0, basis0) + SellCost(s, n1, basis1)
  {
    hide Levied, Schedule.BrokerageSlope;
    LeviedBounds(s, n0, n1);
    ChargesSplit(Levied(s, n0 + n1), Levied(s, n0), Levied(s, n1), s.gstRate, n0, n1, s.stampRate);
    ChargesSplit(Levied(s, n0 + n1), Levied(s, n0), Levied(s, n1), s.gstRate,
                 (n0 + basis0) / 2.0, (n1 + basis1) / 2.0, s.sttRate);
    assert (n0 + n1 + (basis0 + basis1)) / 2.0 == (n0 + basis0) / 2.0 + (n1 + basis1) / 2.0;
  }

  lemma {:induction false} ChargesSplit(l: real, l0: real, l1: real, gst: real, n0: real, n1: real, rate: real)
    requires l <= l0 + l1 && 0.0 <= gst
    ensures l + l * gst + (n0 + n1) * rate <= l0 + l0 * gst + n0 * rate + (l1 + l1 * gst + n1 * rate)
  {
    MulMono(l, l0 + l1, gst);
    MulAdd(l0, l1, gst);
    MulAdd(n0, n1, rate);
  }

  // ----- when a larger sale leaves more cash -----

  /** A larger sale leaves at least as much cash. */
  predicate LeavesMore(s: Schedule, n0: real, n1: real, basis: real) {
    n0 - SellCost(s, n0, basis) <= n1 - SellCost(s, n1, basis)
  }

  /** If a small sale costs at most its amount, a larger sale leaves at least as much cash. */
  lemma {:induction false} ProceedsGrow(s: Schedule, n0: real, n1: real, basis: real)
    requires s.Valid() && s.Slope() <= 1.0
    requires 0.0 < n0 <= n1
    ensures LeavesMore(s, n0, n1, basis)
  {
    hide Levied, Schedule.BrokerageSlope;
    var d := n1 - n0;
    LeviedBounds(s, n0, d);
    var rate := s.BrokerageSlope() + s.exchangeRate + s.ipftRate + s.sebiRate;
    MarginalStep(d, rate, s.gstRate, s.sttRate, Levied(s, n1) - Levied(s, n0));
    MulSub(Levied(s, n1), Levied(s, n0), s.gstRate);
    MulAdd((n0 + basis) / 2.0, d / 2.0, s.sttRate);
    assert (n1 + basis) / 2.0 == (n0 + basis) / 2.0 + d / 2.0;
  }

  lemma {:induction false} MarginalStep(d: real, rate: real, gst: real, stt: real, step: real)
    requires 0.0 <= d && 0.0 <= gst && step <= d * rate
    requires rate * (1.0 + gst) + stt / 2.0 <= 1.0
    ensures step + step * gst + d / 2.0 * stt <= d
  {
    MulMono(step, d * rate, 1.0 + gst);
    MulMono(rate * (1.0 + gst) + stt / 2.0, 1.0, d);
    assert (d * rate) * (1.0 + gst) == d * (rate * (1.0 + gst));
    assert d / 2.0 * stt == d * (stt / 2.0);
    MulAdd(rate * (1.0 + gst), stt / 2.0, d);
  }

  /** An amount the brokerage cap does not bind, or any amount if the cap is zero. */
  predicate Uncapped(s: Schedule, n: real) { 0.0 < n && (s.brokerageCap > 0.0 ==> n <= s.brokerageCap) }

  /** Below the cap a sale's cost is a line of the tariff's slope. */
  lemma {:induction false} CostIsLine(s: Schedule, n: real, basis: real)
    requires s.Valid() && Uncapped(s, n)
    ensures SellCost(s, n, basis) == n * s.Slope() + basis / 2.0 * s.sttRate
  {
    var b, rate := s.BrokerageSlope(), s.BrokerageSlope() + s.exchangeRate + s.ipftRate + s.sebiRate;
    BrokerageIsLine(s, n);
    hide Schedule.BrokerageSlope;
    assert n * rate == n * b + n * s.exchangeRate + n * s.ipftRate + n * s.sebiRate;
    assert Levied(s, n) == n * rate;
    hide Levied;
    LineSum(n, rate, s.gstRate, s.sttRate, basis);
  }

  lemma {:induction false} BrokerageIsLine(s: Schedule, n: real)
    requires s.Valid() && Uncapped(s, n)
    ensures Min(s.brokerageCap, n * s.brokerageRate) == n * s.BrokerageSlope()
  {
    MulNonNegative(n, s.brokerageRate);
    if s.brokerageCap > 0.0 {
      MulMono(s.brokerageRate, 1.0, n);
      Commute(n, s.brokerageRate);
      assert n * s.brokerageRate <= n;
    } else {
      assert s.BrokerageSlope() == 0.0 && n * 0.0 == 0.0;
    }
  }

  lemma {:induction false} LineSum(n: real, rate: real, gst: real, stt: real, basis: real)
    ensures n * rate + n * rate * gst + (n + basis) / 2.0 * stt == n * (rate * (1.0 + gst) + stt / 2.0) + basis / 2.0 * stt
  {
    Regroup(n, rate, gst);
    assert rate * (1.0 + gst) == rate + rate * gst;
    assert n * (rate + rate * gst + stt / 2.0) == n * rate + n * (rate * gst) + n * (stt / 2.0);
    MulAdd(n / 2.0, basis / 2.0, stt);
    assert n / 2.0 * stt == n * (stt / 2.0);
  }

  /** Below the cap a steep tariff takes more than the whole difference. */
  lemma {:induction false} SteepTariffTakesMore(s: Schedule, n0: real, n1: real, basis: real)
    requires s.Valid() && s.Slope() > 1.0 && Uncapped(s, n0) && Uncapped(s, n1) && n0 < n1
    ensures !LeavesMore(s, n0, n1, basis)
  {
    CostIsLine(s, n0, basis);
    CostIsLine(s, n1, basis);
    hide SellCost, Schedule.Slope, Schedule.Valid;
    MulSub(n1, n0, s.Slope());
    Commute(n1 - n0, s.Slope());
    MulPositive(s.Slope() - 1.0, n1 - n0);
    MulSub(s.Slope(), 1.0, n1 - n0);
  }

  /** Larger sales always leave at least as much cash exactly when the tariff's slope is at most one. */
  lemma {:induction false} ProceedsGrowExactly(s: Schedule, basis: real)
    requires s.Valid()
    ensures (forall n0, n1 :: 0.0 < n0 <= n1 ==> LeavesMore(s, n0, n1, basis)) <==> s.Slope() <= 1.0
  {
    hide LeavesMore, SellCost, Schedule.Slope;
    if s.Slope() <= 1.0 {
      forall n0, n1 | 0.0 < n0 <= n1 ensures LeavesMore(s, n0, n1, basis) { ProceedsGrow(s, n0, n1, basis); }
    } else {
      var n1 := if s.brokerageCap > 0.0 then s.brokerageCap else 1.0;
      SteepTariffTakesMore(s, n1 / 2.0, n1, basis);
    }
  }

  /** With every rate at one, selling twice as much leaves less cash. */
  lemma {:induction false} SteepTariffLosesOnLargerSale()
    ensures
      var s := Schedule(0, 1, None, 1.0, 1000.0, 1.0, 1.0, 1.0, 1.0, 1.0, 1.0);
      s.Valid() && s.Slope() > 1.0 && !LeavesMore(s, 1.0, 2.0, 1.0)
  {
  }

  /** Without transaction tax, and with a slope of at most one, a sale never costs more than it brings. */
  lemma {:induction false} SalePaysForItself(s: Schedule, n: real, basis: real)
    requires s.Valid() && s.Slope() <= 1.0 && s.sttRate == 0.0 && 0.0 < n
    ensures SellCost(s, n, basis) <= n
  {
    hide Levied, Schedule.BrokerageSlope;
    LeviedAtMost(s, n);
    var rate := s.BrokerageSlope() + s.exchangeRate + s.ipftRate + s.sebiRate;
    MarginalStep(n, rate, s.gstRate, s.sttRate, Levied(s, n));
  }

  lemma {:induction false} LeviedAtMost(s: Schedule, n: real)
    requires s.Valid() && 0.0 < n
    ensures Levied(s, n) <= n * (s.BrokerageSlope() + s.exchangeRate + s.ipftRate + s.sebiRate)
  {
    var b := s.BrokerageSlope();
    MulNonNegative(n, s.brokerageRate);
    assert Min(s.brokerageCap, n * s.brokerageRate) <= n * b;
    assert n * (b + s.exchangeRate + s.ipftRate + s.sebiRate) == n * b + n * s.exchangeRate + n * s.ipftRate + n * s.sebiRate;
  }

  /** The largest order any settings admit. */
  const MAX_ORDER := 10000.0

  /** Even the largest order costs at least its own amount to buy. */
  predicate Prohibitive(s: Schedule) { BuyCost(s, MAX_ORDER) >= MAX_ORDER }

  /** Then so does every smaller one: the brokerage cap favours large orders. */
  lemma {:induction false} ProhibitiveThroughout(s: Schedule, n: real)
    requires s.Valid() && Prohibitive(s) && 0.0 < n <= MAX_ORDER
    ensures BuyCost(s, n) >= n
  {
    LeviedShare(s, n, MAX_ORDER);
    hide Levied;
    CostShare(Levied(s, n), Levied(s, MAX_ORDER), s.gstRate, s.stampRate, n, MAX_ORDER);
  }

  lemma {:induction false} LeviedShare(s: Schedule, n: real, m: real)
    requires s.Valid() && 0.0 < n <= m
    ensures Levied(s, n) * m >= Levied(s, m) * n
  {
    BrokerageShare(s.brokerageCap, s.brokerageRate, n, m);
    SharesAdd(Min(s.brokerageCap, n * s.brokerageRate), Min(s.brokerageCap, m * s.brokerageRate),
              s.exchangeRate, s.ipftRate, s.sebiRate, n, m);
  }

  lemma {:induction false} SharesAdd(x: real, y: real, e: real, i: real, b: real, n: real, m: real)
    requires x * m >= y * n
    ensures (x + n * e + n * i + n * b) * m >= (y + m * e + m * i + m * b) * n
  {
    Swap(n, e, m);
    Swap(n, i, m);
    Swap(n, b, m);
  }

  lemma {:induction false} Swap(n: real, rate: real, m: real)
    ensures n * rate * m == m * rate * n
  {
  }

  /** If the charges of m are at least m, and those of n are no smaller a share, they are at least n. */
  lemma {:induction false} CostShare(x: real, y: real, gst: real, stamp: real, n: real, m: real)
    requires 0.0 < n <= m && 0.0 <= gst && x * m >= y * n && y + y * gst + m * stamp >= m
    ensures x + x * gst + n * stamp >= n
  {
    var a, b := x + x * gst + n * stamp, y + y * gst + m * stamp;
    MulMono(y * n, x * m, 1.0 + gst);
    assert a * m == x * m * (1.0 + gst) + n * stamp * m;
    assert b * n == y * n * (1.0 + gst) + m * stamp * n;
    Swap(n, stamp, m);
    MulMono(m, b, n);
    assert a * m >= m * n;
    Commute(m, n);
    if a < n { MulPositive(n - a, m); MulSub(n, a, m); }
  }

  lemma {:induction false} BrokerageShare(cap: real, rate: real, n: real, m: real)
    requires 0.0 <= cap && 0.0 <= rate && 0.0 < n <= m
    ensures Min(cap, n * rate) * m >= Min(cap, m * rate) * n
  {
    if n * rate <= cap {
      MulMono(Min(cap, m * rate), m * rate, n);
      assert m * rate * n == n * rate * m;
    } else {
      MulMono(Min(cap, m * rate), cap, n);
      MulMono(n, m, cap);
    }
  }
}
