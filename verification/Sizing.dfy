/** The paper simulator's position sizer (phase1417/paper.py): a downward search under the tariff. */
module Sizing {
  import opened Wrappers
  import opened RealFacts
  import opened Costs
  import opened Executor

  datatype Risk = Risk(
    reviewedEvidence: Option<string>, capital: Option<real>, riskPerTrade: Option<real>, dailyLoss: Option<real>,
    simultaneousPositions: Option<int>, symbolExposure: Option<real>, portfolioExposure: Option<real>,
    maxQuantity: Option<int>, correlationReviewed: bool)
  {
    predicate Missing(x: Option<real>) { x.None? || x.value == 0.0 }

    /** A limit that is absent or zero is a gap in the policy. */
    predicate HasGaps() {
      reviewedEvidence.None? || reviewedEvidence.value == "" || Missing(capital) || Missing(riskPerTrade)
      || Missing(dailyLoss) || simultaneousPositions.None? || Missing(symbolExposure)
      || Missing(portfolioExposure) || maxQuantity.None? || !correlationReviewed
    }

    ghost predicate Valid() {
      && (capital.Some? ==> 0.0 <= capital.value)
      && (riskPerTrade.Some? ==> 0.0 <= riskPerTrade.value)
      && (dailyLoss.Some? ==> 0.0 <= dailyLoss.value)
      && (symbolExposure.Some? ==> 0.0 <= symbolExposure.value)
      && (portfolioExposure.Some? ==> 0.0 <= portfolioExposure.value)
      && (simultaneousPositions.Some? ==> 1 <= simultaneousPositions.value)
      && (maxQuantity.Some? ==> 1 <= maxQuantity.value)
    }
  }

  /** One sizing question. */
  datatype Order = Order(
    risk: Risk, settings: Settings, costs: Schedule, price: real, cash: real, volume: int, stop: real)
  {
    ghost predicate Valid() {
      && risk.Valid() && settings.Valid() && costs.Valid() && 0.0 < stop < 1.0 && 0 <= volume
    }

    predicate Answerable() { !risk.HasGaps() && 0.0 < price && 0.0 < cash }

    function Slip(): real { settings.slippageBps / 10000.0 }

    function Buy(q: int): real { price * q as real }

    /** What a share keeps of its price when sold at the stop, and when sold after slippage. */
    function AtStop(): real { 1.0 - stop }

    function AfterSlip(): real { 1.0 - Slip() }

    function Kept(): real { Portion(AtStop(), AfterSlip()) }

    /** Value left if the position is sold at the stop, after slippage. */
    function StopValue(q: int): real { Portion(Buy(q), Kept()) }

    function Outlay(q: int): real { Buy(q) + BuyCost(costs, Buy(q)) }

    /** Loss planned for if the stop is hit, with both legs' fees. */
    function Planned(q: int): real {
      Buy(q) - StopValue(q) + BuyCost(costs, Buy(q)) + SellCost(costs, StopValue(q), Buy(q))
    }

    /** Money at risk, and money exposed, per share; and the shares the observed volume allows. */
    function RiskUnit(): real { price * stop }

    function ExposureUnit(): real { price * settings.priceBuffer }

    function Shares(): real { volume as real * settings.participation }

    function Ceiling(): real
      requires !risk.HasGaps()
    {
      Min(Min(risk.symbolExposure.value, risk.portfolioExposure.value), settings.orderCeiling)
    }

    /** A quantity that every limit allows: order size, policy size, exposure after the price buffer,
        participation in the observed volume, cash, and planned risk. */
    predicate Feasible(q: int)
      requires !risk.HasGaps()
    {
      && 1 <= q <= settings.quantity && q <= risk.maxQuantity.value
      && Buy(q) * settings.priceBuffer <= Ceiling()
      && q as real <= Shares()
      && Outlay(q) <= cash
      && Planned(q) <= risk.riskPerTrade.value
    }
  }

  lemma {:induction false} KeptBounds(o: Order)
    requires o.Valid()
    ensures 0.0 < o.Kept() <= 1.0 - o.stop < 1.0
  {
    LeftBounds(o);
    hide Order.AtStop, Order.AfterSlip, Order.Valid, Portion;
    PortionBounds(o.AtStop(), o.AfterSlip());
  }

  lemma {:induction false} LeftBounds(o: Order)
    requires o.Valid()
    ensures 0.0 < o.AtStop() == 1.0 - o.stop < 1.0
    ensures 0.0 < o.AfterSlip() <= 1.0
  {
    hide Schedule.Valid, Risk.Valid;
  }

  lemma {:induction false} AmountsGrow(o: Order, p: int, q: int)
    requires o.Valid() && 0.0 < o.price && 1 <= p <= q
    ensures 0.0 < o.Buy(p) <= o.Buy(q)
    ensures 0.0 < o.StopValue(p) <= o.StopValue(q) <= o.Buy(q)
    ensures o.Buy(p) - o.StopValue(p) <= o.Buy(q) - o.StopValue(q)
  {
    hide Order.Buy, Order.Kept, Order.Valid, Portion;
    KeptBounds(o);
    BuyGrows(o, p, q);
    PortionBounds(o.Buy(p), o.Kept());
    PortionBounds(o.Buy(q), o.Kept());
    PortionOrder(o.Buy(p), o.Buy(q), o.Kept());
  }

  lemma {:induction false} BuyGrows(o: Order, p: int, q: int)
    requires 0.0 < o.price && 1 <= p <= q
    ensures 0.0 < o.Buy(p) <= o.Buy(q)
  {
    MulPositive(o.price, p as real);
    MulMono(p as real, q as real, o.price);
    Commute(o.price, p as real);
    Commute(o.price, q as real);
  }

  /** Outlay and planned loss never fall with the quantity. */
  lemma {:induction false} BurdensGrow(o: Order, p: int, q: int)
    requires o.Valid() && 0.0 < o.price && 1 <= p <= q
    ensures o.Outlay(p) <= o.Outlay(q) && o.Planned(p) <= o.Planned(q)
    ensures o.Buy(p) <= o.Outlay(p) && o.Buy(p) - o.StopValue(p) <= o.Planned(p)
  {
    AmountsGrow(o, p, q);
    CostsGrow(o.costs, o.Buy(p), o.Buy(q), o.Buy(p), o.Buy(q));
    CostsGrow(o.costs, o.StopValue(p), o.StopValue(q), o.Buy(p), o.Buy(q));
  }

  /** The feasible quantities are downward closed: whatever a larger order is allowed, a smaller one is. */
  lemma {:induction false} FeasibleDownwardClosed(o: Order, p: int, q: int)
    requires o.Valid() && o.Answerable() && 1 <= p <= q && o.Feasible(q)
    ensures o.Feasible(p)
  {
    hide BuyCost, SellCost, Levied;
    AmountsGrow(o, p, q);
    BurdensGrow(o, p, q);
    MulMono(o.Buy(p), o.Buy(q), o.settings.priceBuffer);
  }

  /** Whole units of a positive price that an amount covers. */
  function Units(amount: real, unit: real): int {
    Ratio(amount, unit).Floor
  }

  lemma {:induction false} UnitsExact(q: int, amount: real, unit: real)
    requires 0.0 < unit
    ensures q <= Units(amount, unit) <==> q as real * unit <= amount
  {
    var x := amount / unit;
    Quotient(amount, unit);
    assert q <= x.Floor <==> q as real <= x;
    if q as real <= x { MulMono(q as real, x, unit); } else { Above(q as real, x, unit); }
  }

  lemma {:induction false} Above(a: real, b: real, unit: real)
    requires b < a && 0.0 < unit
    ensures b * unit < a * unit
  {
    MulPositive(a - b, unit);
    MulSub(a, b, unit);
  }

  function LeastOf(a: int, b: int): int { if a <= b then a else b }

  /** The cheap bounds from which the search starts. */
  function Start(o: Order): int
    requires !o.risk.HasGaps()
  {
    LeastOf(LeastOf(LeastOf(o.settings.quantity, o.risk.maxQuantity.value),
                    LeastOf(Units(o.risk.riskPerTrade.value, o.RiskUnit()),
                            Units(o.Ceiling(), o.ExposureUnit()))),
            LeastOf(o.Shares().Floor, Units(o.cash, o.price)))
  }

  /** What being within each starting bound means for a quantity. */
  lemma {:induction false} StartExact(o: Order, q: int)
    requires o.Valid() && o.Answerable()
    ensures q <= Start(o) <==>
      && q <= o.settings.quantity && q <= o.risk.maxQuantity.value
      && q as real * o.RiskUnit() <= o.risk.riskPerTrade.value
      && q as real * o.ExposureUnit() <= o.Ceiling()
      && q as real <= o.Shares()
      && q as real * o.price <= o.cash
  {
    hide Units, LeastOf, Order.Ceiling, Order.RiskUnit, Order.ExposureUnit, Order.Shares;
    UnitsPositive(o);
    UnitsExact(q, o.risk.riskPerTrade.value, o.RiskUnit());
    UnitsExact(q, o.Ceiling(), o.ExposureUnit());
    UnitsExact(q, o.cash, o.price);
    FloorExact(q, o.Shares());
    LeastExact(q, o.settings.quantity, o.risk.maxQuantity.value,
               Units(o.risk.riskPerTrade.value, o.RiskUnit()), Units(o.Ceiling(), o.ExposureUnit()),
               o.Shares().Floor, Units(o.cash, o.price));
  }

  lemma {:induction false} UnitsPositive(o: Order)
    requires o.Valid() && 0.0 < o.price
    ensures 0.0 < o.RiskUnit() && 0.0 < o.ExposureUnit()
  {
    MulPositive(o.price, o.stop);
    MulPositive(o.price, o.settings.priceBuffer);
  }

  lemma {:induction false} FloorExact(q: int, x: real)
    ensures q <= x.Floor <==> q as real <= x
  {
  }

  lemma {:induction false} LeastExact(q: int, a: int, b: int, c: int, d: int, e: int, f: int)
    ensures q <= LeastOf(LeastOf(LeastOf(a, b), LeastOf(c, d)), LeastOf(e, f)) <==>
            q <= a && q <= b && q <= c && q <= d && q <= e && q <= f
  {
  }

  lemma {:induction false} Reassociate(a: real, b: real, c: real)
    ensures a * (b * c) == (b * a) * c
  {
  }

  /** Feasible quantities meet every starting bound: even those the search does not test again. */
  lemma {:induction false} StartCoversFeasible(o: Order, q: int)
    requires o.Valid() && o.Answerable() && o.Feasible(q)
    ensures q <= Start(o)
  {
    hide BuyCost, SellCost, Levied, Start;
    StartExact(o, q);
    BurdensGrow(o, q, q);
    PlannedCoversStop(o, q);
    Reassociate(q as real, o.price, o.stop);
    Reassociate(q as real, o.price, o.settings.priceBuffer);
  }

  /** The planned loss is at least the fall from entry to stop. */
  lemma {:induction false} PlannedCoversStop(o: Order, q: int)
    requires o.Valid() && 0.0 < o.price && 1 <= q
    ensures o.Buy(q) * o.stop <= o.Planned(q)
  {
    hide Order.Buy, Order.Kept, Order.Valid, Order.Planned, Order.StopValue;
    AmountsGrow(o, q, q);
    BurdensGrow(o, q, q);
    StopFall(o, q);
  }

  lemma {:induction false} StopFall(o: Order, q: int)
    requires o.Valid() && 0.0 < o.price && 1 <= q
    ensures o.Buy(q) * o.stop <= o.Buy(q) - o.StopValue(q)
  {
    hide Order.Buy, Order.Kept, Order.Valid;
    AmountsGrow(o, q, q);
    KeptBounds(o);
    ShareRest(o.Buy(q), o.Kept(), o.stop);
  }

  /** Two shares that together do not exceed the whole. */
  lemma {:induction false} ShareRest(amount: real, share: real, other: real)
    requires 0.0 <= amount && 0.0 <= share && 0.0 <= other && share + other <= 1.0
    ensures amount * other <= amount - Portion(amount, share)
  {
    MulMono(share + other, 1.0, amount);
    MulAdd(share, other, amount);
  }

  /** Up to the start, feasibility is decided by the two limits the search tests. */
  lemma {:induction false} TestsDecide(o: Order, q: int)
    requires o.Valid() && o.Answerable() && 1 <= q <= Start(o)
    ensures o.Feasible(q) <==> o.Outlay(q) <= o.cash && o.Planned(q) <= o.risk.riskPerTrade.value
  {
    hide BuyCost, SellCost, Levied, Start;
    StartExact(o, q);
    Reassociate(q as real, o.price, o.settings.priceBuffer);
  }

  /** The sizer: zero on a policy gap, a non-positive price or no cash; otherwise the greatest feasible
      quantity, or zero if there is none. It fails only when it has to quote outside the tariff. */
  method Size(o: Order, at: int) returns (result: Result<int>)
    requires o.Valid()
    ensures !o.Answerable() ==> result == Ok(0)
    ensures result.Err? <==> o.Answerable() && 0 < Start(o) && !o.costs.Effective(o.costs.PricingDate(at))
    ensures o.Answerable() && result.Ok? ==>
      && 0 <= result.value
      && (result.value > 0 ==> o.Feasible(result.value))
      && (forall q :: q > result.value ==> !o.Feasible(q))
  {
    hide BuyCost, SellCost, Levied, Start, Fee, Order.Feasible;
    if o.risk.HasGaps() || o.price <= 0.0 || o.cash <= 0.0 { return Ok(0); }
    var quantity := Start(o);
    forall q | q > quantity ensures !o.Feasible(q) {
      if o.Feasible(q) { StartCoversFeasible(o, q); }
    }
    while quantity > 0
      invariant quantity <= Start(o)
      invariant quantity < Start(o) ==> o.costs.Effective(o.costs.PricingDate(at))
      invariant forall q :: q > quantity ==> !o.Feasible(q)
      decreases quantity
    {
      AmountsGrow(o, quantity, quantity);
      TestsDecide(o, quantity);
      var buy, stopValue := o.Buy(quantity), o.StopValue(quantity);
      QuoteSucceedsExactlyWhenEffective(o.costs, BUY, buy, at, buy);
      QuoteSucceedsExactlyWhenEffective(o.costs, SELL, stopValue, at, buy);
      var bought := Fee(o.costs, BUY, buy, at, None);
      if bought.Err? { return Err(bought.error); }
      FeeOf(o.costs, BUY, buy, at, None);
      var sold := Fee(o.costs, SELL, stopValue, at, Some(buy));
      FeeOf(o.costs, SELL, stopValue, at, Some(buy));
      if buy + bought.value <= o.cash && buy - stopValue + bought.value + sold.value <= o.risk.riskPerTrade.value {
        return Ok(quantity);
      }
      quantity := quantity - 1;
    }
    result := Ok(0);
  }

  // ----- the size as a function -----

  function GreatestUpTo(o: Order, q: int): (r: int)
    requires !o.risk.HasGaps()
    decreases if q > 0 then q else 0
  {
    if q <= 0 then 0 else if o.Feasible(q) then q else GreatestUpTo(o, q - 1)
  }

  /** The greatest feasible quantity, or zero. */
  function Sized(o: Order): int {
    if !o.Answerable() then 0 else GreatestUpTo(o, Start(o))
  }

  lemma {:induction false} GreatestUpToIs(o: Order, q: int)
    requires !o.risk.HasGaps()
    ensures
      var r := GreatestUpTo(o, q);
      0 <= r && (r > 0 ==> o.Feasible(r)) && forall k :: r < k <= q ==> !o.Feasible(k)
    decreases if q > 0 then q else 0
  {
    hide Order.Outlay, Order.Planned, Order.Ceiling, Order.Shares, Order.Buy;
    if q > 0 && !o.Feasible(q) { GreatestUpToIs(o, q - 1); }
  }

  /** No limit allows more than the size, and all of them allow it. */
  lemma {:induction false} SizedIsGreatest(o: Order)
    requires o.Valid() && o.Answerable()
    ensures 0 <= Sized(o) && (Sized(o) > 0 ==> o.Feasible(Sized(o)))
    ensures forall q :: q > Sized(o) ==> !o.Feasible(q)
  {
    hide Order.Feasible, Start, Order.Valid;
    GreatestUpToIs(o, Start(o));
    forall q | q > Start(o) ensures !o.Feasible(q) {
      if o.Feasible(q) { StartCoversFeasible(o, q); }
    }
  }

  /** A quantity with that property is the size. */
  lemma {:induction false} SizedUnique(o: Order, v: int)
    requires o.Valid() && o.Answerable()
    requires 0 <= v && (v > 0 ==> o.Feasible(v)) && forall q :: q > v ==> !o.Feasible(q)
    ensures v == Sized(o)
  {
    hide Order.Feasible, Sized, Order.Valid;
    SizedIsGreatest(o);
  }

  function AmountAt(o: Order, q: int): real { o.price * q as real }

  /** What a sale of an amount brings at the stop, after slippage. */
  function LeftOf(o: Order, amount: real): real { amount * ((1.0 - o.stop) * (1.0 - o.settings.slippageBps / 10000.0)) }

  /** What every limit of a policy says of a quantity, one by one. */
  predicate WithinLimits(o: Order, q: int)
    requires !o.risk.HasGaps()
  {
    var amount := AmountAt(o, q);
    var left := LeftOf(o, amount);
    var fees := BuyCost(o.costs, amount);
    && 1 <= q <= o.settings.quantity && q <= o.risk.maxQuantity.value
    && amount * o.settings.priceBuffer <= o.risk.symbolExposure.value
    && amount * o.settings.priceBuffer <= o.risk.portfolioExposure.value
    && amount * o.settings.priceBuffer <= o.settings.orderCeiling
    && q as real <= o.volume as real * o.settings.participation
    && amount + fees <= o.cash
    && amount - left + fees + SellCost(o.costs, left, amount) <= o.risk.riskPerTrade.value
  }

  /** The size is the greatest quantity within the order size, the policy's size, both exposures, the order ceiling, the
      observed volume, the cash with the fee, and the risk per trade with both fees and the slippage of the stop. */
  lemma {:induction false} SizedWithinLimits(o: Order, q: int)
    requires o.Valid() && o.Answerable()
    ensures Sized(o) > 0 ==> WithinLimits(o, Sized(o))
    ensures WithinLimits(o, q) ==> q <= Sized(o)
  {
    SizedIsGreatest(o);
    LimitsAreFeasible(o, q);
    LimitsAreFeasible(o, Sized(o));
    hide WithinLimits, Order.Feasible, Sized, Order.Valid;
  }

  lemma {:induction false} LimitsAreFeasible(o: Order, q: int)
    requires !o.risk.HasGaps()
    ensures WithinLimits(o, q) <==> o.Feasible(q)
  {
    hide BuyCost, SellCost, Order.Buy, Order.StopValue, Order.Kept, Order.Planned, Order.Outlay, Order.Ceiling, Order.Shares, Order.Feasible,
         AmountAt, LeftOf;
    var amount := AmountAt(o, q);
    AmountsOf(o, q);
    CeilingIsLeast(o, amount * o.settings.priceBuffer);
    FeasibleParts(o, q, amount);
  }

  lemma {:induction false} StopValueOf(o: Order, q: int)
    ensures o.StopValue(q) == LeftOf(o, AmountAt(o, q))
  {
  }

  lemma {:induction false} AmountsOf(o: Order, q: int)
    ensures
      var amount := AmountAt(o, q);
      var left := LeftOf(o, amount);
      && o.Buy(q) == amount && o.Outlay(q) == amount + BuyCost(o.costs, amount)
      && o.Planned(q) == amount - left + BuyCost(o.costs, amount) + SellCost(o.costs, left, amount)
      && o.Shares() == o.volume as real * o.settings.participation
  {
    hide BuyCost, SellCost, Order.StopValue, LeftOf;
    StopValueOf(o, q);
  }

  lemma {:induction false} FeasibleParts(o: Order, q: int, amount: real)
    requires !o.risk.HasGaps() && o.Buy(q) == amount
    ensures o.Feasible(q) <==>
      && 1 <= q <= o.settings.quantity && q <= o.risk.maxQuantity.value && amount * o.settings.priceBuffer <= o.Ceiling()
      && q as real <= o.Shares() && o.Outlay(q) <= o.cash && o.Planned(q) <= o.risk.riskPerTrade.value
  {
    hide Order.Buy, Order.Planned, Order.Outlay, Order.Ceiling, Order.Shares;
  }

  lemma {:induction false} CeilingIsLeast(o: Order, x: real)
    requires !o.risk.HasGaps()
    ensures x <= o.Ceiling() <==>
      x <= o.risk.symbolExposure.value && x <= o.risk.portfolioExposure.value && x <= o.settings.orderCeiling
  {
  }

  /** A policy without one of its limits, or with a limit of zero, sizes nothing. */
  lemma {:induction false} GapsSizeNothing(o: Order)
    requires
      || o.risk.reviewedEvidence in {None, Some("")} || o.risk.capital in {None, Some(0.0)} || o.risk.riskPerTrade in {None, Some(0.0)}
      || o.risk.dailyLoss in {None, Some(0.0)} || o.risk.simultaneousPositions.None? || o.risk.symbolExposure in {None, Some(0.0)}
      || o.risk.portfolioExposure in {None, Some(0.0)} || o.risk.maxQuantity.None? || !o.risk.correlationReviewed
      || o.price <= 0.0 || o.cash <= 0.0
    ensures Sized(o) == 0
  {
  }
}
