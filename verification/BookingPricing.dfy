/**
  What a booking costs, how discounts and credits reduce it, what is stored per leg, and how the
  preview groups it. Amounts are exact reals. Rates are not negative and a promotion never raises
  a price; both come from services that are not part of this model.
 */
module BookingPricing {
  import opened Foundations
  import opened Sorting

  const MINIMUM_PAYABLE_SUBTOTAL: real := 1.0
  const MAX_LEGS_FOR_FUEL_UPGRADE: nat := 2
  const PRICE_TOLERANCE: real := 0.01

  datatype Rates = Rates(securityDetail: real, customerFeePercent: real, vatPercent: real, commissionPercent: real)
  {
    predicate Valid() { securityDetail >= 0.0 && customerFeePercent >= 0.0 && vatPercent >= 0.0 && commissionPercent >= 0.0 }
  }

  datatype Promotion = Promotion(id: nat, name: Option<string>, discountPercent: real)

  datatype Car = Car(pricingIncludesFuel: bool, fuelUpgradeRate: Option<real>)

  datatype LegPrice = LegPrice(price: real, base: real, promotion: Option<Promotion>)
  {
    /** Without a promotion the base price is charged; with one, no more than it. */
    predicate Valid() { 0.0 <= price <= base && (promotion.None? ==> price == base) }
  }

  datatype Interval = Interval(start: int, end: int)

  datatype Financials = Financials(
    legPrices: seq<LegPrice>,
    netTotal: real,
    compareAtNetTotal: real,
    securityDetailCost: real,
    fuelUpgradeCost: real,
    customerFee: real,
    subtotalBeforeDiscounts: real,
    referralDiscount: real,
    creditsUsed: real,
    subtotalAfterDiscounts: real,
    vat: real,
    total: real,
    commission: real,
    fleetOwnerPayout: real)

  datatype Request = Request(
    includeSecurityDetail: bool,
    requiresFullTank: bool,
    referralDiscount: real,
    creditsToUse: real,
    creditsBalance: real)

  function Max(a: real, b: real): real { if a < b then b else a }

  function Min(a: real, b: real): real { if b < a then b else a }

  function Percent(amount: real, percent: real): real { amount * percent / 100.0 }

  function PriceOf(): LegPrice -> real { (leg: LegPrice) => leg.price }

  function BaseOf(): LegPrice -> real { (leg: LegPrice) => leg.base }

  /** `calculateLegPrices`: one rate for every leg, and the best promotion of each, where there is one. */
  function LegPrices(rate: real, promotions: seq<Option<(Promotion, real)>>): seq<LegPrice>
  {
    seq(|promotions|, i requires 0 <= i < |promotions| =>
      if promotions[i].None? then LegPrice(rate, rate, None)
      else LegPrice(promotions[i].value.1, rate, Some(promotions[i].value.0)))
  }

  function FuelUpgradeCost(car: Car, requiresFullTank: bool, legs: nat): real
  {
    if !car.pricingIncludesFuel && requiresFullTank && 0 < legs <= MAX_LEGS_FOR_FUEL_UPGRADE
       && car.fuelUpgradeRate.Some? && car.fuelUpgradeRate.value > 0.0
    then car.fuelUpgradeRate.value else 0.0
  }

  /** `applyDiscount`. */
  function EffectiveDiscount(discount: real, available: real): real
  {
    if discount <= 0.0 then 0.0 else Min(discount, Max(0.0, available - MINIMUM_PAYABLE_SUBTOTAL))
  }

  /** `calculateEffectiveCredits`. */
  function EffectiveCredits(creditsToUse: real, balance: real, remaining: real): real
  {
    if creditsToUse <= 0.0 || balance <= 0.0 then 0.0
    else Min(Min(creditsToUse, balance), Max(0.0, remaining - MINIMUM_PAYABLE_SUBTOTAL))
  }

  /** `calculateBookingCost`. */
  function BookingCost(legPrices: seq<LegPrice>, rates: Rates, car: Car, request: Request): Financials
  {
    var net := Sum(legPrices, PriceOf());
    var security := if request.includeSecurityDetail then rates.securityDetail * |legPrices| as real else 0.0;
    var fuel := FuelUpgradeCost(car, request.requiresFullTank, |legPrices|);
    var fee := Percent(net + fuel, rates.customerFeePercent);
    var before := net + security + fuel + fee;
    var referral := EffectiveDiscount(request.referralDiscount, before);
    var credits := EffectiveCredits(request.creditsToUse, request.creditsBalance, before - referral);
    var after := before - referral - credits;
    var vat := Percent(after, rates.vatPercent);
    var commission := Percent(net, rates.commissionPercent);
    Financials(legPrices, net, Sum(legPrices, BaseOf()), security, fuel, fee, before, referral, credits, after,
               vat, after + vat, commission, net + security - commission)
  }

  predicate LegPricesValid(legPrices: seq<LegPrice>)
  {
    forall i :: 0 <= i < |legPrices| ==> legPrices[i].Valid()
  }

  /** The money adds up, and no discount or credit takes the last unit a payment needs. */
  lemma MoneyAddsUp(legPrices: seq<LegPrice>, rates: Rates, car: Car, request: Request)
    ensures var f := BookingCost(legPrices, rates, car, request);
      && f.subtotalAfterDiscounts + f.referralDiscount + f.creditsUsed
         == f.netTotal + f.securityDetailCost + f.fuelUpgradeCost + f.customerFee
      && f.fleetOwnerPayout + f.commission == f.netTotal + f.securityDetailCost
      && (f.subtotalBeforeDiscounts >= 1.0 ==> f.subtotalAfterDiscounts >= 1.0)
      && (f.subtotalBeforeDiscounts < 1.0 ==> f.subtotalAfterDiscounts == f.subtotalBeforeDiscounts)
  {}

  /** Credits are never more than was asked for, nor than there are; both reductions are the largest the floor allows. */
  lemma ReductionsAreCappedAndGreedy(legPrices: seq<LegPrice>, rates: Rates, car: Car, request: Request)
    ensures var f := BookingCost(legPrices, rates, car, request);
      && 0.0 <= f.referralDiscount <= Max(0.0, request.referralDiscount)
      && 0.0 <= f.creditsUsed <= Max(0.0, request.creditsToUse)
      && f.creditsUsed <= Max(0.0, request.creditsBalance)
      && (f.subtotalAfterDiscounts > 1.0 ==>
            f.referralDiscount == Max(0.0, request.referralDiscount)
            && f.creditsUsed == Min(Max(0.0, request.creditsToUse), Max(0.0, request.creditsBalance)))
  {}

  /** The fee is charged on net and fuel, the commission on net alone, VAT on what is left to pay. */
  lemma ChargesArePercentages(legPrices: seq<LegPrice>, rates: Rates, car: Car, request: Request)
    ensures var f := BookingCost(legPrices, rates, car, request);
      && f.customerFee == Percent(f.netTotal + f.fuelUpgradeCost, rates.customerFeePercent)
      && f.commission == Percent(f.netTotal, rates.commissionPercent)
      && f.vat == Percent(f.subtotalAfterDiscounts, rates.vatPercent)
      && f.total == f.subtotalAfterDiscounts + f.vat && f.legPrices == legPrices
  {}

  /** So many in every hundred. */
  lemma PercentIsOfAHundred(amount: real, percent: real)
    ensures 100.0 * Percent(amount, percent) == percent * amount
  {}

  /** No leg costs nothing, and each further leg adds its price, its base price and, where asked for, one security rate. */
  lemma EachLegAdds(legPrices: seq<LegPrice>, leg: LegPrice, rates: Rates, car: Car, request: Request)
    ensures var none := BookingCost([], rates, car, request);
      none.netTotal == 0.0 && none.compareAtNetTotal == 0.0 && none.securityDetailCost == 0.0
    ensures var f := BookingCost(legPrices, rates, car, request);
      var f' := BookingCost(legPrices + [leg], rates, car, request);
      && f'.netTotal == f.netTotal + leg.price && f'.compareAtNetTotal == f.compareAtNetTotal + leg.base
      && f'.securityDetailCost == f.securityDetailCost + (if request.includeSecurityDetail then rates.securityDetail else 0.0)
  {
    SumAppend(legPrices, leg, PriceOf());
    SumAppend(legPrices, leg, BaseOf());
    assert rates.securityDetail * (|legPrices| + 1) as real == rates.securityDetail * |legPrices| as real + rates.securityDetail;
  }

  /** Fuel is charged at its rate for one or two legs of a car that comes without it and is to be returned full, and never otherwise. */
  lemma FuelIsChargedIff(legPrices: seq<LegPrice>, rates: Rates, car: Car, request: Request, rate: real)
    requires rate > 0.0
    ensures var f := BookingCost(legPrices, rates, car, request);
      && (f.fuelUpgradeCost == rate <==>
            !car.pricingIncludesFuel && request.requiresFullTank && car.fuelUpgradeRate == Some(rate) && (|legPrices| == 1 || |legPrices| == 2))
      && f.fuelUpgradeCost >= 0.0
  {}

  /** The promotion that is found is kept with its price; without one the rate is charged, and the base is the rate in any case. */
  lemma LegPricesAre(rate: real, promotions: seq<Option<(Promotion, real)>>)
    requires rate >= 0.0 && forall p :: Some(p) in promotions ==> 0.0 <= p.1 <= rate
    ensures LegPricesValid(LegPrices(rate, promotions))
    ensures forall leg :: leg in LegPrices(rate, promotions) ==> leg.base == rate
    ensures |LegPrices(rate, promotions)| == |promotions|
    ensures forall i :: 0 <= i < |promotions| && promotions[i].Some? ==>
      var leg := LegPrices(rate, promotions)[i];
      leg.promotion == Some(promotions[i].value.0) && leg.price == promotions[i].value.1
  {
    forall i | 0 <= i < |promotions| && promotions[i].Some? ensures 0.0 <= promotions[i].value.1 <= rate {
      assert Some(promotions[i].value) in promotions;
    }
  }

  // ----- what is stored per leg

  datatype StoredLeg = StoredLeg(dailyPrice: real, net: real, commission: real, earning: real)

  datatype CreationError = InvalidPrice | PriceChanged(current: Financials) | NoLegs | LegMismatch

  /** `buildBookingLegsData`. */
  function StoredLegs(legs: nat, f: Financials): Result<seq<StoredLeg>, CreationError>
  {
    if legs != |f.legPrices| then Err(LegMismatch)
    else
      var n := legs as real;
      Ok(seq(legs, i requires 0 <= i < legs => StoredLeg(
        f.legPrices[i].price, f.netTotal / n, f.commission / n, f.netTotal / n - f.commission / n)))
  }

  lemma {:induction false} SumOfEqual<T>(s: seq<T>, weight: T -> real, x: real)
    requires forall i :: 0 <= i < |s| ==> weight(s[i]) == x
    ensures Sum(s, weight) == |s| as real * x
  {
    if s != [] {
      SumOfEqual(s[..|s| - 1], weight, x);
      assert |s| as real * x == (|s| - 1) as real * x + x;
    }
  }

  lemma {:induction false} SumOfMapped<S, T>(s: seq<S>, t: seq<T>, v: S -> real, w: T -> real)
    requires |s| == |t| && forall i :: 0 <= i < |s| ==> v(s[i]) == w(t[i])
    ensures Sum(s, v) == Sum(t, w)
  {
    if s != [] { SumOfMapped(s[..|s| - 1], t[..|t| - 1], v, w); }
  }

  lemma Shares(x: real, n: nat)
    requires n > 0
    ensures n as real * (x / n as real) == x
  {}

  /** The per-leg shares sum back to the net total, the commission and the payout less security. */
  lemma SharesSumBack(legPrices: seq<LegPrice>, rates: Rates, car: Car, request: Request)
    requires |legPrices| > 0
    ensures var f := BookingCost(legPrices, rates, car, request);
      StoredLegs(|legPrices|, f).Ok? &&
      var stored := StoredLegs(|legPrices|, f).value;
      && Sum(stored, (l: StoredLeg) => l.dailyPrice) == f.netTotal
      && Sum(stored, (l: StoredLeg) => l.net) == f.netTotal
      && Sum(stored, (l: StoredLeg) => l.commission) == f.commission
      && Sum(stored, (l: StoredLeg) => l.earning) == f.fleetOwnerPayout - f.securityDetailCost
  {
    var f := BookingCost(legPrices, rates, car, request);
    var stored := StoredLegs(|legPrices|, f).value;
    var n := |legPrices|;
    SumOfMapped(stored, legPrices, (l: StoredLeg) => l.dailyPrice, PriceOf());
    SumOfEqual(stored, (l: StoredLeg) => l.net, f.netTotal / n as real);
    SumOfEqual(stored, (l: StoredLeg) => l.commission, f.commission / n as real);
    SumOfEqual(stored, (l: StoredLeg) => l.earning, f.netTotal / n as real - f.commission / n as real);
    Shares(f.netTotal, n);
    Shares(f.commission, n);
    assert n as real * (f.netTotal / n as real - f.commission / n as real)
        == n as real * (f.netTotal / n as real) - n as real * (f.commission / n as real);
  }

  // ----- the accepted price

  /** `validateExpectedPrice`. */
  predicate AcceptsPrice(expected: real, total: real)
  {
    -PRICE_TOLERANCE <= expected - total <= PRICE_TOLERANCE
  }

  /** What one calculation of a booking's price starts from. */
  datatype Quote = Quote(legPrices: seq<LegPrice>, rates: Rates, car: Car, request: Request)
  {
    function Cost(): Financials { BookingCost(legPrices, rates, car, request) }

    function CostWithoutReductions(): Financials
    {
      BookingCost(legPrices, rates, car, request.(referralDiscount := 0.0, creditsBalance := 0.0))
    }
  }

  /** The first calculation leaves reductions out, and stands when there turn out to be none. */
  lemma BaseCostStandsWithoutReductions(q: Quote)
    ensures q.CostWithoutReductions().referralDiscount == q.CostWithoutReductions().creditsUsed == 0.0
    ensures q.CostWithoutReductions().subtotalBeforeDiscounts == q.Cost().subtotalBeforeDiscounts
    ensures q.request.referralDiscount <= 0.0 && q.request.creditsBalance <= 0.0 ==> q.CostWithoutReductions() == q.Cost()
  {}

  /** What is stored of a booking's price; `referralDiscount` is the one its customer is entitled to. */
  datatype StoredBooking = StoredBooking(
    total: real,
    netTotal: real,
    securityDetailCost: real,
    fuelUpgradeCost: real,
    customerFee: real,
    subtotalBeforeVat: real,
    vatPercent: real,
    vat: real,
    commission: real,
    fleetOwnerPayout: real,
    referralDiscount: real,
    creditsUsed: real,
    creditsReserved: real,
    legs: seq<StoredLeg>)
  {
    /** The total as it follows from the other stored figures. */
    function Explained(): real
    {
      var subtotal := netTotal + securityDetailCost + fuelUpgradeCost + customerFee - referralDiscount - creditsUsed;
      subtotal + Percent(subtotal, vatPercent)
    }
  }

  /** `buildBookingData`. */
  function BookingData(legs: nat, f: Financials, vatPercent: real, entitled: real): Result<StoredBooking, CreationError>
  {
    if |f.legPrices| == 0 then Err(NoLegs)
    else
      var stored := StoredLegs(legs, f);
      if stored.Err? then Err(stored.error)
      else Ok(StoredBooking(f.total, f.netTotal, f.securityDetailCost, f.fuelUpgradeCost, f.customerFee, f.subtotalAfterDiscounts,
                            vatPercent, f.vat, f.commission, f.fleetOwnerPayout, entitled, f.creditsUsed, f.creditsUsed, stored.value))
  }

  /** The per-leg figures of a stored booking add up to its own. */
  ghost predicate LegsAddUp(b: StoredBooking)
  {
    && Sum(b.legs, (l: StoredLeg) => l.dailyPrice) == b.netTotal
    && Sum(b.legs, (l: StoredLeg) => l.net) == b.netTotal
    && Sum(b.legs, (l: StoredLeg) => l.commission) == b.commission
    && Sum(b.legs, (l: StoredLeg) => l.earning) == b.fleetOwnerPayout - b.securityDetailCost
  }

  /**
    The stored total follows from the other stored figures if and only if the floor left room for the
    discount: the booking stores the discount its customer is entitled to, not the one it was given.
   */
  lemma StoredTotalIsExplainedIff(q: Quote, legs: nat)
    requires q.rates.Valid() && q.request.referralDiscount >= 0.0
    requires BookingData(legs, q.Cost(), q.rates.vatPercent, q.request.referralDiscount).Ok?
    ensures var b := BookingData(legs, q.Cost(), q.rates.vatPercent, q.request.referralDiscount).value;
      b.total == b.Explained() <==>
        q.request.referralDiscount == 0.0 || q.request.referralDiscount + 1.0 <= q.Cost().subtotalBeforeDiscounts
  {
    var f := q.Cost();
    var lost := q.request.referralDiscount - f.referralDiscount;
    var b := BookingData(legs, f, q.rates.vatPercent, q.request.referralDiscount).value;
    assert f.subtotalAfterDiscounts - lost
        == b.netTotal + b.securityDetailCost + b.fuelUpgradeCost + b.customerFee - b.referralDiscount - b.creditsUsed;
    PercentIsMonotone(f.subtotalAfterDiscounts - lost, lost, q.rates.vatPercent);
  }

  /** A discount of the whole price: the customer pays the floor, and the stored figures say nothing is left to pay. */
  lemma DiscountOfWholePriceIsNotExplained()
    ensures var q := Quote([LegPrice(100.0, 100.0, None)], Rates(0.0, 0.0, 0.0, 0.0), Car(true, None), Request(false, false, 100.0, 0.0, 0.0));
      BookingData(1, q.Cost(), 0.0, 100.0).Ok? && BookingData(1, q.Cost(), 0.0, 100.0).value.total == 1.0
      && BookingData(1, q.Cost(), 0.0, 100.0).value.Explained() == 0.0
  {
    var legs := [LegPrice(100.0, 100.0, None)];
    SumAppend([], legs[0], PriceOf());
    assert [] + [legs[0]] == legs;
  }

  lemma PercentIsMonotone(x: real, d: real, percent: real)
    requires percent >= 0.0 && d >= 0.0
    ensures x + Percent(x, percent) == x + d + Percent(x + d, percent) <==> d == 0.0
  {
    assert Percent(x + d, percent) == Percent(x, percent) + Percent(d, percent);
  }

  /**
    The price side of `createBooking`: the price is checked on a first calculation and again, on what
    the transaction reads, before the booking is stored. A booking is stored exactly when the accepted
    price is within a hundredth of both calculations; its total is the second one, and its figures
    and those of its legs add up.
   */
  method CreatePricedBooking(expected: Option<real>, legs: nat, preliminary: Quote, verified: Quote)
    returns (result: Result<StoredBooking, CreationError>)
    requires legs == |verified.legPrices|
    ensures result.Ok? <==>
      expected.Some? && legs > 0 && Abs(expected.value - preliminary.Cost().total) <= 0.01 && Abs(expected.value - verified.Cost().total) <= 0.01
    ensures result == Err(InvalidPrice) <==> expected.None?
    ensures result.Err? && result.error.PriceChanged? ==> expected.Some? && Abs(expected.value - result.error.current.total) > 0.01
    ensures result.Err? && result.error.NoLegs? ==> legs == 0
    ensures result.Ok? ==>
      var b := result.value;
      && b.total == verified.Cost().total == b.subtotalBeforeVat + b.vat
      && b.netTotal == Sum(verified.legPrices, PriceOf()) && b.vatPercent == verified.rates.vatPercent
      && b.commission == Percent(b.netTotal, verified.rates.commissionPercent)
      && b.customerFee == Percent(b.netTotal + b.fuelUpgradeCost, verified.rates.customerFeePercent)
      && b.referralDiscount == verified.request.referralDiscount
      && b.fleetOwnerPayout + b.commission == b.netTotal + b.securityDetailCost
      && b.creditsReserved == b.creditsUsed <= Max(0.0, verified.request.creditsBalance)
      && |b.legs| == legs && LegsAddUp(b)
      && Abs(b.total - preliminary.Cost().total) <= 0.02
  {
    var financials := preliminary.CostWithoutReductions();
    if preliminary.request.referralDiscount > 0.0 || preliminary.request.creditsBalance > 0.0 {
      financials := preliminary.Cost();
    } else {
      BaseCostStandsWithoutReductions(preliminary);
    }
    if expected.None? {
      return Err(InvalidPrice);
    }
    if !AcceptsPrice(expected.value, financials.total) {
      return Err(PriceChanged(financials));
    }
    var recalculated := verified.Cost();
    if !AcceptsPrice(expected.value, recalculated.total) {
      return Err(PriceChanged(recalculated));
    }
    if legs > 0 {
      SharesSumBack(verified.legPrices, verified.rates, verified.car, verified.request);
    }
    result := BookingData(legs, recalculated, verified.rates.vatPercent, verified.request.referralDiscount);
  }

  // ----- loops of the calculation

  method GetBookingWindow(legs: seq<Interval>) returns (window: Interval)
    requires |legs| > 0
    ensures forall i :: 0 <= i < |legs| ==> window.start <= legs[i].start && legs[i].end <= window.end
    ensures exists i :: 0 <= i < |legs| && legs[i].start == window.start
    ensures exists i :: 0 <= i < |legs| && legs[i].end == window.end
  {
    var start, end := legs[0].start, legs[0].end;
    for i := 0 to |legs|
      invariant forall k :: 0 <= k < i ==> start <= legs[k].start && legs[k].end <= end
      invariant exists k :: 0 <= k < |legs| && legs[k].start == start
      invariant exists k :: 0 <= k < |legs| && legs[k].end == end
    {
      if legs[i].start < start { start := legs[i].start; }
      if legs[i].end > end { end := legs[i].end; }
    }
    window := Interval(start, end);
  }

  predicate Applied(leg: LegPrice, overlapping: seq<Promotion>)
  {
    leg.promotion.Some? && exists k :: 0 <= k < |overlapping| && overlapping[k].id == leg.promotion.value.id
  }

  method Find(overlapping: seq<Promotion>, id: nat) returns (found: Option<Promotion>)
    ensures found.None? <==> forall k :: 0 <= k < |overlapping| ==> overlapping[k].id != id
    ensures found.Some? ==> found.value.id == id && found.value in overlapping
  {
    for k := 0 to |overlapping|
      invariant forall j :: 0 <= j < k ==> overlapping[j].id != id
    {
      if overlapping[k].id == id { return Some(overlapping[k]); }
    }
    found := None;
  }

  /** `firstPromotion`: the promotion of the first leg whose promotion is among the overlapping ones. */
  method FirstPromotion(legPrices: seq<LegPrice>, overlapping: seq<Promotion>) returns (first: Option<Promotion>)
    ensures first.None? <==> forall i :: 0 <= i < |legPrices| ==> !Applied(legPrices[i], overlapping)
    ensures first.Some? ==>
      first.value in overlapping && exists i ::
        && 0 <= i < |legPrices| && Applied(legPrices[i], overlapping) && legPrices[i].promotion.value.id == first.value.id
        && forall j :: 0 <= j < i ==> !Applied(legPrices[j], overlapping)
  {
    for i := 0 to |legPrices|
      invariant forall j :: 0 <= j < i ==> !Applied(legPrices[j], overlapping)
    {
      if legPrices[i].promotion.Some? {
        var found := Find(overlapping, legPrices[i].promotion.value.id);
        if found.Some? {
          assert Applied(legPrices[i], overlapping);
          return found;
        }
      }
    }
    first := None;
  }
}
