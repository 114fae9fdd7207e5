/**
  The pricing preview: legs grouped into segments of one price, promotions first, and what the
  customer saves against the undiscounted price.
 */
module BookingPreview {
  import opened Foundations
  import opened Sorting
  import opened BookingPricing

  /** What puts two legs in one segment. */
  datatype Key = Promo(id: nat, base: real, price: real) | Standard(base: real)

  /** `promotion` is the record its details and label are taken from. */
  datatype Segment = Segment(
    key: Key,
    units: nat,
    unitPrice: real,
    total: real,
    compareAtUnitPrice: Option<real>,
    promotion: Option<Promotion>)

  /** How the platform trims a name and writes a percentage. */
  datatype Texts = Texts(trim: string -> string, percentOff: real -> string)

  /** A promotion without a name is labelled by its percentage; a blank name leaves the label blank. */
  function Label(s: Segment, texts: Texts): Option<string>
  {
    if s.promotion.None? then None
    else if s.promotion.value.name.Some? then Some(texts.trim(s.promotion.value.name.value))
    else Some(texts.percentOff(s.promotion.value.discountPercent))
  }

  datatype Coverage = NoCoverage | PartialCoverage | FullCoverage

  function KeyOf(leg: LegPrice): Key
  {
    if leg.promotion.Some? then Promo(leg.promotion.value.id, leg.base, leg.price) else Standard(leg.base)
  }

  function UnitPrice(key: Key): real { if key.Promo? then key.price else key.base }

  /** The keys in the order in which they first appear. */
  function Keys(legs: seq<LegPrice>): seq<Key>
  {
    if legs == [] then []
    else
      var front := Keys(legs[..|legs| - 1]);
      var key := KeyOf(legs[|legs| - 1]);
      if key in front then front else front + [key]
  }

  function Units(legs: seq<LegPrice>, key: Key): nat
  {
    if legs == [] then 0
    else (if KeyOf(legs[|legs| - 1]) == key then 1 else 0) + Units(legs[..|legs| - 1], key)
  }

  /** What the legs of one key cost together. */
  function Total(legs: seq<LegPrice>, key: Key): real
  {
    if legs == [] then 0.0
    else (if KeyOf(legs[|legs| - 1]) == key then legs[|legs| - 1].price else 0.0) + Total(legs[..|legs| - 1], key)
  }

  /** The promotion of the first leg of a key. */
  function PromotionOf(legs: seq<LegPrice>, key: Key): Option<Promotion>
  {
    if legs == [] then None
    else if Units(legs[..|legs| - 1], key) > 0 then PromotionOf(legs[..|legs| - 1], key)
    else if KeyOf(legs[|legs| - 1]) == key then legs[|legs| - 1].promotion
    else None
  }

  function SegmentFor(legs: seq<LegPrice>, key: Key): Segment
  {
    Segment(key, Units(legs, key), UnitPrice(key), Total(legs, key),
            if key.Promo? then Some(key.base) else None, PromotionOf(legs, key))
  }

  /** A promotional segment, and no other, carries a promotion and a label: those of the first leg in it. */
  lemma {:induction false} SegmentsNameTheirPromotion(legs: seq<LegPrice>, key: Key, i: nat, texts: Texts)
    requires i < |legs| && KeyOf(legs[i]) == key && forall j :: 0 <= j < i ==> KeyOf(legs[j]) != key
    ensures PromotionOf(legs, key) == legs[i].promotion
    ensures key.Promo? <==> Label(SegmentFor(legs, key), texts).Some?
    ensures key.Promo? ==> SegmentFor(legs, key).promotion.Some? && SegmentFor(legs, key).promotion.value.id == key.id
  {
    var front := legs[..|legs| - 1];
    if i < |front| {
      SegmentsNameTheirPromotion(front, key, i, texts);
      HasUnits(front, key, i);
    } else {
      NoUnits(front, key);
    }
  }

  lemma {:induction false} HasUnits(legs: seq<LegPrice>, key: Key, i: nat)
    requires i < |legs| && KeyOf(legs[i]) == key
    ensures Units(legs, key) > 0
  {
    if i < |legs| - 1 { HasUnits(legs[..|legs| - 1], key, i); }
  }

  lemma {:induction false} NoUnits(legs: seq<LegPrice>, key: Key)
    requires forall j :: 0 <= j < |legs| ==> KeyOf(legs[j]) != key
    ensures Units(legs, key) == 0
  {
    if legs != [] { NoUnits(legs[..|legs| - 1], key); }
  }

  /** The segments before they are put in order: one per key, in the order of first appearance. */
  function SegmentsFor(legs: seq<LegPrice>): seq<Segment>
  {
    var keys := Keys(legs);
    seq(|keys|, i requires 0 <= i < |keys| => SegmentFor(legs, keys[i]))
  }

  /** Promotions before standard prices. */
  predicate PromoFirst(a: Segment, b: Segment) { a.key.Promo? || b.key.Standard? }

  function Preview(legs: seq<LegPrice>): seq<Segment>
  {
    StableSort(SegmentsFor(legs), (a, b) => PromoFirst(a, b))
  }

  ghost predicate Distinct(keys: seq<Key>)
  {
    forall i, j :: 0 <= i < j < |keys| ==> keys[i] != keys[j]
  }

  lemma {:induction false} KeysAreDistinct(legs: seq<LegPrice>)
    ensures Distinct(Keys(legs))
    ensures forall key :: key in Keys(legs) <==> Units(legs, key) > 0
  {
    if legs != [] {
      KeysAreDistinct(legs[..|legs| - 1]);
    }
  }

  lemma OneMoreOfKey(legs: seq<LegPrice>, leg: LegPrice, key: Key)
    ensures Units(legs + [leg], key) == Units(legs, key) + (if key == KeyOf(leg) then 1 else 0)
    ensures Total(legs + [leg], key) == Total(legs, key) + (if key == KeyOf(leg) then leg.price else 0.0)
    ensures PromotionOf(legs + [leg], key) ==
      if Units(legs, key) > 0 then PromotionOf(legs, key) else if key == KeyOf(leg) then leg.promotion else None
  {
    assert (legs + [leg])[..|legs|] == legs;
  }

  lemma OtherSegmentsStay(legs: seq<LegPrice>, leg: LegPrice, key: Key)
    requires key != KeyOf(leg)
    ensures SegmentFor(legs + [leg], key) == SegmentFor(legs, key)
  {
    OneMoreOfKey(legs, leg, key);
  }

  lemma OneMoreKey(legs: seq<LegPrice>, leg: LegPrice)
    ensures Keys(legs + [leg]) == if KeyOf(leg) in Keys(legs) then Keys(legs) else Keys(legs) + [KeyOf(leg)]
  {
    assert (legs + [leg])[..|legs|] == legs;
  }

  /** The map holds exactly the segments of these legs. */
  ghost predicate Agrees(grouped: map<Key, Segment>, legs: seq<LegPrice>)
  {
    && (forall key :: key in grouped <==> key in Keys(legs))
    && (forall key :: key in grouped ==> grouped[key] == SegmentFor(legs, key))
  }

  lemma AgreesWithOneMore(grouped: map<Key, Segment>, legs: seq<LegPrice>, leg: LegPrice, segment: Segment)
    requires Agrees(grouped, legs) && leg.Valid()
    requires segment ==
      if KeyOf(leg) in grouped
      then grouped[KeyOf(leg)].(units := grouped[KeyOf(leg)].units + 1, total := grouped[KeyOf(leg)].total + leg.price)
      else Segment(KeyOf(leg), 1, leg.price, leg.price, if leg.promotion.Some? then Some(leg.base) else None, leg.promotion)
    ensures Agrees(grouped[KeyOf(leg) := segment], legs + [leg])
  {
    var key := KeyOf(leg);
    OneMoreKey(legs, leg);
    OneMoreOfKey(legs, leg, key);
    KeysAreDistinct(legs);
    NoUnitsNoTotal(legs, key);
    forall k | k != key ensures SegmentFor(legs + [leg], k) == SegmentFor(legs, k) { OtherSegmentsStay(legs, leg, k); }
  }

  /**
    `buildSegments`: a map from keys to segments, filled leg by leg and kept in insertion order, and
    then sorted, promotions first.
   */
  method BuildSegments(legs: seq<LegPrice>) returns (segments: seq<Segment>)
    requires LegPricesValid(legs)
    ensures segments == Preview(legs)
  {
    var grouped: map<Key, Segment> := map[];
    var order: seq<Key> := [];
    for i := 0 to |legs|
      invariant order == Keys(legs[..i]) && Agrees(grouped, legs[..i])
    {
      var leg := legs[i];
      var key := KeyOf(leg);
      assert legs[..i + 1] == legs[..i] + [leg];
      OneMoreKey(legs[..i], leg);
      var segment;
      if key in grouped {
        var existing := grouped[key];
        segment := existing.(units := existing.units + 1, total := existing.total + leg.price);
      } else {
        segment := Segment(key, 1, leg.price, leg.price, if leg.promotion.Some? then Some(leg.base) else None, leg.promotion);
        order := order + [key];
      }
      AgreesWithOneMore(grouped, legs[..i], leg, segment);
      grouped := grouped[key := segment];
    }
    assert legs[..|legs|] == legs;
    segments := seq(|order|, i requires 0 <= i < |order| => grouped[order[i]]);
    assert segments == SegmentsFor(legs);
    segments := StableSort(segments, (a, b) => PromoFirst(a, b));
  }

  // ----- the segments account for every leg

  function UnitsOf(): Segment -> real { (s: Segment) => s.units as real }

  function TotalOf(): Segment -> real { (s: Segment) => s.total }

  lemma {:induction false} SumPrepend<T>(x: T, s: seq<T>, weight: T -> real)
    ensures Sum([x] + s, weight) == weight(x) + Sum(s, weight)
  {
    if s == [] {
      assert [x] + s == [] + [x];
      SumAppend([], x, weight);
    } else {
      assert ([x] + s)[..|s|] == [x] + s[..|s| - 1];
      SumPrepend(x, s[..|s| - 1], weight);
    }
  }

  lemma {:induction false} SumInsert<T>(x: T, s: seq<T>, leq: (T, T) -> bool, weight: T -> real)
    ensures Sum(Insert(x, s, leq), weight) == weight(x) + Sum(s, weight)
  {
    if s == [] || leq(x, s[0]) {
      SumPrepend(x, s, weight);
    } else {
      SumInsert(x, s[1..], leq, weight);
      SumPrepend(s[0], Insert(x, s[1..], leq), weight);
      SumPrepend(s[0], s[1..], weight);
      assert [s[0]] + s[1..] == s;
    }
  }

  lemma {:induction false} SumSorted<T>(s: seq<T>, leq: (T, T) -> bool, weight: T -> real)
    ensures Sum(StableSort(s, leq), weight) == Sum(s, weight)
  {
    if s != [] {
      SumSorted(s[1..], leq, weight);
      SumInsert(s[0], StableSort(s[1..], leq), leq, weight);
      SumPrepend(s[0], s[1..], weight);
      assert [s[0]] + s[1..] == s;
    }
  }

  /** Raising the weight of one of several distinct keys raises the sum by as much. */
  lemma {:induction false} SumRaised(keys: seq<Key>, key: Key, low: Key -> real, high: Key -> real)
    requires Distinct(keys)
    requires forall i :: 0 <= i < |keys| && keys[i] != key ==> high(keys[i]) == low(keys[i])
    ensures Sum(keys, high) == Sum(keys, low) + (if key in keys then high(key) - low(key) else 0.0)
  {
    if keys != [] {
      SumRaised(keys[..|keys| - 1], key, low, high);
      assert keys == keys[..|keys| - 1] + [keys[|keys| - 1]];
    }
  }

  function UnitWeight(legs: seq<LegPrice>): Key -> real { (key: Key) => Units(legs, key) as real }

  function TotalWeight(legs: seq<LegPrice>): Key -> real { (key: Key) => Total(legs, key) }

  /** If each new leg adds its share to the weight of its own key, the weights of all keys add up to all the shares. */
  lemma AccountForOneMore(legs: seq<LegPrice>, leg: LegPrice, low: Key -> real, high: Key -> real, share: real)
    requires forall key :: key != KeyOf(leg) ==> high(key) == low(key)
    requires high(KeyOf(leg)) == low(KeyOf(leg)) + share
    requires KeyOf(leg) !in Keys(legs) ==> low(KeyOf(leg)) == 0.0
    ensures Sum(Keys(legs + [leg]), high) == Sum(Keys(legs), low) + share
  {
    KeysAreDistinct(legs);
    OneMoreKey(legs, leg);
    SumRaised(Keys(legs), KeyOf(leg), low, high);
    if KeyOf(leg) !in Keys(legs) { SumAppend(Keys(legs), KeyOf(leg), high); }
  }

  lemma {:induction false} KeysAccountForLegs(legs: seq<LegPrice>)
    ensures Sum(Keys(legs), UnitWeight(legs)) == |legs| as real
    ensures Sum(Keys(legs), TotalWeight(legs)) == Sum(legs, PriceOf())
  {
    if legs != [] {
      var front := legs[..|legs| - 1];
      var leg := legs[|legs| - 1];
      assert legs == front + [leg];
      KeysAccountForLegs(front);
      KeysAreDistinct(front);
      UnitsSplit(front, leg);
      AccountForOneMore(front, leg, UnitWeight(front), UnitWeight(legs), 1.0);
      AccountForOneMore(front, leg, TotalWeight(front), TotalWeight(legs), leg.price);
    }
  }

  lemma UnitsSplit(front: seq<LegPrice>, leg: LegPrice)
    ensures forall key :: Units(front + [leg], key) == Units(front, key) + (if key == KeyOf(leg) then 1 else 0)
    ensures forall key :: Total(front + [leg], key) == Total(front, key) + (if key == KeyOf(leg) then leg.price else 0.0)
    ensures KeyOf(leg) !in Keys(front) ==> Total(front, KeyOf(leg)) == 0.0
  {
    assert (front + [leg])[..|front|] == front;
    KeysAreDistinct(front);
    NoUnitsNoTotal(front, KeyOf(leg));
  }

  lemma {:induction false} NoUnitsNoTotal(legs: seq<LegPrice>, key: Key)
    ensures Units(legs, key) == 0 ==> Total(legs, key) == 0.0
  {
    if legs != [] { NoUnitsNoTotal(legs[..|legs| - 1], key); }
  }

  /** Adding up the same price. */
  function Times(units: nat, price: real): real { if units == 0 then 0.0 else Times(units - 1, price) + price }

  lemma Distributes(x: real, price: real)
    ensures (x + 1.0) * price == x * price + price
  {}

  lemma {:induction false} TimesIsProduct(units: nat, price: real)
    ensures Times(units, price) == units as real * price
  {
    if units > 0 {
      TimesIsProduct(units - 1, price);
      Distributes((units - 1) as real, price);
    }
  }

  /** A segment's total is its units times its unit price: all its legs cost the same. */
  lemma {:induction false} TotalIsUnitsTimesPrice(legs: seq<LegPrice>, key: Key)
    requires LegPricesValid(legs)
    ensures Total(legs, key) == Times(Units(legs, key), UnitPrice(key))
  {
    if legs != [] {
      TotalIsUnitsTimesPrice(legs[..|legs| - 1], key);
      assert legs[|legs| - 1].Valid();
    }
  }

  /** The segments' units add up to the number of legs and their totals to the net total. */
  lemma SegmentsSumToNet(legs: seq<LegPrice>)
    ensures Sum(Preview(legs), UnitsOf()) == |legs| as real
    ensures Sum(Preview(legs), TotalOf()) == Sum(legs, PriceOf())
  {
    KeysAccountForLegs(legs);
    SumOfMapped(SegmentsFor(legs), Keys(legs), UnitsOf(), UnitWeight(legs));
    SumOfMapped(SegmentsFor(legs), Keys(legs), TotalOf(), TotalWeight(legs));
    SumSorted(SegmentsFor(legs), (a, b) => PromoFirst(a, b), UnitsOf());
    SumSorted(SegmentsFor(legs), (a, b) => PromoFirst(a, b), TotalOf());
  }

  /** One segment for each price that occurs, promotions before standard prices, each kind in order of first appearance. */
  lemma PreviewIsGroupedAndOrdered(legs: seq<LegPrice>, kind: Segment)
    ensures var preview := Preview(legs);
      && |preview| == |Keys(legs)|
      && (forall s :: s in preview <==> s in SegmentsFor(legs))
      && (forall i, j :: 0 <= i < j < |preview| ==> preview[i].key.Promo? || preview[j].key.Standard?)
      && Filter(preview, s => Tied((a, b) => PromoFirst(a, b), kind, s))
         == Filter(SegmentsFor(legs), s => Tied((a, b) => PromoFirst(a, b), kind, s))
  {
    var leq := (a, b) => PromoFirst(a, b);
    SortSorts(SegmentsFor(legs), leq);
    SortIsPermutation(SegmentsFor(legs), leq);
    SortIsStable(SegmentsFor(legs), leq, kind);
    forall s ensures s in Preview(legs) <==> s in SegmentsFor(legs) { SameElements(SegmentsFor(legs), leq, s); }
  }

  // ----- coverage and savings

  function Discounted(legs: seq<LegPrice>): nat
  {
    if legs == [] then 0 else (if legs[|legs| - 1].promotion.Some? then 1 else 0) + Discounted(legs[..|legs| - 1])
  }

  function CoverageOf(legs: seq<LegPrice>): Coverage
  {
    if |legs| == 0 || Discounted(legs) == 0 then NoCoverage
    else if Discounted(legs) == |legs| then FullCoverage
    else PartialCoverage
  }

  lemma {:induction false} DiscountedBounds(legs: seq<LegPrice>)
    ensures Discounted(legs) <= |legs|
    ensures Discounted(legs) == 0 <==> forall i :: 0 <= i < |legs| ==> legs[i].promotion.None?
    ensures Discounted(legs) == |legs| <==> forall i :: 0 <= i < |legs| ==> legs[i].promotion.Some?
  {
    if legs != [] {
      DiscountedBounds(legs[..|legs| - 1]);
      var last := |legs| - 1;
      assert forall i :: 0 <= i < last ==> legs[..last][i] == legs[i];
    }
  }

  /** Full coverage means every leg of a booking is discounted, none means none is, partial means some are and some are not. */
  lemma CoverageMeans(legs: seq<LegPrice>)
    ensures CoverageOf(legs).FullCoverage? <==> |legs| > 0 && forall i :: 0 <= i < |legs| ==> legs[i].promotion.Some?
    ensures CoverageOf(legs).NoCoverage? <==> forall i :: 0 <= i < |legs| ==> legs[i].promotion.None?
    ensures CoverageOf(legs).PartialCoverage? <==>
      && (exists i :: 0 <= i < |legs| && legs[i].promotion.Some?)
      && (exists i :: 0 <= i < |legs| && legs[i].promotion.None?)
  {
    DiscountedBounds(legs);
  }

  /** The total without promotions, discounts or credits. */
  function CompareAtTotal(f: Financials, rates: Rates): real
  {
    var fee := Percent(f.compareAtNetTotal + f.fuelUpgradeCost, rates.customerFeePercent);
    var subtotal := f.compareAtNetTotal + f.securityDetailCost + f.fuelUpgradeCost + fee;
    subtotal + Percent(subtotal, rates.vatPercent)
  }

  function Savings(f: Financials, rates: Rates): real { Max(0.0, CompareAtTotal(f, rates) - f.total) }

  lemma PercentIsMonotone(a: real, b: real, p: real)
    requires a <= b && p >= 0.0
    ensures Percent(a, p) <= Percent(b, p)
  {
    assert (b - a) * p >= 0.0;
  }

  /** The price shown for comparison is never below the price charged, so the saving shown is their exact difference. */
  lemma SavingsAreExact(legPrices: seq<LegPrice>, rates: Rates, car: Car, request: Request)
    requires LegPricesValid(legPrices) && rates.Valid()
    ensures var f := BookingCost(legPrices, rates, car, request);
      && CompareAtTotal(f, rates) >= f.total
      && f.total + Savings(f, rates) == CompareAtTotal(f, rates)
  {
    var f := BookingCost(legPrices, rates, car, request);
    SumMonotone(legPrices, PriceOf(), BaseOf());
    PercentIsMonotone(f.netTotal + f.fuelUpgradeCost, f.compareAtNetTotal + f.fuelUpgradeCost, rates.customerFeePercent);
    var fee := Percent(f.compareAtNetTotal + f.fuelUpgradeCost, rates.customerFeePercent);
    var subtotal := f.compareAtNetTotal + f.securityDetailCost + f.fuelUpgradeCost + fee;
    assert f.subtotalAfterDiscounts <= f.subtotalBeforeDiscounts <= subtotal;
    PercentIsMonotone(f.subtotalAfterDiscounts, subtotal, rates.vatPercent);
  }
}
