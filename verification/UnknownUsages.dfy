/** Pricing usage of an unknown kind by the average rate of the known usage. */
module UnknownUsages {
  import opened Folding
  import opened LedgerBalance
  import opened LedgerSpec
  import opened Numbers
  import opened Options

  datatype UnknownUsage = UnknownUsage(service: Option<string>, usageUnit: string, cost: Option<real>,
                                       usageAmount: Option<real>) {
    function Measured(basis: Measure): Option<real> {
      match basis
      case Cost => cost
      case UsageAmount => usageAmount
    }
  }

  /** A missing service is looked up under the name that an absent value turns into. */
  const UNDEFINED := "undefined"

  function Apportion(t: Totals, u: UnknownUsage, basis: Measure): Num {
    match (t.Measured(basis), u.Measured(basis))
    case (Some(m), Some(x)) => Finite(t.kilowattHours).Over(m).Times(Finite(x))
    case _ => NonFinite
  }

  function EstimateKilowattHours(u: UnknownUsage, e: Entries, basis: Measure): Num {
    var key := u.service.GetOr(UNDEFINED);
    if key in e && u.usageUnit in e[key] then Apportion(e[key][u.usageUnit], u, basis)
    else if u.usageUnit in e[TOTAL] then Apportion(e[TOTAL][u.usageUnit], u, basis)
    else Finite(0.0)
  }

  /** A region without a factor, or with factor zero, takes the factor of "Unknown". */
  function EmissionsFactor(region: string, factors: map<string, real>): Num {
    if region in factors && factors[region] != 0.0 then Finite(factors[region])
    else if "Unknown" in factors then Finite(factors["Unknown"])
    else NonFinite
  }

  function EstimateCo2(kilowattHours: Num, region: string, factors: map<string, real>): Num {
    kilowattHours.Times(EmissionsFactor(region, factors))
  }

  // ----- What the price depends on -----

  /** Every amount in the ledger was posted with the measure the estimator divides by. */
  ghost predicate AllMeasured(e: Entries, basis: Measure) {
    forall key, unit :: HasUnit(e, key, unit) ==> e[key][unit].Measured(basis).Some?
  }

  lemma PostKeepsMeasured(e: Entries, p: Posting, basis: Measure)
    requires AllMeasured(e, basis)
    ensures AllMeasured(Post(e, p, basis), basis)
  {
    var e' := Post(e, p, basis);
    forall key, unit | HasUnit(e', key, unit)
      ensures e'[key][unit].Measured(basis).Some?
    {
      PostAt(e, p, key, basis);
      assert HasUnit(e, key, unit) ==> e[key][unit].Measured(basis).Some?;
    }
  }

  lemma {:induction false} RunKeepsMeasured(e: Entries, ps: seq<Posting>, basis: Measure)
    requires AllMeasured(e, basis)
    ensures AllMeasured(PostAll(e, ps, basis), basis)
  {
    if ps == [] {
    } else {
      RunKeepsMeasured(e, ps[..|ps| - 1], basis);
      PostKeepsMeasured(PostAll(e, ps[..|ps| - 1], basis), ps[|ps| - 1], basis);
    }
  }

  /** The ledger entry a usage is priced by. */
  function PricingKey(u: UnknownUsage, e: Entries): string {
    if HasUnit(e, u.service.GetOr(UNDEFINED), u.usageUnit) then u.service.GetOr(UNDEFINED) else TOTAL
  }

  function PriceAt(k: real, m: real, x: Option<real>): Num {
    if m != 0.0 && x.Some? then Finite(k / m * x.value) else NonFinite
  }

  lemma PriceByAmounts(u: UnknownUsage, e: Entries, basis: Measure)
    requires AllMeasured(e, basis)
    ensures var key := PricingKey(u, e);
            EstimateKilowattHours(u, e, basis) ==
            if HasUnit(e, key, u.usageUnit)
            then PriceAt(AmountAt(e, key, u.usageUnit, KilowattHours),
                         AmountAt(e, key, u.usageUnit, Measured(basis)), u.Measured(basis))
            else Finite(0.0)
  {
    var key := PricingKey(u, e);
    assert HasUnit(e, key, u.usageUnit) ==> e[key][u.usageUnit].Measured(basis).Some?;
  }

  /** Exactly when an unknown usage gets a number. */
  lemma PriceIsFinite(u: UnknownUsage, e: Entries, basis: Measure)
    requires AllMeasured(e, basis)
    ensures EstimateKilowattHours(u, e, basis).Finite? <==>
            var key := PricingKey(u, e);
            HasUnit(e, key, u.usageUnit) ==>
              AmountAt(e, key, u.usageUnit, Measured(basis)) != 0.0 && u.Measured(basis).Some?
  {
    PriceByAmounts(u, e, basis);
  }

  lemma ScaleBounds(lo: real, r: real, hi: real, x: real)
    requires lo <= r <= hi && x >= 0.0
    ensures lo * x <= r * x <= hi * x
  {}

  /** The usage is given a number, between what one service and another would charge for it. */
  ghost predicate PricedBetween(u: UnknownUsage, e: Entries, basis: Measure, cheapest: string, dearest: string) {
    var unit := u.usageUnit;
    && cheapest in Holders(e, unit) && dearest in Holders(e, unit)
    && PositiveAt(e, cheapest, unit, basis) && PositiveAt(e, dearest, unit, basis)
    && u.Measured(basis).Some?
    && EstimateKilowattHours(u, e, basis).Finite?
    && RateAt(e, cheapest, unit, basis) * u.Measured(basis).value <= EstimateKilowattHours(u, e, basis).value
    && EstimateKilowattHours(u, e, basis).value <= RateAt(e, dearest, unit, basis) * u.Measured(basis).value
  }

  /** The price of a usage without a service of its own lies between what the cheapest and the
      dearest service of its unit would charge for it. */
  lemma PriceIsAMediant(u: UnknownUsage, e: Entries, basis: Measure) returns (cheapest: string, dearest: string)
    requires BalancedAt(e, u.usageUnit) && AllMeasured(e, basis)
    requires PricingKey(u, e) == TOTAL && u.usageUnit in e[TOTAL]
    requires u.Measured(basis).Some? && u.Measured(basis).value >= 0.0
    requires AllPositive(e, Holders(e, u.usageUnit), u.usageUnit, basis)
    ensures PricedBetween(u, e, basis, cheapest, dearest)
  {
    cheapest, dearest := TotalRateIsAMediant(e, u.usageUnit, basis);
    PriceByAmounts(u, e, basis);
    ScaleBounds(RateAt(e, cheapest, u.usageUnit, basis), RateAt(e, TOTAL, u.usageUnit, basis),
                RateAt(e, dearest, u.usageUnit, basis), u.Measured(basis).value);
  }

  // ----- When two prices agree -----

  predicate SameRate(k: real, m: real, k': real, m': real) {
    k * m' == k' * m
  }

  lemma EqualQuotients(k: real, m: real, k': real, m': real)
    requires m != 0.0 && m' != 0.0
    ensures k / m == k' / m' <==> SameRate(k, m, k', m')
  {
    var a, b := k / m, k' / m';
    assert a * m == k && b * m' == k';
    Reorder(a, m, m');
    Reorder(b, m', m);
    if SameRate(k, m, k', m') {
      CancelFactor(a, b, m * m');
    }
  }

  lemma Reorder(a: real, m: real, n: real)
    ensures (a * m) * n == a * (m * n) == a * (n * m)
  {}

  lemma CancelFactor(a: real, b: real, m: real)
    requires m != 0.0 && a * m == b * m
    ensures a == b
  {
    assert (a - b) * m == 0.0;
  }

  lemma EqualProducts(a: real, b: real, x: real)
    ensures a * x == b * x <==> x == 0.0 || a == b
  {
    if a * x == b * x && x != 0.0 {
      CancelFactor(a, b, x);
    }
  }

  /** Prices by two rates, each with a divisor: they agree when neither is a number, when there is
      nothing to price, or when the rates are the same. */
  predicate SameQuotients(k: real, m: real, k': real, m': real, x: Option<real>) {
    if x.None? || m == 0.0 || m' == 0.0 then x.None? || (m == 0.0 && m' == 0.0)
    else x.value == 0.0 || SameRate(k, m, k', m')
  }

  lemma PricesAgree(k: real, m: real, k': real, m': real, x: Option<real>)
    ensures PriceAt(k, m, x) == PriceAt(k', m', x) <==> SameQuotients(k, m, k', m', x)
  {
    if x.Some? && m != 0.0 && m' != 0.0 {
      EqualQuotients(k, m, k', m');
      EqualProducts(k / m, k' / m', x.value);
    }
  }

  /** The price comes to zero, as it does for a unit that the ledger does not have. */
  predicate IsZeroPrice(k: real, m: real, x: Option<real>) {
    m != 0.0 && x.Some? && (k == 0.0 || x.value == 0.0)
  }

  lemma ZeroPrice(k: real, m: real, x: Option<real>)
    ensures PriceAt(k, m, x) == Finite(0.0) <==> IsZeroPrice(k, m, x)
  {
    PricesAgree(k, m, 0.0, 1.0, x);
  }

  /** What is posted to one entry: whether anything is, its kilowatt hours, and its measure. */
  datatype Posted = Posted(any: bool, kilowattHours: real, measured: real)

  function PostedAt(ps: seq<Posting>, key: string, unit: string, basis: Measure): Posted {
    Posted(PostedTo(ps, key, unit), RunSum(ps, key, unit, KilowattHours, basis),
           RunSum(ps, key, unit, Measured(basis), basis))
  }

  function Together(a: Posted, b: Posted): Posted {
    Posted(a.any || b.any, a.kilowattHours + b.kilowattHours, a.measured + b.measured)
  }

  /** The condition for two prices to agree, by what is posted to the entries that they go by. */
  predicate SamePrice(a: Posted, b: Posted, x: Option<real>) {
    if a.any && b.any then SameQuotients(a.kilowattHours, a.measured, b.kilowattHours, b.measured, x)
    else if a.any then IsZeroPrice(a.kilowattHours, a.measured, x)
    else b.any ==> IsZeroPrice(b.kilowattHours, b.measured, x)
  }

  // ----- Prices after a run of postings -----

  function KeyAfter(u: UnknownUsage, ps: seq<Posting>): string {
    if PostedTo(ps, u.service.GetOr(UNDEFINED), u.usageUnit) then u.service.GetOr(UNDEFINED) else TOTAL
  }

  function PriceAfter(u: UnknownUsage, ps: seq<Posting>, basis: Measure): Num {
    EstimateKilowattHours(u, PostAll(EMPTY, ps, basis), basis)
  }

  lemma PriceByPostings(u: UnknownUsage, ps: seq<Posting>, basis: Measure)
    ensures var key, unit := KeyAfter(u, ps), u.usageUnit;
            var posted := PostedAt(ps, key, unit, basis);
            PriceAfter(u, ps, basis) ==
            if posted.any then PriceAt(posted.kilowattHours, posted.measured, u.Measured(basis)) else Finite(0.0)
  {
    var e, key, unit := PostAll(EMPTY, ps, basis), KeyAfter(u, ps), u.usageUnit;
    RunKeepsMeasured(EMPTY, ps, basis);
    UnitsAfterRun(EMPTY, ps, u.service.GetOr(UNDEFINED), unit, basis);
    UnitsAfterRun(EMPTY, ps, key, unit, basis);
    AmountAfterRun(EMPTY, ps, key, unit, KilowattHours, basis);
    AmountAfterRun(EMPTY, ps, key, unit, Measured(basis), basis);
    PriceByAmounts(u, e, basis);
  }

  /** For any two runs and any usages of the same amount: exactly when they are priced the same. */
  lemma PricesAfterRunsAgree(u: UnknownUsage, ps: seq<Posting>, u': UnknownUsage, ps': seq<Posting>, basis: Measure)
    requires u.Measured(basis) == u'.Measured(basis)
    ensures PriceAfter(u, ps, basis) == PriceAfter(u', ps', basis) <==>
              SamePrice(PostedAt(ps, KeyAfter(u, ps), u.usageUnit, basis),
                        PostedAt(ps', KeyAfter(u', ps'), u'.usageUnit, basis), u.Measured(basis))
  {
    PriceByPostings(u, ps, basis);
    PriceByPostings(u', ps', basis);
    var a := PostedAt(ps, KeyAfter(u, ps), u.usageUnit, basis);
    var b := PostedAt(ps', KeyAfter(u', ps'), u'.usageUnit, basis);
    PricesAgree(a.kilowattHours, a.measured, b.kilowattHours, b.measured, u.Measured(basis));
    ZeroPrice(a.kilowattHours, a.measured, u.Measured(basis));
    ZeroPrice(b.kilowattHours, b.measured, u.Measured(basis));
  }

  // ----- The ledger outlives the request -----

  lemma {:induction false} RunSumAppend(ps: seq<Posting>, qs: seq<Posting>, key: string, unit: string, q: Quantity,
                                        basis: Measure)
    ensures RunSum(ps + qs, key, unit, q, basis) == RunSum(ps, key, unit, q, basis) + RunSum(qs, key, unit, q, basis)
  {
    if qs == [] {
      assert ps + qs == ps;
    } else {
      assert (ps + qs)[..|ps + qs| - 1] == ps + qs[..|qs| - 1];
      RunSumAppend(ps, qs[..|qs| - 1], key, unit, q, basis);
    }
  }

  lemma PostedToAppend(ps: seq<Posting>, qs: seq<Posting>, key: string, unit: string)
    ensures PostedTo(ps + qs, key, unit) <==> PostedTo(ps, key, unit) || PostedTo(qs, key, unit)
  {}

  /** What a request posts goes on top of what the requests before it have posted. */
  lemma RequestsAddUp(earlier: seq<Posting>, own: seq<Posting>, basis: Measure)
    ensures PostAll(PostAll(EMPTY, earlier, basis), own, basis) == PostAll(EMPTY, earlier + own, basis)
  {
    FoldAppend(Poster(basis), EMPTY, earlier, own);
  }

  /** Exactly when the requests before it do not change the price that a request gives: for any
      postings, any usage, and whether the prices are numbers or not. */
  lemma HistoryChangesPrices(u: UnknownUsage, earlier: seq<Posting>, own: seq<Posting>, basis: Measure)
    ensures var now, later := PostAll(EMPTY, own, basis), PostAll(PostAll(EMPTY, earlier, basis), own, basis);
            var key, key', unit := KeyAfter(u, own), KeyAfter(u, earlier + own), u.usageUnit;
            EstimateKilowattHours(u, now, basis) == EstimateKilowattHours(u, later, basis) <==>
              SamePrice(PostedAt(own, key, unit, basis),
                        Together(PostedAt(earlier, key', unit, basis), PostedAt(own, key', unit, basis)),
                        u.Measured(basis))
  {
    var key', unit := KeyAfter(u, earlier + own), u.usageUnit;
    RequestsAddUp(earlier, own, basis);
    PricesAfterRunsAgree(u, own, u, earlier + own, basis);
    PostedTogether(earlier, own, key', unit, basis);
  }

  lemma PostedTogether(ps: seq<Posting>, qs: seq<Posting>, key: string, unit: string, basis: Measure)
    ensures PostedAt(ps + qs, key, unit, basis)
        == Together(PostedAt(ps, key, unit, basis), PostedAt(qs, key, unit, basis))
  {
    PostedToAppend(ps, qs, key, unit);
    RunSumAppend(ps, qs, key, unit, KilowattHours, basis);
    RunSumAppend(ps, qs, key, unit, Measured(basis), basis);
  }

  /** With nothing posted earlier for the unit there is no difference.  If only earlier requests have
      posted it, the price must come to zero.  Otherwise both rates must be numbers and the same, or
      neither of them a number. */
  predicate Harmless(earlier: Posted, own: Posted, x: Option<real>) {
    if !earlier.any then true
    else if !own.any then IsZeroPrice(earlier.kilowattHours, earlier.measured, x)
    else if x.None? then true
    else if own.measured == 0.0 || earlier.measured + own.measured == 0.0 then own.measured == 0.0 == earlier.measured
    else x.value == 0.0 || SameRate(earlier.kilowattHours, earlier.measured, own.kilowattHours, own.measured)
  }

  lemma HarmlessIsSamePrice(earlier: Posted, own: Posted, x: Option<real>)
    requires !earlier.any ==> earlier.kilowattHours == 0.0 == earlier.measured
    requires !own.any ==> own.kilowattHours == 0.0 == own.measured
    ensures SamePrice(own, Together(earlier, own), x) <==> Harmless(earlier, own, x)
  {
    AddedRates(earlier.kilowattHours, earlier.measured, own.kilowattHours, own.measured);
  }

  /** The same for the usages that the providers ask about, which name no service. */
  lemma HistoryChangesTotals(u: UnknownUsage, earlier: seq<Posting>, own: seq<Posting>, basis: Measure)
    requires u.service.None? && !PostedTo(earlier, UNDEFINED, u.usageUnit) && !PostedTo(own, UNDEFINED, u.usageUnit)
    ensures var now, later := PostAll(EMPTY, own, basis), PostAll(PostAll(EMPTY, earlier, basis), own, basis);
            EstimateKilowattHours(u, now, basis) == EstimateKilowattHours(u, later, basis) <==>
              Harmless(PostedAt(earlier, TOTAL, u.usageUnit, basis), PostedAt(own, TOTAL, u.usageUnit, basis),
                       u.Measured(basis))
  {
    var unit := u.usageUnit;
    PostedToAppend(earlier, own, UNDEFINED, unit);
    HistoryChangesPrices(u, earlier, own, basis);
    NothingPostedNoSum(earlier, TOTAL, unit, KilowattHours, basis);
    NothingPostedNoSum(earlier, TOTAL, unit, Measured(basis), basis);
    NothingPostedNoSum(own, TOTAL, unit, KilowattHours, basis);
    NothingPostedNoSum(own, TOTAL, unit, Measured(basis), basis);
    HarmlessIsSamePrice(PostedAt(earlier, TOTAL, unit, basis), PostedAt(own, TOTAL, unit, basis), u.Measured(basis));
  }

  lemma AddedRates(k0: real, m0: real, k1: real, m1: real)
    ensures SameRate(k1, m1, k0 + k1, m0 + m1) <==> SameRate(k0, m0, k1, m1)
    ensures SameRate(k1, m1, k1, m1)
  {
    assert k1 * (m0 + m1) == k1 * m0 + k1 * m1;
    assert (k0 + k1) * m1 == k0 * m1 + k1 * m1;
  }

  lemma {:induction false} NothingPostedNoSum(ps: seq<Posting>, key: string, unit: string, q: Quantity, basis: Measure)
    ensures !PostedTo(ps, key, unit) ==> RunSum(ps, key, unit, q, basis) == 0.0
  {
    if ps == [] {
    } else {
      var front, p := ps[..|ps| - 1], ps[|ps| - 1];
      assert ps == front + [p];
      NothingPostedNoSum(front, key, unit, q, basis);
      PostedToAppend(front, [p], key, unit);
      assert !PostedTo(ps, key, unit) ==> p in ps && !AddsTo(p, key, unit);
    }
  }

  /** Repeating one and the same request leaves every price as it was. */
  lemma RepeatingKeepsPrices(u: UnknownUsage, own: seq<Posting>, basis: Measure)
    ensures EstimateKilowattHours(u, PostAll(PostAll(EMPTY, own, basis), own, basis), basis)
            == EstimateKilowattHours(u, PostAll(EMPTY, own, basis), basis)
  {
    var key, unit := KeyAfter(u, own), u.usageUnit;
    PostedToAppend(own, own, u.service.GetOr(UNDEFINED), unit);
    assert KeyAfter(u, own + own) == key;
    HistoryChangesPrices(u, own, own, basis);
    AddedRates(RunSum(own, key, unit, KilowattHours, basis), RunSum(own, key, unit, Measured(basis), basis),
               RunSum(own, key, unit, KilowattHours, basis), RunSum(own, key, unit, Measured(basis), basis));
  }
}
