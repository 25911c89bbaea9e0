/** The estimates of one region: per service, energy and costs are joined by day, and the services
    are then reduced to one entry per day. */
module RegionData {
  import opened BackwardChunks
  import opened CacheRound
  import opened EstimateCache
  import opened Folding
  import opened Reduction

  datatype Sums = Sums(kilowattHours: real, co2e: real, cost: real, usesAverageCPUConstant: bool) {
    function Plus(other: Sums): Sums {
      Sums(kilowattHours + other.kilowattHours, co2e + other.co2e, cost + other.cost,
           usesAverageCPUConstant || other.usesAverageCPUConstant)
    }

    predicate NoEnergy() {
      kilowattHours == 0.0 && co2e == 0.0 && !usesAverageCPUConstant
    }
  }

  const NOTHING := Sums(0.0, 0.0, 0.0, false)

  datatype FootprintEstimate = FootprintEstimate(timestamp: int, kilowattHours: real, co2e: real,
                                                 usesAverageCPUConstant: bool)

  datatype Cost = Cost(timestamp: int, amount: real)

  datatype Stamped = Stamped(timestamp: int, sums: Sums)

  function EstimateStamps(es: seq<FootprintEstimate>): seq<Stamped> {
    seq(|es|, i requires 0 <= i < |es| =>
      Stamped(es[i].timestamp, Sums(es[i].kilowattHours, es[i].co2e, 0.0, es[i].usesAverageCPUConstant)))
  }

  function CostStamps(cs: seq<Cost>): seq<Stamped> {
    seq(|cs|, i requires 0 <= i < |cs| => Stamped(cs[i].timestamp, Sums(0.0, 0.0, cs[i].amount, false)))
  }

  // ----- Aggregation by day -----

  function SumAll(xs: seq<Stamped>): Sums {
    if xs == [] then NOTHING else SumAll(xs[..|xs| - 1]).Plus(xs[|xs| - 1].sums)
  }

  function SumOfDay(xs: seq<Stamped>, d: int): Sums {
    if xs == [] then NOTHING
    else
      var rest, x := SumOfDay(xs[..|xs| - 1], d), xs[|xs| - 1];
      if Day(x.timestamp) == d then rest.Plus(x.sums) else rest
  }

  function FirstDays(xs: seq<Stamped>): seq<int> {
    if xs == [] then []
    else
      var rest, d := FirstDays(xs[..|xs| - 1]), Day(xs[|xs| - 1].timestamp);
      if d in rest then rest else rest + [d]
  }

  lemma {:induction false} FirstDaysFacts(xs: seq<Stamped>)
    ensures forall i, j :: 0 <= i < j < |FirstDays(xs)| ==> FirstDays(xs)[i] != FirstDays(xs)[j]
    ensures forall x :: x in xs ==> Day(x.timestamp) in FirstDays(xs)
    ensures forall d :: d !in FirstDays(xs) ==> SumOfDay(xs, d) == NOTHING
  {
    if xs == [] {
    } else {
      FirstDaysFacts(xs[..|xs| - 1]);
    }
  }

  /** Days in the order of their first record, each with the sums of its records. */
  method AggregateByDay(xs: seq<Stamped>) returns (days: seq<int>, byDay: map<int, Sums>)
    ensures days == FirstDays(xs)
    ensures forall d :: d in days <==> d in byDay
    ensures forall d :: d in byDay ==> byDay[d] == SumOfDay(xs, d)
  {
    days, byDay := [], map[];
    for n := 0 to |xs|
      invariant days == FirstDays(xs[..n])
      invariant forall d :: d in days <==> d in byDay
      invariant forall d :: d in byDay ==> byDay[d] == SumOfDay(xs[..n], d)
    {
      assert xs[..n + 1][..n] == xs[..n];
      FirstDaysFacts(xs[..n]);
      var d := Day(xs[n].timestamp);
      if d !in byDay {
        days := days + [d];
        byDay := byDay[d := NOTHING];
      }
      byDay := byDay[d := byDay[d].Plus(xs[n].sums)];
    }
    assert xs[..|xs|] == xs;
  }

  // ----- The join of energy and costs -----

  datatype ServiceData = ServiceData(serviceName: string, sums: Sums)

  function JoinedDay(serviceName: string, es: seq<Stamped>, cs: seq<Stamped>, d: int): EstimationResult<ServiceData> {
    EstimationResult(Days(d), [ServiceData(serviceName, SumOfDay(es, d).Plus(SumOfDay(cs, d)))])
  }

  function JoinedDays(serviceName: string, es: seq<Stamped>, cs: seq<Stamped>, days: seq<int>)
    : seq<EstimationResult<ServiceData>>
  {
    seq(|days|, i requires 0 <= i < |days| => JoinedDay(serviceName, es, cs, days[i]))
  }

  /** Every day with an estimate or a cost, once. */
  function UnionOfDays(es: seq<Stamped>, cs: seq<Stamped>): seq<int> {
    AddNew(FirstDays(es), FirstDays(cs))
  }

  function ServiceResults(serviceName: string, es: seq<Stamped>, cs: seq<Stamped>): seq<EstimationResult<ServiceData>> {
    JoinedDays(serviceName, es, cs, UnionOfDays(es, cs))
  }

  /** The full outer join of a service's estimates and costs by day; what is missing counts as zero. */
  method GetServiceResults(serviceName: string, es: seq<FootprintEstimate>, cs: seq<Cost>)
    returns (results: seq<EstimationResult<ServiceData>>)
    ensures results == ServiceResults(serviceName, EstimateStamps(es), CostStamps(cs))
  {
    var estimateDays, estimatesByDay := AggregateByDay(EstimateStamps(es));
    var costDays, costsByDay := AggregateByDay(CostStamps(cs));
    var dates := AddNew(estimateDays, costDays);
    forall d
      ensures HoldsDay(estimatesByDay, EstimateStamps(es), d) && SumOfDay(EstimateStamps(es), d).cost == 0.0
      ensures HoldsDay(costsByDay, CostStamps(cs), d) && SumOfDay(CostStamps(cs), d).NoEnergy()
    {
      EstimateDay(es, d);
      CostDay(cs, d);
    }
    results := JoinDates(serviceName, EstimateStamps(es), CostStamps(cs), estimatesByDay, costsByDay, dates);
  }

  /** The map has the sums of the day, or lacks the day when there is nothing to add up. */
  predicate HoldsDay(byDay: map<int, Sums>, xs: seq<Stamped>, d: int) {
    if d in byDay then byDay[d] == SumOfDay(xs, d) else SumOfDay(xs, d) == NOTHING
  }

  function DayOr(byDay: map<int, Sums>, d: int): Sums {
    if d in byDay then byDay[d] else NOTHING
  }

  /** The energy of the one and the cost of the other. */
  function JoinSums(estimate: Sums, cost: Sums): Sums {
    Sums(estimate.kilowattHours, estimate.co2e, cost.cost, estimate.usesAverageCPUConstant)
  }

  lemma JoinIsPlus(estimate: Sums, cost: Sums)
    requires estimate.cost == 0.0 && cost.NoEnergy()
    ensures JoinSums(estimate, cost) == estimate.Plus(cost)
  {}

  method JoinDates(serviceName: string, ghost es: seq<Stamped>, ghost cs: seq<Stamped>,
                   estimatesByDay: map<int, Sums>, costsByDay: map<int, Sums>, dates: seq<int>)
    returns (results: seq<EstimationResult<ServiceData>>)
    requires forall d :: HoldsDay(estimatesByDay, es, d) && HoldsDay(costsByDay, cs, d)
    requires forall d :: SumOfDay(es, d).cost == 0.0 && SumOfDay(cs, d).NoEnergy()
    ensures results == JoinedDays(serviceName, es, cs, dates)
  {
    results := [];
    for n := 0 to |dates|
      invariant results == JoinedDays(serviceName, es, cs, dates[..n])
    {
      var d := dates[n];
      assert HoldsDay(estimatesByDay, es, d) && HoldsDay(costsByDay, cs, d);
      JoinIsPlus(SumOfDay(es, d), SumOfDay(cs, d));
      var sums := JoinSums(DayOr(estimatesByDay, d), DayOr(costsByDay, d));
      var joined := EstimationResult(Days(d), [ServiceData(serviceName, sums)]);
      assert joined == JoinedDay(serviceName, es, cs, d);
      JoinedDaysMore(serviceName, es, cs, dates, n);
      results := results + [joined];
    }
    assert dates[..|dates|] == dates;
  }

  lemma JoinedDaysMore(serviceName: string, es: seq<Stamped>, cs: seq<Stamped>, days: seq<int>, n: nat)
    requires n < |days|
    ensures JoinedDays(serviceName, es, cs, days[..n + 1])
            == JoinedDays(serviceName, es, cs, days[..n]) + [JoinedDay(serviceName, es, cs, days[n])]
  {}

  lemma {:induction false} EstimateDay(es: seq<FootprintEstimate>, d: int)
    ensures SumOfDay(EstimateStamps(es), d).cost == 0.0
    ensures d !in FirstDays(EstimateStamps(es)) ==> SumOfDay(EstimateStamps(es), d) == NOTHING
  {
    if es == [] {
    } else {
      EstimateDay(es[..|es| - 1], d);
      assert EstimateStamps(es)[..|es| - 1] == EstimateStamps(es[..|es| - 1]);
    }
  }

  lemma {:induction false} CostDay(cs: seq<Cost>, d: int)
    ensures SumOfDay(CostStamps(cs), d).NoEnergy()
    ensures d !in FirstDays(CostStamps(cs)) ==> SumOfDay(CostStamps(cs), d) == NOTHING
  {
    if cs == [] {
    } else {
      CostDay(cs[..|cs| - 1], d);
      assert CostStamps(cs)[..|cs| - 1] == CostStamps(cs[..|cs| - 1]);
    }
  }

  // ----- Conservation -----

  function SumOfServices(services: seq<ServiceData>): Sums {
    if services == [] then NOTHING else SumOfServices(services[..|services| - 1]).Plus(services[|services| - 1].sums)
  }

  function EntryStep(): (Sums, EstimationResult<ServiceData>) -> Sums {
    (s: Sums, e: EstimationResult<ServiceData>) => s.Plus(SumOfServices(e.serviceEstimates))
  }

  /** Everything a list of results holds, added up. */
  function SumOfResults(es: seq<EstimationResult<ServiceData>>): Sums {
    Fold(EntryStep(), NOTHING, es)
  }

  lemma PlusLaws(a: Sums, b: Sums, c: Sums)
    ensures a.Plus(b) == b.Plus(a)
    ensures a.Plus(b).Plus(c) == a.Plus(b.Plus(c))
    ensures a.Plus(NOTHING) == a == NOTHING.Plus(a)
  {}

  lemma EntryStepCommutes()
    ensures Commutes(EntryStep())
  {}

  function DaysSum(xs: seq<Stamped>, days: seq<int>): Sums {
    if days == [] then NOTHING else DaysSum(xs, days[..|days| - 1]).Plus(SumOfDay(xs, days[|days| - 1]))
  }

  lemma {:induction false} DaysSumOneMore(xs: seq<Stamped>, x: Stamped, days: seq<int>)
    requires forall i, j :: 0 <= i < j < |days| ==> days[i] != days[j]
    ensures DaysSum(xs + [x], days)
            == if Day(x.timestamp) in days then DaysSum(xs, days).Plus(x.sums) else DaysSum(xs, days)
  {
    assert (xs + [x])[..|xs + [x]| - 1] == xs;
    if days != [] {
      var front, d := days[..|days| - 1], days[|days| - 1];
      assert days == front + [d];
      DaysSumOneMore(xs, x, front);
      PlusLaws(DaysSum(xs, front), SumOfDay(xs, d), x.sums);
      PlusLaws(DaysSum(xs, front), x.sums, SumOfDay(xs, d));
      PlusLaws(x.sums, SumOfDay(xs, d), NOTHING);
    }
  }

  lemma {:induction false} DaysSumOfNothing(days: seq<int>)
    ensures DaysSum([], days) == NOTHING
  {
    if days == [] {
    } else {
      DaysSumOfNothing(days[..|days| - 1]);
    }
  }

  lemma {:induction false} DaysSumIsEverything(xs: seq<Stamped>, days: seq<int>)
    requires forall i, j :: 0 <= i < j < |days| ==> days[i] != days[j]
    requires forall x :: x in xs ==> Day(x.timestamp) in days
    ensures DaysSum(xs, days) == SumAll(xs)
  {
    if xs == [] {
      DaysSumOfNothing(days);
    } else {
      var front, x := xs[..|xs| - 1], xs[|xs| - 1];
      assert xs == front + [x];
      DaysSumIsEverything(front, days);
      DaysSumOneMore(front, x, days);
    }
  }

  lemma OneServiceSum(s: ServiceData)
    ensures SumOfServices([s]) == s.sums
  {
    assert [s][..0] == [];
    assert SumOfServices([s]) == SumOfServices([s][..0]).Plus(s.sums);
    PlusLaws(s.sums, NOTHING, NOTHING);
  }

  lemma JoinedOneMore(serviceName: string, es: seq<Stamped>, cs: seq<Stamped>, days: seq<int>)
    requires days != []
    ensures var front, d := days[..|days| - 1], days[|days| - 1];
            SumOfResults(JoinedDays(serviceName, es, cs, days))
            == SumOfResults(JoinedDays(serviceName, es, cs, front)).Plus(SumOfDay(es, d).Plus(SumOfDay(cs, d)))
  {
    var front, d := days[..|days| - 1], days[|days| - 1];
    var joined, last := JoinedDays(serviceName, es, cs, days), JoinedDay(serviceName, es, cs, d);
    assert joined[..|joined| - 1] == JoinedDays(serviceName, es, cs, front);
    assert joined[|joined| - 1] == last;
    OneServiceSum(last.serviceEstimates[0]);
  }

  lemma PlusInPairs(a: Sums, b: Sums, c: Sums, d: Sums)
    ensures a.Plus(b).Plus(c.Plus(d)) == a.Plus(c).Plus(b.Plus(d))
  {}

  lemma {:induction false} JoinedSum(serviceName: string, es: seq<Stamped>, cs: seq<Stamped>, days: seq<int>)
    ensures SumOfResults(JoinedDays(serviceName, es, cs, days)) == DaysSum(es, days).Plus(DaysSum(cs, days))
  {
    if days == [] {
    } else {
      var front, d := days[..|days| - 1], days[|days| - 1];
      JoinedSum(serviceName, es, cs, front);
      JoinedOneMore(serviceName, es, cs, days);
      PlusInPairs(DaysSum(es, front), DaysSum(cs, front), SumOfDay(es, d), SumOfDay(cs, d));
    }
  }

  /** The join loses no energy and no cost: its entries add up to all estimates and all costs. */
  lemma JoinConserves(serviceName: string, es: seq<Stamped>, cs: seq<Stamped>)
    ensures SumOfResults(ServiceResults(serviceName, es, cs)) == SumAll(es).Plus(SumAll(cs))
  {
    var days := UnionOfDays(es, cs);
    FirstDaysFacts(es);
    FirstDaysFacts(cs);
    AddNewMembers(FirstDays(es), FirstDays(cs));
    AddNewDistinct(FirstDays(es), FirstDays(cs));
    JoinedSum(serviceName, es, cs, days);
    DaysSumIsEverything(es, days);
    DaysSumIsEverything(cs, days);
  }

  lemma {:induction false} AddNewDistinct(ds: seq<int>, more: seq<int>)
    requires forall i, j :: 0 <= i < j < |ds| ==> ds[i] != ds[j]
    ensures forall i, j :: 0 <= i < j < |AddNew(ds, more)| ==> AddNew(ds, more)[i] != AddNew(ds, more)[j]
  {
    if more == [] {
    } else {
      AddNewDistinct(ds, more[..|more| - 1]);
    }
  }

  lemma {:induction false} SumOfServicesAppend(a: seq<ServiceData>, b: seq<ServiceData>)
    ensures SumOfServices(a + b) == SumOfServices(a).Plus(SumOfServices(b))
  {
    if b == [] {
      assert a + b == a;
      PlusLaws(SumOfServices(a), NOTHING, NOTHING);
    } else {
      assert (a + b)[..|a + b| - 1] == a + b[..|b| - 1];
      SumOfServicesAppend(a, b[..|b| - 1]);
      PlusLaws(SumOfServices(a), SumOfServices(b[..|b| - 1]), b[|b| - 1].sums);
    }
  }

  lemma AccumulateSum(groups: seq<EstimationResult<ServiceData>>, e: EstimationResult<ServiceData>)
    ensures SumOfResults(Accumulate(groups, e)) == SumOfResults(groups).Plus(SumOfServices(e.serviceEstimates))
  {
    var i := FindDate(groups, e.timestamp);
    var after := Accumulate(groups, e);
    if i < |groups| {
      EntryStepCommutes();
      FoldMoveToEnd(EntryStep(), NOTHING, groups, i);
      FoldMoveToEnd(EntryStep(), NOTHING, after, i);
      assert Without(after, i) == Without(groups, i);
      var rest := SumOfResults(Without(groups, i));
      var present, added := SumOfServices(groups[i].serviceEstimates), SumOfServices(e.serviceEstimates);
      SumOfServicesAppend(groups[i].serviceEstimates, e.serviceEstimates);
      PlusLaws(rest, present, added);
    } else {
      assert after[..|after| - 1] == groups;
    }
  }

  lemma {:induction false} ReducedSum(es: seq<EstimationResult<ServiceData>>)
    ensures SumOfResults(Reduced(es)) == SumOfResults(es)
  {
    if es == [] {
    } else {
      ReducedSum(es[..|es| - 1]);
      AccumulateSum(Reduced(es[..|es| - 1]), es[|es| - 1]);
    }
  }

  // ----- The region -----

  datatype ServiceInput = ServiceInput(serviceName: string, estimates: seq<FootprintEstimate>, costs: seq<Cost>)

  function ResultsOf(s: ServiceInput): seq<EstimationResult<ServiceData>> {
    ServiceResults(s.serviceName, EstimateStamps(s.estimates), CostStamps(s.costs))
  }

  function AllResults(services: seq<ServiceInput>): seq<EstimationResult<ServiceData>> {
    if services == [] then [] else AllResults(services[..|services| - 1]) + ResultsOf(services[|services| - 1])
  }

  function EnergyOf(es: seq<FootprintEstimate>): real {
    if es == [] then 0.0 else EnergyOf(es[..|es| - 1]) + es[|es| - 1].kilowattHours
  }

  function CarbonOf(es: seq<FootprintEstimate>): real {
    if es == [] then 0.0 else CarbonOf(es[..|es| - 1]) + es[|es| - 1].co2e
  }

  predicate SomeUsesConstant(es: seq<FootprintEstimate>) {
    exists e :: e in es && e.usesAverageCPUConstant
  }

  function CostOf(cs: seq<Cost>): real {
    if cs == [] then 0.0 else CostOf(cs[..|cs| - 1]) + cs[|cs| - 1].amount
  }

  function AllEnergy(services: seq<ServiceInput>): real {
    if services == [] then 0.0 else AllEnergy(services[..|services| - 1]) + EnergyOf(services[|services| - 1].estimates)
  }

  function AllCarbon(services: seq<ServiceInput>): real {
    if services == [] then 0.0 else AllCarbon(services[..|services| - 1]) + CarbonOf(services[|services| - 1].estimates)
  }

  function AllCosts(services: seq<ServiceInput>): real {
    if services == [] then 0.0 else AllCosts(services[..|services| - 1]) + CostOf(services[|services| - 1].costs)
  }

  predicate AnyUsesConstant(services: seq<ServiceInput>) {
    exists s :: s in services && SomeUsesConstant(s.estimates)
  }

  /** The plain sums of the fields of all estimates and costs. */
  function InputSum(services: seq<ServiceInput>): Sums {
    Sums(AllEnergy(services), AllCarbon(services), AllCosts(services), AnyUsesConstant(services))
  }

  lemma {:induction false} EstimatesAddUp(es: seq<FootprintEstimate>)
    ensures SumAll(EstimateStamps(es)) == Sums(EnergyOf(es), CarbonOf(es), 0.0, SomeUsesConstant(es))
  {
    if es == [] {
    } else {
      var front, e := es[..|es| - 1], es[|es| - 1];
      EstimatesAddUp(front);
      assert EstimateStamps(es)[..|es| - 1] == EstimateStamps(front);
      assert es == front + [e];
      assert SomeUsesConstant(es) <==> SomeUsesConstant(front) || e.usesAverageCPUConstant;
    }
  }

  lemma {:induction false} CostsAddUp(cs: seq<Cost>)
    ensures SumAll(CostStamps(cs)) == Sums(0.0, 0.0, CostOf(cs), false)
  {
    if cs == [] {
    } else {
      CostsAddUp(cs[..|cs| - 1]);
      assert CostStamps(cs)[..|cs| - 1] == CostStamps(cs[..|cs| - 1]);
    }
  }

  lemma InputOneMore(services: seq<ServiceInput>, s: ServiceInput)
    ensures InputSum(services + [s])
            == InputSum(services).Plus(SumAll(EstimateStamps(s.estimates)).Plus(SumAll(CostStamps(s.costs))))
  {
    var all := services + [s];
    assert all[..|all| - 1] == services;
    EstimatesAddUp(s.estimates);
    CostsAddUp(s.costs);
    assert forall x :: x in all <==> x in services || x == s;
    assert AnyUsesConstant(all) <==> AnyUsesConstant(services) || SomeUsesConstant(s.estimates);
  }

  method GetRegionData(services: seq<ServiceInput>) returns (results: seq<EstimationResult<ServiceData>>)
    ensures results == RegionResults(AllResults(services))
  {
    var all: seq<EstimationResult<ServiceData>> := [];
    for n := 0 to |services|
      invariant all == AllResults(services[..n])
    {
      assert services[..n + 1][..n] == services[..n];
      var joined := GetServiceResults(services[n].serviceName, services[n].estimates, services[n].costs);
      all := all + joined;
    }
    assert services[..|services|] == services;
    var reduced := ReduceByTimestamp(all);
    results := SortByTime(reduced);
  }

  lemma {:induction false} AllResultsSum(services: seq<ServiceInput>)
    ensures SumOfResults(AllResults(services)) == InputSum(services)
  {
    if services == [] {
      assert AllResults([]) == [];
    } else {
      var front, s := services[..|services| - 1], services[|services| - 1];
      assert services == front + [s];
      InputOneMore(front, s);
      AllResultsSum(front);
      JoinConserves(s.serviceName, EstimateStamps(s.estimates), CostStamps(s.costs));
      FoldAppend(EntryStep(), NOTHING, AllResults(front), ResultsOf(s));
      FoldFrom(SumOfResults(AllResults(front)), ResultsOf(s));
    }
  }

  lemma {:induction false} FoldFrom(start: Sums, es: seq<EstimationResult<ServiceData>>)
    ensures Fold(EntryStep(), start, es) == start.Plus(SumOfResults(es))
  {
    if es == [] {
      PlusLaws(start, NOTHING, NOTHING);
    } else {
      FoldFrom(start, es[..|es| - 1]);
      PlusLaws(start, SumOfResults(es[..|es| - 1]), SumOfServices(es[|es| - 1].serviceEstimates));
    }
  }

  // ----- The result in plain sums -----

  function ServicesEnergy(services: seq<ServiceData>): real {
    if services == [] then 0.0
    else ServicesEnergy(services[..|services| - 1]) + services[|services| - 1].sums.kilowattHours
  }

  function ServicesCarbon(services: seq<ServiceData>): real {
    if services == [] then 0.0 else ServicesCarbon(services[..|services| - 1]) + services[|services| - 1].sums.co2e
  }

  function ServicesCost(services: seq<ServiceData>): real {
    if services == [] then 0.0 else ServicesCost(services[..|services| - 1]) + services[|services| - 1].sums.cost
  }

  function ResultsEnergy(es: seq<EstimationResult<ServiceData>>): real {
    if es == [] then 0.0 else ResultsEnergy(es[..|es| - 1]) + ServicesEnergy(es[|es| - 1].serviceEstimates)
  }

  function ResultsCarbon(es: seq<EstimationResult<ServiceData>>): real {
    if es == [] then 0.0 else ResultsCarbon(es[..|es| - 1]) + ServicesCarbon(es[|es| - 1].serviceEstimates)
  }

  function ResultsCost(es: seq<EstimationResult<ServiceData>>): real {
    if es == [] then 0.0 else ResultsCost(es[..|es| - 1]) + ServicesCost(es[|es| - 1].serviceEstimates)
  }

  lemma {:induction false} ServicesByField(services: seq<ServiceData>)
    ensures var sums := SumOfServices(services);
            && sums.kilowattHours == ServicesEnergy(services)
            && sums.co2e == ServicesCarbon(services)
            && sums.cost == ServicesCost(services)
  {
    if services == [] {
    } else {
      ServicesByField(services[..|services| - 1]);
    }
  }

  lemma {:induction false} ResultsByField(es: seq<EstimationResult<ServiceData>>)
    ensures var sums := SumOfResults(es);
            && sums.kilowattHours == ResultsEnergy(es)
            && sums.co2e == ResultsCarbon(es)
            && sums.cost == ResultsCost(es)
  {
    if es == [] {
    } else {
      ResultsByField(es[..|es| - 1]);
      ServicesByField(es[|es| - 1].serviceEstimates);
    }
  }

  /** What a region hands over adds up to all the energy, carbon and cost of its services, is
      sorted by time, and has each day once. */
  lemma RegionConserves(services: seq<ServiceInput>)
    ensures SumOfResults(RegionResults(AllResults(services))) == InputSum(services)
    ensures var results := RegionResults(AllResults(services));
            && ResultsEnergy(results) == AllEnergy(services)
            && ResultsCarbon(results) == AllCarbon(services)
            && ResultsCost(results) == AllCosts(services)
    ensures StrictlySorted(RegionResults(AllResults(services)))
  {
    var all := AllResults(services);
    AllResultsSum(services);
    ReducedSum(all);
    ReducedFacts(all);
    SortDistinct(Reduced(all));
    SortFacts(Reduced(all), 0);
    EntryStepCommutes();
    FoldPermutation(EntryStep(), NOTHING, SortByTime(Reduced(all)), Reduced(all));
    ResultsByField(RegionResults(all));
  }
}
