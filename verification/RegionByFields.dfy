/** What a region hands over for each day, in terms of the fields of its estimates and costs. */
module RegionByFields {
  import opened BackwardChunks
  import opened CacheRound
  import opened EstimateCache
  import opened Reduction
  import opened RegionData

  // ----- Sums over a stretch of time -----

  predicate Within(timestamp: int, from: int, to: int) {
    from <= timestamp < to
  }

  function EnergyWithin(es: seq<FootprintEstimate>, from: int, to: int): real {
    if es == [] then 0.0
    else
      var e := es[|es| - 1];
      EnergyWithin(es[..|es| - 1], from, to) + if Within(e.timestamp, from, to) then e.kilowattHours else 0.0
  }

  function CarbonWithin(es: seq<FootprintEstimate>, from: int, to: int): real {
    if es == [] then 0.0
    else
      var e := es[|es| - 1];
      CarbonWithin(es[..|es| - 1], from, to) + if Within(e.timestamp, from, to) then e.co2e else 0.0
  }

  function CostWithin(cs: seq<Cost>, from: int, to: int): real {
    if cs == [] then 0.0
    else
      var c := cs[|cs| - 1];
      CostWithin(cs[..|cs| - 1], from, to) + if Within(c.timestamp, from, to) then c.amount else 0.0
  }

  predicate UsesConstantWithin(es: seq<FootprintEstimate>, from: int, to: int) {
    exists e :: e in es && Within(e.timestamp, from, to) && e.usesAverageCPUConstant
  }

  predicate HasRecord(s: ServiceInput, from: int, to: int) {
    || (exists e :: e in s.estimates && Within(e.timestamp, from, to))
    || (exists c :: c in s.costs && Within(c.timestamp, from, to))
  }

  /** What a service has from a midnight to the next. */
  function DayOf(s: ServiceInput, t: int): ServiceData {
    var to := t + 86_400_000;
    ServiceData(s.serviceName, Sums(EnergyWithin(s.estimates, t, to), CarbonWithin(s.estimates, t, to),
                                    CostWithin(s.costs, t, to), UsesConstantWithin(s.estimates, t, to)))
  }

  /** The services with a record of the day that starts at a midnight, in order; none at any other time. */
  function ServicesOfDay(services: seq<ServiceInput>, t: int): seq<ServiceData> {
    if services == [] then []
    else
      var s := services[|services| - 1];
      ServicesOfDay(services[..|services| - 1], t)
      + if t % 86_400_000 == 0 && HasRecord(s, t, t + 86_400_000) then [DayOf(s, t)] else []
  }

  // ----- Days as stretches of time -----

  lemma DayBounds(timestamp: int, d: int)
    ensures Day(timestamp) == d <==> Within(timestamp, Days(d), Days(d) + 86_400_000)
  {}

  lemma {:induction false} EstimatesOfDay(es: seq<FootprintEstimate>, d: int)
    ensures var from, to := Days(d), Days(d) + 86_400_000;
            SumOfDay(EstimateStamps(es), d)
            == Sums(EnergyWithin(es, from, to), CarbonWithin(es, from, to), 0.0, UsesConstantWithin(es, from, to))
  {
    if es == [] {
    } else {
      var front, e := es[..|es| - 1], es[|es| - 1];
      EstimatesOfDay(front, d);
      DayBounds(e.timestamp, d);
      assert EstimateStamps(es)[..|es| - 1] == EstimateStamps(front);
      assert forall x :: x in es <==> x in front || x == e;
    }
  }

  lemma {:induction false} CostsOfDay(cs: seq<Cost>, d: int)
    ensures SumOfDay(CostStamps(cs), d) == Sums(0.0, 0.0, CostWithin(cs, Days(d), Days(d) + 86_400_000), false)
  {
    if cs == [] {
    } else {
      CostsOfDay(cs[..|cs| - 1], d);
      DayBounds(cs[|cs| - 1].timestamp, d);
      assert CostStamps(cs)[..|cs| - 1] == CostStamps(cs[..|cs| - 1]);
    }
  }

  lemma {:induction false} FirstDaysMember(xs: seq<Stamped>, d: int)
    ensures d in FirstDays(xs) <==> exists x :: x in xs && Within(x.timestamp, Days(d), Days(d) + 86_400_000)
  {
    if xs == [] {
    } else {
      var front, x := xs[..|xs| - 1], xs[|xs| - 1];
      FirstDaysMember(front, d);
      DayBounds(x.timestamp, d);
      assert forall y :: y in xs <==> y in front || y == x;
    }
  }

  lemma UnionMember(s: ServiceInput, d: int)
    ensures d in UnionOfDays(EstimateStamps(s.estimates), CostStamps(s.costs))
            <==> HasRecord(s, Days(d), Days(d) + 86_400_000)
  {
    var es, cs := EstimateStamps(s.estimates), CostStamps(s.costs);
    var from, to := Days(d), Days(d) + 86_400_000;
    AddNewMembers(FirstDays(es), FirstDays(cs));
    FirstDaysMember(es, d);
    FirstDaysMember(cs, d);
    forall e | e in s.estimates && Within(e.timestamp, from, to)
      ensures exists x :: x in es && Within(x.timestamp, from, to)
    {
      var i :| 0 <= i < |es| && s.estimates[i] == e;
      assert es[i] in es;
    }
    forall c | c in s.costs && Within(c.timestamp, from, to)
      ensures exists x :: x in cs && Within(x.timestamp, from, to)
    {
      var i :| 0 <= i < |cs| && s.costs[i] == c;
      assert cs[i] in cs;
    }
    forall x | x in es && Within(x.timestamp, from, to)
      ensures exists e :: e in s.estimates && Within(e.timestamp, from, to)
    {
      var i :| 0 <= i < |es| && es[i] == x;
      assert s.estimates[i] in s.estimates;
    }
    forall x | x in cs && Within(x.timestamp, from, to)
      ensures exists c :: c in s.costs && Within(c.timestamp, from, to)
    {
      var i :| 0 <= i < |cs| && cs[i] == x;
      assert s.costs[i] in s.costs;
    }
  }

  // ----- One service -----

  lemma ResultsAreDistinct(s: ServiceInput)
    ensures Distinct(ResultsOf(s))
  {
    var es, cs := EstimateStamps(s.estimates), CostStamps(s.costs);
    FirstDaysFacts(es);
    AddNewDistinct(FirstDays(es), FirstDays(cs));
  }

  lemma JoinedIsDayOf(s: ServiceInput, d: int)
    ensures JoinedDay(s.serviceName, EstimateStamps(s.estimates), CostStamps(s.costs), d)
            == EstimationResult(Days(d), [DayOf(s, Days(d))])
  {
    EstimatesOfDay(s.estimates, d);
    CostsOfDay(s.costs, d);
  }

  lemma MidnightIsDays(t: int)
    ensures t % 86_400_000 == 0 <==> Days(Day(t)) == t
  {}

  lemma ServiceOfDay(s: ServiceInput, t: int)
    ensures ServicesAt(ResultsOf(s), t) ==
            if t % 86_400_000 == 0 && HasRecord(s, t, t + 86_400_000) then [DayOf(s, t)] else []
  {
    var days, d := UnionOfDays(EstimateStamps(s.estimates), CostStamps(s.costs)), Day(t);
    MidnightIsDays(t);
    UnionMember(s, d);
    if t % 86_400_000 == 0 && d in days {
      var i :| 0 <= i < |days| && days[i] == d;
      JoinedIsDayOf(s, d);
      ResultsAreDistinct(s);
      DistinctServices(ResultsOf(s), i);
    } else {
      NoResultAt(s, t);
      FirstDatesFacts(ResultsOf(s));
    }
  }

  lemma NoResultAt(s: ServiceInput, t: int)
    requires t % 86_400_000 != 0 || Day(t) !in UnionOfDays(EstimateStamps(s.estimates), CostStamps(s.costs))
    ensures !HasDate(ResultsOf(s), t)
  {
    var days, results := UnionOfDays(EstimateStamps(s.estimates), CostStamps(s.costs)), ResultsOf(s);
    forall i | 0 <= i < |results|
      ensures results[i].timestamp != t
    {
      assert results[i].timestamp == Days(days[i]) && days[i] in days;
      assert Day(Days(days[i])) == days[i];
    }
  }

  // ----- The region -----

  lemma {:induction false} AllServicesOfDay(services: seq<ServiceInput>, t: int)
    ensures ServicesAt(AllResults(services), t) == ServicesOfDay(services, t)
  {
    if services == [] {
    } else {
      var front, s := services[..|services| - 1], services[|services| - 1];
      AllServicesOfDay(front, t);
      ServiceOfDay(s, t);
      ServicesAtAppend(AllResults(front), ResultsOf(s), t);
    }
  }

  lemma HasDateAppend(a: seq<EstimationResult<ServiceData>>, b: seq<EstimationResult<ServiceData>>, t: int)
    ensures HasDate(a + b, t) <==> HasDate(a, t) || HasDate(b, t)
  {
    AtAppend(a, b, t);
  }

  lemma {:induction false} AllDatesOfDay(services: seq<ServiceInput>, t: int)
    ensures HasDate(AllResults(services), t) <==> ServicesOfDay(services, t) != []
  {
    if services == [] {
    } else {
      var front, s := services[..|services| - 1], services[|services| - 1];
      AllDatesOfDay(front, t);
      HasDateAppend(AllResults(front), ResultsOf(s), t);
      ResultHasDate(s, t);
    }
  }

  lemma ResultHasDate(s: ServiceInput, t: int)
    ensures HasDate(ResultsOf(s), t) <==> t % 86_400_000 == 0 && HasRecord(s, t, t + 86_400_000)
  {
    var days, results := UnionOfDays(EstimateStamps(s.estimates), CostStamps(s.costs)), ResultsOf(s);
    UnionMember(s, Day(t));
    if t % 86_400_000 == 0 && Day(t) in days {
      var i :| 0 <= i < |days| && days[i] == Day(t);
      assert results[i].timestamp == t;
    } else {
      NoResultAt(s, t);
    }
  }

  /** The entries of a region are its days with a record, in order of time, each with just the services that
      have one, in order, and with the plain sums of the fields of their estimates and costs of the day. */
  lemma RegionDays(services: seq<ServiceInput>, t: int)
    ensures var results := RegionResults(AllResults(services));
            && StrictlySorted(results)
            && (HasDate(results, t) <==> ServicesOfDay(services, t) != [])
            && forall i :: 0 <= i < |results| && results[i].timestamp == t ==>
                 results[i].serviceEstimates == ServicesOfDay(services, t)
  {
    var results := RegionResults(AllResults(services));
    RegionConserves(services);
    RegionResultsFacts(AllResults(services), t);
    AllServicesOfDay(services, t);
    AllDatesOfDay(services, t);
    forall i | 0 <= i < |results| && results[i].timestamp == t
      ensures results[i].serviceEstimates == ServicesAt(results, t)
    {
      DistinctServices(results, i);
    }
  }
}
