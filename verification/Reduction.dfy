/** Bringing the estimates of many sources together, one entry per timestamp. */
module Reduction {
  import opened CacheRound
  import opened EstimateCache
  import opened Folding

  // ----- The reduction, as the loop builds it -----

  function FindDate<T>(groups: seq<EstimationResult<T>>, t: int): (i: nat)
    ensures i <= |groups|
    ensures i < |groups| ==> groups[i].timestamp == t
    ensures forall j :: 0 <= j < i ==> groups[j].timestamp != t
  {
    if groups == [] || groups[0].timestamp == t then 0 else 1 + FindDate(groups[1..], t)
  }

  function Accumulate<T>(groups: seq<EstimationResult<T>>, e: EstimationResult<T>): seq<EstimationResult<T>> {
    var i := FindDate(groups, e.timestamp);
    if i < |groups| then groups[i := EstimationResult(e.timestamp, groups[i].serviceEstimates + e.serviceEstimates)]
    else groups + [e]
  }

  function Reduced<T>(es: seq<EstimationResult<T>>): seq<EstimationResult<T>> {
    if es == [] then [] else Accumulate(Reduced(es[..|es| - 1]), es[|es| - 1])
  }

  predicate KeysOf<T>(keys: seq<int>, services: map<int, seq<T>>) {
    && (forall i :: 0 <= i < |keys| ==> keys[i] in services)
    && (forall t :: t in services ==> t in keys)
    && (forall i, j :: 0 <= i < j < |keys| ==> keys[i] != keys[j])
  }

  function Entries<T>(keys: seq<int>, services: map<int, seq<T>>): (es: seq<EstimationResult<T>>)
    requires KeysOf(keys, services)
    ensures |es| == |keys|
    ensures forall i :: 0 <= i < |keys| ==> es[i] == EstimationResult(keys[i], services[keys[i]])
  {
    seq(|keys|, i requires 0 <= i < |keys| => EstimationResult(keys[i], services[keys[i]]))
  }

  /** One accumulator per timestamp, kept in the order in which the timestamps first occur. */
  method ReduceByTimestamp<T>(es: seq<EstimationResult<T>>) returns (result: seq<EstimationResult<T>>)
    ensures result == Reduced(es)
  {
    var keys: seq<int> := [];
    var services: map<int, seq<T>> := map[];
    for n := 0 to |es|
      invariant KeysOf(keys, services)
      invariant Reduced(es[..n]) == Entries(keys, services)
    {
      var e := es[n];
      assert es[..n + 1][..n] == es[..n];
      if e.timestamp in services {
        AccumulateOldDate(keys, services, e);
        services := services[e.timestamp := services[e.timestamp] + e.serviceEstimates];
      } else {
        AccumulateNewDate(keys, services, e);
        keys := keys + [e.timestamp];
        services := services[e.timestamp := e.serviceEstimates];
      }
    }
    assert es[..|es|] == es;
    result := Entries(keys, services);
  }

  lemma AccumulateOldDate<T>(keys: seq<int>, services: map<int, seq<T>>, e: EstimationResult<T>)
    requires KeysOf(keys, services) && e.timestamp in services
    ensures var services' := services[e.timestamp := services[e.timestamp] + e.serviceEstimates];
            KeysOf(keys, services') && Accumulate(Entries(keys, services), e) == Entries(keys, services')
  {
    var t, before := e.timestamp, Entries(keys, services);
    var services' := services[t := services[t] + e.serviceEstimates];
    var i :| 0 <= i < |keys| && keys[i] == t;
    assert before[i].timestamp == t;
    assert FindDate(before, t) == i;
    assert before[i := EstimationResult(t, services'[t])] == Entries(keys, services');
  }

  lemma AccumulateNewDate<T>(keys: seq<int>, services: map<int, seq<T>>, e: EstimationResult<T>)
    requires KeysOf(keys, services) && e.timestamp !in services
    ensures var keys', services' := keys + [e.timestamp], services[e.timestamp := e.serviceEstimates];
            KeysOf(keys', services') && Accumulate(Entries(keys, services), e) == Entries(keys', services')
  {
    var t, before := e.timestamp, Entries(keys, services);
    var keys', services' := keys + [t], services[t := e.serviceEstimates];
    assert FindDate(before, t) == |before|;
    assert keys'[|keys|] == t;
    assert before + [e] == Entries(keys', services');
  }

  // ----- What it means -----

  /** All service estimates of a timestamp, in order. */
  function ServicesAt<T>(es: seq<EstimationResult<T>>, t: int): seq<T> {
    if es == [] then []
    else ServicesAt(es[..|es| - 1], t) + if es[|es| - 1].timestamp == t then es[|es| - 1].serviceEstimates else []
  }

  /** The timestamps in the order of their first occurrence. */
  function FirstDates<T>(es: seq<EstimationResult<T>>): seq<int> {
    if es == [] then []
    else
      var rest := FirstDates(es[..|es| - 1]);
      if es[|es| - 1].timestamp in rest then rest else rest + [es[|es| - 1].timestamp]
  }

  function Grouped<T>(es: seq<EstimationResult<T>>, dates: seq<int>): seq<EstimationResult<T>> {
    seq(|dates|, i requires 0 <= i < |dates| => EstimationResult(dates[i], ServicesAt(es, dates[i])))
  }

  lemma {:induction false} FirstDatesFacts<T>(es: seq<EstimationResult<T>>)
    ensures forall i, j :: 0 <= i < j < |FirstDates(es)| ==> FirstDates(es)[i] != FirstDates(es)[j]
    ensures forall t :: t in FirstDates(es) <==> HasDate(es, t)
    ensures forall t :: !HasDate(es, t) ==> ServicesAt(es, t) == []
  {
    if es == [] {
    } else {
      var n := |es| - 1;
      FirstDatesFacts(es[..n]);
      forall t
        ensures HasDate(es, t) <==> HasDate(es[..n], t) || es[n].timestamp == t
      {
        if HasDate(es[..n], t) {
          var i :| 0 <= i < n && es[..n][i].timestamp == t;
          assert es[i].timestamp == t;
        }
      }
    }
  }

  lemma ServicesAtOneMore<T>(front: seq<EstimationResult<T>>, e: EstimationResult<T>, t: int)
    ensures ServicesAt(front + [e], t) == ServicesAt(front, t) + if e.timestamp == t then e.serviceEstimates else []
    ensures FirstDates(front + [e])
            == if e.timestamp in FirstDates(front) then FirstDates(front) else FirstDates(front) + [e.timestamp]
  {
    assert (front + [e])[..|front + [e]| - 1] == front;
  }

  lemma NewDateIsGrouped<T>(front: seq<EstimationResult<T>>, e: EstimationResult<T>)
    requires e.timestamp !in FirstDates(front)
    ensures Accumulate(Grouped(front, FirstDates(front)), e) == Grouped(front + [e], FirstDates(front + [e]))
  {
    var dates := FirstDates(front);
    var groups := Grouped(front, dates);
    assert forall j :: 0 <= j < |groups| ==> groups[j].timestamp == dates[j] && dates[j] in dates;
    assert FindDate(groups, e.timestamp) == |groups|;
    FirstDatesFacts(front);
    forall j | 0 <= j < |dates|
      ensures ServicesAt(front + [e], dates[j]) == ServicesAt(front, dates[j])
    {
      ServicesAtOneMore(front, e, dates[j]);
      assert dates[j] in dates;
    }
    ServicesAtOneMore(front, e, e.timestamp);
    assert [] + e.serviceEstimates == e.serviceEstimates;
    assert groups + [e] == Grouped(front + [e], dates + [e.timestamp]);
  }

  lemma OldDateIsGrouped<T>(front: seq<EstimationResult<T>>, e: EstimationResult<T>)
    requires e.timestamp in FirstDates(front)
    ensures Accumulate(Grouped(front, FirstDates(front)), e) == Grouped(front + [e], FirstDates(front + [e]))
  {
    var dates := FirstDates(front);
    var groups := Grouped(front, dates);
    var i := FindDate(groups, e.timestamp);
    FirstDatesFacts(front);
    var k :| 0 <= k < |dates| && dates[k] == e.timestamp;
    assert groups[k].timestamp == e.timestamp;
    assert groups[i].timestamp == dates[i] && i == k;
    ServicesAtOneMore(front, e, e.timestamp);
    var grouped := Grouped(front + [e], dates);
    forall j | 0 <= j < |dates|
      ensures grouped[j] ==
              if j == i then EstimationResult(e.timestamp, groups[i].serviceEstimates + e.serviceEstimates)
              else groups[j]
    {
      ServicesAtOneMore(front, e, dates[j]);
      assert ServicesAt(front, dates[j]) + [] == ServicesAt(front, dates[j]);
    }
    assert Accumulate(groups, e) == grouped;
  }

  /** The reduction has one entry per timestamp, in the order of first occurrence, with all service
      estimates of that timestamp in order. */
  lemma {:induction false} ReducedIsGrouped<T>(es: seq<EstimationResult<T>>)
    ensures Reduced(es) == Grouped(es, FirstDates(es))
  {
    if es == [] {
    } else {
      var front, e := es[..|es| - 1], es[|es| - 1];
      assert es == front + [e];
      ReducedIsGrouped(front);
      if e.timestamp in FirstDates(front) {
        OldDateIsGrouped(front, e);
      } else {
        NewDateIsGrouped(front, e);
      }
    }
  }

  lemma {:induction false} ServicesAtAppend<T>(a: seq<EstimationResult<T>>, b: seq<EstimationResult<T>>, t: int)
    ensures ServicesAt(a + b, t) == ServicesAt(a, t) + ServicesAt(b, t)
  {
    if b == [] {
      assert a + b == a;
    } else {
      assert (a + b)[..|a + b| - 1] == a + b[..|b| - 1];
      ServicesAtAppend(a, b[..|b| - 1], t);
    }
  }

  /** Adds to a list of dates those that are new. */
  function AddNew(ds: seq<int>, more: seq<int>): seq<int> {
    if more == [] then ds
    else
      var rest := AddNew(ds, more[..|more| - 1]);
      if more[|more| - 1] in rest then rest else rest + [more[|more| - 1]]
  }

  lemma {:induction false} FirstDatesAppend<T>(a: seq<EstimationResult<T>>, b: seq<EstimationResult<T>>)
    ensures FirstDates(a + b) == AddNew(FirstDates(a), FirstDates(b))
  {
    if b == [] {
      assert a + b == a;
    } else {
      assert (a + b)[..|a + b| - 1] == a + b[..|b| - 1];
      FirstDatesAppend(a, b[..|b| - 1]);
      AddNewMembers(FirstDates(a), FirstDates(b[..|b| - 1]));
      var rest, t := FirstDates(b[..|b| - 1]), b[|b| - 1].timestamp;
      if t !in rest {
        assert (rest + [t])[..|rest|] == rest;
      }
    }
  }

  lemma {:induction false} AddNewMembers(ds: seq<int>, more: seq<int>)
    ensures forall t :: t in AddNew(ds, more) <==> t in ds || t in more
  {
    if more == [] {
    } else {
      assert more == more[..|more| - 1] + [more[|more| - 1]];
      AddNewMembers(ds, more[..|more| - 1]);
    }
  }

  lemma DistinctLast<T>(es: seq<EstimationResult<T>>)
    requires Distinct(es) && es != []
    ensures var front, e := es[..|es| - 1], es[|es| - 1];
            Distinct(front) && !HasDate(front, e.timestamp) && es == front + [e]
  {}

  /** A list with distinct timestamps is its own list of groups. */
  lemma {:induction false} DistinctDates<T>(es: seq<EstimationResult<T>>)
    requires Distinct(es)
    ensures FirstDates(es) == Timestamps(es)
  {
    if es == [] {
    } else {
      var front, e := es[..|es| - 1], es[|es| - 1];
      DistinctLast(es);
      DistinctDates(front);
      FirstDatesFacts(front);
      assert Timestamps(es) == Timestamps(front) + [e.timestamp];
      ServicesAtOneMore(front, e, e.timestamp);
    }
  }

  lemma {:induction false} DistinctServices<T>(es: seq<EstimationResult<T>>, i: nat)
    requires Distinct(es) && i < |es|
    ensures ServicesAt(es, es[i].timestamp) == es[i].serviceEstimates
  {
    var front, e := es[..|es| - 1], es[|es| - 1];
    DistinctLast(es);
    ServicesAtOneMore(front, e, es[i].timestamp);
    if i == |es| - 1 {
      FirstDatesFacts(front);
      assert [] + e.serviceEstimates == e.serviceEstimates;
    } else {
      DistinctServices(front, i);
      assert front[i] == es[i];
    }
  }

  lemma ReducedDates<T>(es: seq<EstimationResult<T>>)
    ensures Distinct(Reduced(es)) && Timestamps(Reduced(es)) == FirstDates(es)
    ensures forall i :: 0 <= i < |FirstDates(es)| ==>
              Reduced(es)[i] == EstimationResult(FirstDates(es)[i], ServicesAt(es, FirstDates(es)[i]))
  {
    ReducedIsGrouped(es);
    FirstDatesFacts(es);
  }

  lemma ReducedServices<T>(es: seq<EstimationResult<T>>, t: int)
    ensures ServicesAt(Reduced(es), t) == ServicesAt(es, t)
  {
    var r, dates := Reduced(es), FirstDates(es);
    ReducedDates(es);
    FirstDatesFacts(es);
    if t in dates {
      var i :| 0 <= i < |dates| && dates[i] == t;
      DistinctServices(r, i);
    } else {
      DistinctDates(r);
      FirstDatesFacts(r);
    }
  }

  lemma ReducedFacts<T>(es: seq<EstimationResult<T>>)
    ensures Distinct(Reduced(es))
    ensures FirstDates(Reduced(es)) == FirstDates(es)
    ensures forall t :: ServicesAt(Reduced(es), t) == ServicesAt(es, t)
  {
    ReducedDates(es);
    DistinctDates(Reduced(es));
    forall t
      ensures ServicesAt(Reduced(es), t) == ServicesAt(es, t)
    {
      ReducedServices(es, t);
    }
  }

  /** Two lists with the same first dates and the same services at each reduce to the same list. */
  lemma SameGroups<T>(a: seq<EstimationResult<T>>, b: seq<EstimationResult<T>>)
    requires FirstDates(a) == FirstDates(b)
    requires forall t :: ServicesAt(a, t) == ServicesAt(b, t)
    ensures Reduced(a) == Reduced(b)
  {
    ReducedIsGrouped(a);
    ReducedIsGrouped(b);
  }

  /** Reducing in two stages is reducing once. */
  lemma ReductionIsAHomomorphism<T>(a: seq<EstimationResult<T>>, b: seq<EstimationResult<T>>)
    ensures Reduced(a + b) == Reduced(Reduced(a) + Reduced(b))
    ensures Reduced(Reduced(a)) == Reduced(a)
  {
    ReducedFacts(a);
    ReducedFacts(b);
    FirstDatesAppend(a, b);
    FirstDatesAppend(Reduced(a), Reduced(b));
    forall t
      ensures ServicesAt(a + b, t) == ServicesAt(Reduced(a) + Reduced(b), t)
    {
      ServicesAtAppend(a, b, t);
      ServicesAtAppend(Reduced(a), Reduced(b), t);
    }
    SameGroups(a + b, Reduced(a) + Reduced(b));
    SameGroups(Reduced(a), a);
  }

  // ----- Regions reduced and sorted first -----

  /** What a region hands over: its estimates reduced and sorted by time. */
  function RegionResults<T>(es: seq<EstimationResult<T>>): seq<EstimationResult<T>> {
    SortByTime(Reduced(es))
  }

  function AllRegionResults<T>(ess: seq<seq<EstimationResult<T>>>): seq<EstimationResult<T>> {
    if ess == [] then [] else AllRegionResults(ess[..|ess| - 1]) + RegionResults(ess[|ess| - 1])
  }

  lemma RegionResultsFacts<T>(es: seq<EstimationResult<T>>, t: int)
    ensures ServicesAt(RegionResults(es), t) == ServicesAt(es, t)
    ensures HasDate(RegionResults(es), t) <==> HasDate(es, t)
  {
    var r := Reduced(es);
    var s := SortByTime(r);
    ReducedFacts(es);
    FirstDatesFacts(es);
    FirstDatesFacts(r);
    SortDistinct(r);
    SortFacts(r, t);
    FirstDatesFacts(s);
    if HasDate(s, t) {
      var i :| 0 <= i < |s| && s[i].timestamp == t;
      var j :| 0 <= j < |r| && r[j].timestamp == t;
      AtUnique(s, i);
      AtUnique(r, j);
      DistinctServices(s, i);
      DistinctServices(r, j);
    }
  }

  /** Reducing and sorting each region before reducing everything loses, repeats and reorders nothing
      within a timestamp, and every timestamp is there once. */
  lemma {:induction false} RegionsThenAll<T>(ess: seq<seq<EstimationResult<T>>>, t: int)
    ensures ServicesAt(Reduced(AllRegionResults(ess)), t) == ServicesAt(Flatten(ess), t)
    ensures HasDate(Reduced(AllRegionResults(ess)), t) <==> HasDate(Flatten(ess), t)
    ensures Distinct(Reduced(AllRegionResults(ess)))
  {
    ReducedFacts(AllRegionResults(ess));
    FirstDatesFacts(AllRegionResults(ess));
    FirstDatesFacts(Reduced(AllRegionResults(ess)));
    RegionsAtOneDate(ess, t);
  }

  lemma {:induction false} RegionsAtOneDate<T>(ess: seq<seq<EstimationResult<T>>>, t: int)
    ensures ServicesAt(AllRegionResults(ess), t) == ServicesAt(Flatten(ess), t)
    ensures HasDate(AllRegionResults(ess), t) <==> HasDate(Flatten(ess), t)
  {
    if ess == [] {
    } else {
      var front, es := ess[..|ess| - 1], ess[|ess| - 1];
      RegionsAtOneDate(front, t);
      RegionResultsFacts(es, t);
      ServicesAtAppend(AllRegionResults(front), RegionResults(es), t);
      assert ess == front + [es];
      FlattenAppend(front, es);
      ServicesAtAppend(Flatten(front), es, t);
      AtAppend(AllRegionResults(front), RegionResults(es), t);
      AtAppend(Flatten(front), es, t);
    }
  }
}
