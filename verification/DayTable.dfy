/** The list of results that the estimators of all providers append to, with the
    entries of a day and of a service updated in place. */
module DayTable {
  import opened Billing
  import opened DayTableByFields
  import opened DayTableSpec
  import opened Numbers

  class MutableServiceEstimate {
    const cloudProvider: string
    const accountId: string
    const accountName: string
    const serviceName: string
    const region: string
    const tags: map<string, string>
    var kilowattHours: Num
    var co2e: Num
    var cost: Num
    var usesAverageCPUConstant: bool

    constructor (e: Entry)
      ensures View() == ServiceOf(e)
    {
      cloudProvider := e.row.cloudProvider;
      accountId := e.row.accountId;
      accountName := e.row.accountName;
      serviceName := e.row.serviceName;
      region := e.row.region;
      tags := e.row.tags;
      kilowattHours := e.estimate.kilowattHours;
      co2e := e.estimate.co2e;
      cost := Finite(e.row.cost);
      usesAverageCPUConstant := e.estimate.usesAverageCPUConstant;
    }

    function View(): ServiceView
      reads this
    {
      ServiceView(cloudProvider, accountId, accountName, serviceName, region, tags,
                  Amounts(kilowattHours, co2e, cost, usesAverageCPUConstant))
    }

    method HasSameKey(other: MutableServiceEstimate, tagNames: seq<string>) returns (same: bool)
      ensures same <==> KeyOf(View(), tagNames) == KeyOf(other.View(), tagNames)
      ensures same <==>
                && region == other.region
                && serviceName == other.serviceName
                && accountId == other.accountId
                && forall n :: n in tagNames ==>
                     (n in tags <==> n in other.tags) && (n in tags ==> tags[n] == other.tags[n])
    {
      TagValuesAgree(tags, other.tags, tagNames);
      if region != other.region || serviceName != other.serviceName || accountId != other.accountId {
        return false;
      }
      ghost var mine, others := TagValues(tags, tagNames), TagValues(other.tags, tagNames);
      for i := 0 to |tagNames|
        invariant forall m :: 0 <= m < i ==> mine[m] == others[m]
      {
        if TagValue(tags, tagNames[i]) != TagValue(other.tags, tagNames[i]) {
          assert mine[i] != others[i];
          return false;
        }
      }
      assert mine == others;
      return true;
    }

    method Accumulate(other: MutableServiceEstimate)
      requires other != this
      modifies this
      ensures View() == old(View()).(amounts := old(View()).amounts.Plus(other.View().amounts))
    {
      kilowattHours := kilowattHours.Plus(other.kilowattHours);
      co2e := co2e.Plus(other.co2e);
      cost := cost.Plus(other.cost);
      if other.usesAverageCPUConstant {
        usesAverageCPUConstant := usesAverageCPUConstant || other.usesAverageCPUConstant;
      }
    }
  }

  class MutableEstimationResult {
    const timestamp: int
    var serviceEstimates: seq<MutableServiceEstimate>
    /** The service estimates as values. */
    ghost var services: seq<ServiceView>
    ghost var Repr: set<object>

    /** Every service estimate is an object of its own, and the values are what the objects hold. */
    ghost predicate Valid()
      reads this, Repr
      ensures Valid() ==> this in Repr && |services| == |serviceEstimates|
    {
      && this in Repr
      && (forall a :: 0 <= a < |serviceEstimates| ==> serviceEstimates[a] in Repr)
      && (forall a, b :: 0 <= a < b < |serviceEstimates| ==> serviceEstimates[a] != serviceEstimates[b])
      && |services| == |serviceEstimates|
      && forall a :: 0 <= a < |serviceEstimates| ==> services[a] == serviceEstimates[a].View()
    }

    ghost function View(): DayView
      reads this
    {
      DayView(timestamp, services)
    }

    constructor (timestamp: int, service: MutableServiceEstimate)
      ensures Valid() && Repr == {this, service}
      ensures View() == DayView(timestamp, [service.View()])
    {
      this.timestamp := timestamp;
      serviceEstimates := [service];
      services := [service.View()];
      Repr := {this, service};
    }

    method FindService(s: MutableServiceEstimate, tagNames: seq<string>) returns (j: nat)
      requires Valid()
      ensures j == FindKey(services, KeyOf(s.View(), tagNames), tagNames)
    {
      j := 0;
      while j < |serviceEstimates|
        invariant j <= |serviceEstimates|
        invariant forall m :: 0 <= m < j ==> KeyOf(services[m], tagNames) != KeyOf(s.View(), tagNames)
      {
        var same := serviceEstimates[j].HasSameKey(s, tagNames);
        if same {
          return;
        }
        j := j + 1;
      }
    }

    method AccumulateAt(j: nat, s: MutableServiceEstimate)
      requires Valid() && s !in Repr && j < |serviceEstimates|
      modifies Repr
      ensures Valid() && Repr == old(Repr)
      ensures j < |old(services)|
      ensures var was := old(services)[j];
              services == old(services)[j := was.(amounts := was.amounts.Plus(s.View().amounts))]
    {
      serviceEstimates[j].Accumulate(s);
      services := services[j := services[j].(amounts := services[j].amounts.Plus(s.View().amounts))];
    }

    method Push(s: MutableServiceEstimate)
      requires Valid() && s !in Repr
      modifies this
      ensures Valid() && Repr == old(Repr) + {s}
      ensures services == old(services) + [s.View()]
    {
      serviceEstimates := serviceEstimates + [s];
      services := services + [s.View()];
      Repr := Repr + {s};
    }

    /** Adds an estimate to the service with its key, or appends it. */
    method AddToResult(s: MutableServiceEstimate, tagNames: seq<string>)
      requires Valid() && s !in Repr
      modifies Repr
      ensures Valid() && old(Repr) <= Repr <= old(Repr) + {s}
      ensures services == AddService(old(services), s.View(), tagNames)
    {
      var j := FindService(s, tagNames);
      if j < |serviceEstimates| {
        AccumulateAt(j, s);
      } else {
        Push(s);
      }
    }
  }

  class EstimateTable {
    var results: seq<MutableEstimationResult>
    /** The table as a value. */
    ghost var Contents: seq<DayView>
    ghost var Repr: set<object>

    ghost predicate Valid()
      reads this, Repr
      ensures Valid() ==> this in Repr && |results| == |Contents|
    {
      this in Repr && Separate() && Represented()
    }

    /** The days share no objects with each other or with the table. */
    ghost predicate Separate()
      reads this, Repr
    {
      && (forall i :: 0 <= i < |results| ==> results[i] in Repr && results[i].Repr <= Repr && this !in results[i].Repr)
      && (forall i, j :: 0 <= i < j < |results| ==> results[i].Repr !! results[j].Repr)
    }

    ghost predicate Represented()
      requires Separate()
      reads this, Repr
    {
      && |results| == |Contents|
      && forall i :: 0 <= i < |results| ==> results[i].Valid() && Contents[i] == results[i].View()
    }

    constructor ()
      ensures Valid() && fresh(Repr) && Contents == []
    {
      results, Contents := [], [];
      Repr := {this};
    }

    method FindResult(t: int) returns (i: nat)
      requires Valid()
      ensures i == FindDay(Contents, t)
    {
      i := 0;
      while i < |results| && results[i].timestamp != t
        invariant i <= |results|
        invariant forall j :: 0 <= j < i ==> Contents[j].timestamp != t
      {
        i := i + 1;
      }
      assert i < |results| ==> Contents[i].timestamp == t;
    }

    /** Adds to a day that is there. */
    method AddToDay(i: nat, s: MutableServiceEstimate, tagNames: seq<string>)
      requires Valid() && s !in Repr && i < |results|
      modifies Repr
      ensures Valid() && Repr == old(Repr) + {s}
      ensures var day := old(Contents)[i];
              Contents == old(Contents)[i := day.(services := AddService(day.services, s.View(), tagNames))]
    {
      ghost var before := Contents;
      ghost var ofDay := results[i].Repr;
      results[i].AddToResult(s, tagNames);
      forall m | 0 <= m < |results| && m != i
        ensures results[m].Repr !! ofDay && results[m].Valid() && results[m].View() == before[m]
      {
        assert results[m].Repr !! ofDay;
      }
      Contents := Contents[i := results[i].View()];
      Repr := Repr + {s};
    }

    /** Opens a new day. */
    method AddDay(day: MutableEstimationResult)
      requires Valid() && day.Valid() && day.Repr !! Repr
      modifies this
      ensures Valid() && Repr == old(Repr) + day.Repr
      ensures Contents == old(Contents) + [day.View()]
    {
      results := results + [day];
      Contents := Contents + [day.View()];
      Repr := Repr + day.Repr;
    }

    /** Adds one row's estimate to its day and service, or opens a new one for it. */
    method AppendOrAccumulate(e: Entry, tagNames: seq<string>)
      requires Valid()
      modifies Repr
      ensures Valid() && fresh(Repr - old(Repr))
      ensures Contents == AppendEntry(old(Contents), e, tagNames)
    {
      var service := new MutableServiceEstimate(e);
      var i := FindResult(e.row.timestamp);
      if i < |results| {
        AddToDay(i, service, tagNames);
      } else {
        var day := new MutableEstimationResult(e.row.timestamp, service);
        AddDay(day);
      }
    }
  }
}
