/** Saving a response: the rows are flattened, the dates of embodied metrics are advanced in place,
    and the rows replace what is stored for the window.  A date is an object that several metrics
    can share. */
module FootprintStore {
  import opened BackwardChunks
  import opened Options
  import opened StoreSpec

  class Date {
    var time: int

    constructor (time: int)
      ensures this.time == time
    {
      this.time := time;
    }

    /** Moves the date itself on by some days. */
    method AddDays(days: int)
      modifies this
      ensures time == old(time) + Days(days)
    {
      time := time + Days(days);
    }
  }

  datatype ServiceEstimate = ServiceEstimate(
    cloudProvider: string, serviceName: string, region: string, kilowattHours: real, co2e: real, cost: real,
    tags: Option<map<string, string>>)

  datatype Estimate = Estimate(timestamp: int, periodStartDate: int, periodEndDate: int,
                               serviceEstimates: seq<ServiceEstimate>)

  datatype EmbodiedMetric = EmbodiedMetric(
    timestamp: Date, region: string, serviceName: string, serviceType: string, co2e: real, kilowattHours: real)

  function OperationalFootprint(e: Estimate, s: ServiceEstimate, cloudConnectionId: string): CloudFootprint {
    CloudFootprint(cloudConnectionId, e.timestamp, e.periodStartDate, e.periodEndDate, OperationalMetrics,
                   s.cloudProvider, s.serviceName, None, s.region, s.kilowattHours, s.co2e, Some(s.cost), s.tags)
  }

  /** Timestamp, start and end of the period are one and the same date. */
  function EmbodiedFootprint(m: EmbodiedMetric, time: int, cloudConnectionId: string): CloudFootprint {
    CloudFootprint(cloudConnectionId, time, time, time, EmbodiedMetrics, "AWS",
                   m.serviceName, Some(m.serviceType), m.region, m.kilowattHours, m.co2e, None, None)
  }

  function ServiceRows(e: Estimate, services: seq<ServiceEstimate>, cloudConnectionId: string, nextId: nat): seq<Row> {
    seq(|services|, i requires 0 <= i < |services| =>
      Row(nextId + i, OperationalFootprint(e, services[i], cloudConnectionId)))
  }

  function OperationalRows(es: seq<Estimate>, cloudConnectionId: string, nextId: nat): seq<Row> {
    if es == [] then []
    else
      var rest := OperationalRows(es[..|es| - 1], cloudConnectionId, nextId);
      var e := es[|es| - 1];
      rest + ServiceRows(e, e.serviceEstimates, cloudConnectionId, nextId + |rest|)
  }

  /** How many of the first n metrics hold this very date. */
  function SharingAmong(metrics: seq<EmbodiedMetric>, n: nat, d: Date): nat
    requires n <= |metrics|
  {
    if n == 0 then 0 else SharingAmong(metrics, n - 1, d) + if metrics[n - 1].timestamp == d then 1 else 0
  }

  function Sharing(metrics: seq<EmbodiedMetric>, d: Date): nat {
    SharingAmong(metrics, |metrics|, d)
  }

  function Dates(metrics: seq<EmbodiedMetric>): set<Date> {
    set m | m in metrics :: m.timestamp
  }

  ghost function Times(metrics: seq<EmbodiedMetric>): (times: seq<int>)
    reads Dates(metrics)
    ensures |times| == |metrics|
    ensures forall i :: 0 <= i < |metrics| ==> times[i] == metrics[i].timestamp.time
  {
    seq(|metrics|, i requires 0 <= i < |metrics| reads Dates(metrics) => metrics[i].timestamp.time)
  }

  /** Where the dates end up: each is advanced once for every metric that holds it. */
  function Advanced(metrics: seq<EmbodiedMetric>, times: seq<int>): seq<int>
    requires |times| == |metrics|
  {
    seq(|metrics|, i requires 0 <= i < |metrics| => times[i] + Days(Sharing(metrics, metrics[i].timestamp)))
  }

  lemma AdvancedByIndex(metrics: seq<EmbodiedMetric>, was: seq<int>, now: seq<int>)
    requires |was| == |metrics| == |now|
    requires forall i :: 0 <= i < |metrics| ==> now[i] == was[i] + Days(Sharing(metrics, metrics[i].timestamp))
    ensures now == Advanced(metrics, was)
  {}

  function EmbodiedRows(metrics: seq<EmbodiedMetric>, times: seq<int>, cloudConnectionId: string, nextId: nat): seq<Row>
    requires |times| == |metrics|
  {
    seq(|metrics|, i requires 0 <= i < |metrics| =>
      Row(nextId + i, EmbodiedFootprint(metrics[i], times[i], cloudConnectionId)))
  }

  /** The rows of one save, given what the dates showed when it was called. */
  function SavedRows(es: seq<Estimate>, metrics: seq<EmbodiedMetric>, times: seq<int>, cloudConnectionId: string,
                     nextId: nat): seq<Row>
    requires |times| == |metrics|
  {
    var operational := OperationalRows(es, cloudConnectionId, nextId);
    operational + EmbodiedRows(metrics, Advanced(metrics, times), cloudConnectionId, nextId + |operational|)
  }

  lemma SavedRowsParts(es: seq<Estimate>, metrics: seq<EmbodiedMetric>, times: seq<int>, cloudConnectionId: string,
                       nextId: nat,
                       firstId: nat, operational: seq<Row>, advanced: seq<int>, embodied: seq<Row>)
    requires |times| == |metrics| == |advanced|
    requires operational == OperationalRows(es, cloudConnectionId, nextId) && advanced == Advanced(metrics, times)
    requires firstId == nextId + |operational|
    requires embodied == EmbodiedRows(metrics, advanced, cloudConnectionId, firstId)
    ensures operational + embodied == SavedRows(es, metrics, times, cloudConnectionId, nextId)
  {}

  /** The number of service estimates of a response. */
  function ServiceCount(es: seq<Estimate>): nat {
    if es == [] then 0 else ServiceCount(es[..|es| - 1]) + |es[|es| - 1].serviceEstimates|
  }

  lemma {:induction false} OperationalRowsCount(es: seq<Estimate>, cloudConnectionId: string, nextId: nat)
    ensures |OperationalRows(es, cloudConnectionId, nextId)| == ServiceCount(es)
  {
    if es == [] {
    } else {
      OperationalRowsCount(es[..|es| - 1], cloudConnectionId, nextId);
    }
  }

  /** A response has a row for each of its service estimates and each of its embodied metrics. */
  lemma SavedRowsCount(es: seq<Estimate>, metrics: seq<EmbodiedMetric>, times: seq<int>, cloudConnectionId: string,
                       nextId: nat)
    requires |times| == |metrics|
    ensures |SavedRows(es, metrics, times, cloudConnectionId, nextId)| == ServiceCount(es) + |metrics|
  {
    OperationalRowsCount(es, cloudConnectionId, nextId);
  }

  // ----- The stored rows field by field -----

  /** The row of a service estimate takes over the dates of its estimate and every field of its own. */
  predicate IsServiceRow(r: CloudFootprint, e: Estimate, s: ServiceEstimate, cloudConnectionId: string) {
    && r.cloudConnectionId == cloudConnectionId
    && r.timestamp == e.timestamp
    && r.periodStartDate == e.periodStartDate
    && r.periodEndDate == e.periodEndDate
    && r.kind == OperationalMetrics
    && r.cloudProvider == s.cloudProvider
    && r.serviceName == s.serviceName
    && r.serviceType == None
    && r.region == s.region
    && r.kilowattHours == s.kilowattHours
    && r.co2e == s.co2e
    && r.cost == Some(s.cost)
    && r.tags == s.tags
  }

  /** The row of an embodied metric takes over its fields, with one date for all three. */
  predicate IsMetricRow(r: CloudFootprint, m: EmbodiedMetric, time: int, cloudConnectionId: string) {
    && r.cloudConnectionId == cloudConnectionId
    && r.timestamp == r.periodStartDate == r.periodEndDate == time
    && r.kind == EmbodiedMetrics
    && r.cloudProvider == "AWS"
    && r.serviceName == m.serviceName
    && r.serviceType == Some(m.serviceType)
    && r.region == m.region
    && r.kilowattHours == m.kilowattHours
    && r.co2e == m.co2e
    && r.cost == None
    && r.tags == None
  }

  /** Estimate by estimate and service by service, each has its row in order, with the next id. */
  lemma {:induction false} OperationalRowFields(es: seq<Estimate>, cloudConnectionId: string, nextId: nat,
                                                i: nat, j: nat)
    requires i < |es| && j < |es[i].serviceEstimates|
    ensures var rows, n := OperationalRows(es, cloudConnectionId, nextId), ServiceCount(es[..i]) + j;
            && n < |rows| && rows[n].id == nextId + n
            && IsServiceRow(rows[n].data, es[i], es[i].serviceEstimates[j], cloudConnectionId)
  {
    var front := es[..|es| - 1];
    OperationalRowsCount(es, cloudConnectionId, nextId);
    OperationalRowsCount(front, cloudConnectionId, nextId);
    if i < |es| - 1 {
      OperationalRowFields(front, cloudConnectionId, nextId, i, j);
      assert front[..i] == es[..i];
    }
  }

  /** The rows of a save: first those of the service estimates, in order. */
  lemma SavedServiceRow(es: seq<Estimate>, metrics: seq<EmbodiedMetric>, times: seq<int>, cloudConnectionId: string,
                        nextId: nat, i: nat, j: nat)
    requires |times| == |metrics| && i < |es| && j < |es[i].serviceEstimates|
    ensures var saved, n := SavedRows(es, metrics, times, cloudConnectionId, nextId), ServiceCount(es[..i]) + j;
            && n < ServiceCount(es) <= |saved|
            && IsServiceRow(saved[n].data, es[i], es[i].serviceEstimates[j], cloudConnectionId)
  {
    OperationalRowsCount(es, cloudConnectionId, nextId);
    OperationalRowFields(es, cloudConnectionId, nextId, i, j);
  }

  /** Then one for each metric, in order, with its date moved on by 86,400,000 ms for each metric that
      shares it; and no others. */
  lemma SavedMetricRow(es: seq<Estimate>, metrics: seq<EmbodiedMetric>, times: seq<int>, cloudConnectionId: string,
                       nextId: nat, k: nat)
    requires |times| == |metrics| && k < |metrics|
    ensures var saved := SavedRows(es, metrics, times, cloudConnectionId, nextId);
            && |saved| == ServiceCount(es) + |metrics|
            && IsMetricRow(saved[ServiceCount(es) + k].data, metrics[k],
                           times[k] + 86_400_000 * Sharing(metrics, metrics[k].timestamp), cloudConnectionId)
  {
    SavedRowsCount(es, metrics, times, cloudConnectionId, nextId);
    OperationalRowsCount(es, cloudConnectionId, nextId);
  }

  lemma SavedRowsAreOwn(es: seq<Estimate>, metrics: seq<EmbodiedMetric>, times: seq<int>,
                        cloudConnectionId: string, nextId: nat)
    requires |times| == |metrics|
    ensures forall r :: r in SavedRows(es, metrics, times, cloudConnectionId, nextId) ==>
              r.data.cloudConnectionId == cloudConnectionId
  {
    OperationalRowsKeepDates(es, cloudConnectionId, nextId);
  }

  lemma {:induction false} SharingAtLeastOne(metrics: seq<EmbodiedMetric>, n: nat, i: nat)
    requires i < n <= |metrics|
    ensures SharingAmong(metrics, n, metrics[i].timestamp) >= 1
  {
    if i < n - 1 {
      SharingAtLeastOne(metrics, n - 1, i);
    }
  }

  class Database {
    var rows: seq<Row>
    var nextId: nat

    constructor ()
      ensures rows == []
    {
      rows := [];
      nextId := 0;
    }

    method FlattenEstimates(es: seq<Estimate>, cloudConnectionId: string) returns (flattened: seq<Row>)
      modifies this`nextId
      ensures flattened == OperationalRows(es, cloudConnectionId, old(nextId))
      ensures nextId == old(nextId) + |flattened|
    {
      flattened := [];
      for i := 0 to |es|
        invariant flattened == OperationalRows(es[..i], cloudConnectionId, old(nextId))
        invariant nextId == old(nextId) + |flattened|
      {
        var services := es[i].serviceEstimates;
        ghost var before := flattened;
        for j := 0 to |services|
          invariant flattened == before + ServiceRows(es[i], services[..j], cloudConnectionId, old(nextId) + |before|)
          invariant nextId == old(nextId) + |flattened|
        {
          flattened := flattened + [Row(nextId, OperationalFootprint(es[i], services[j], cloudConnectionId))];
          nextId := nextId + 1;
        }
        assert services[..|services|] == services;
        assert es[..i + 1][..i] == es[..i];
      }
      assert es[..|es|] == es;
    }

    /** Advances the date of each metric in turn, and a shared date again and again. */
    static method AdvanceDates(metrics: seq<EmbodiedMetric>)
      modifies Dates(metrics)
      ensures Times(metrics) == Advanced(metrics, old(Times(metrics)))
    {
      ghost var was := Times(metrics);
      for i := 0 to |metrics|
        invariant forall j :: 0 <= j < |metrics| ==>
          metrics[j].timestamp.time == was[j] + Days(SharingAmong(metrics, i, metrics[j].timestamp))
      {
        assert metrics[i] in metrics;
        metrics[i].timestamp.AddDays(1);
      }
      AdvancedByIndex(metrics, was, Times(metrics));
    }

    /** The flattened rows hold the date objects; what these show is read when the rows are inserted,
        after all dates have been advanced. */
    method ReadEmbodiedRows(metrics: seq<EmbodiedMetric>, cloudConnectionId: string) returns (embodied: seq<Row>)
      modifies this`nextId
      ensures embodied == EmbodiedRows(metrics, Times(metrics), cloudConnectionId, old(nextId))
      ensures nextId == old(nextId) + |metrics|
    {
      embodied := [];
      for i := 0 to |metrics|
        invariant |embodied| == i && nextId == old(nextId) + i
        invariant forall j :: 0 <= j < i ==>
          embodied[j] == Row(old(nextId) + j,
                             EmbodiedFootprint(metrics[j], metrics[j].timestamp.time, cloudConnectionId))
      {
        var m := metrics[i];
        embodied := embodied + [Row(nextId, EmbodiedFootprint(m, m.timestamp.time, cloudConnectionId))];
        nextId := nextId + 1;
      }
    }

    /** The transaction: deletes the rows of the window and inserts the new ones, if there are any. */
    method ReplaceWindow(op: Save)
      modifies this`rows
      ensures rows == Apply(old(rows), op)
      ensures rows == if op.rows == [] then old(rows)
                      else Outside(old(rows), op.cloudConnectionId, op.startDate, op.endDate) + op.rows
    {
      SaveInFields(rows, op);
      if |op.rows| > 0 {
        rows := Surviving(rows, [op]) + op.rows;
      }
    }

    /** Saves a response for a connection and a window of dates, and returns how many rows it had; none if
        the transaction fails, in which case the dates have been advanced all the same. */
    method SaveFootprintResponse(es: seq<Estimate>, metrics: seq<EmbodiedMetric>, cloudConnectionId: string,
                                 startDate: int, endDate: int, commits: bool)
      returns (count: Option<nat>)
      modifies this, Dates(metrics)
      ensures var saved := SavedRows(es, metrics, old(Times(metrics)), cloudConnectionId, old(nextId));
              && rows == (if commits then Apply(old(rows), Save(cloudConnectionId, startDate, endDate, saved))
                          else old(rows))
              && (count.Some? <==> commits || saved == [])
      ensures OfOthers(rows, cloudConnectionId) == OfOthers(old(rows), cloudConnectionId)
      ensures count.Some? ==> count.value == ServiceCount(es) + |metrics|
      ensures Times(metrics) == Advanced(metrics, old(Times(metrics)))
    {
      ghost var was := Times(metrics);
      var operational := FlattenEstimates(es, cloudConnectionId);
      AdvanceDates(metrics);
      ghost var advanced := Times(metrics);
      ghost var firstId := nextId;
      var embodied := ReadEmbodiedRows(metrics, cloudConnectionId);
      assert Times(metrics) == advanced;
      assert embodied == EmbodiedRows(metrics, advanced, cloudConnectionId, firstId);
      SavedRowsParts(es, metrics, was, cloudConnectionId, old(nextId), firstId, operational, advanced, embodied);
      SavedRowsCount(es, metrics, was, cloudConnectionId, old(nextId));
      SavedRowsAreOwn(es, metrics, was, cloudConnectionId, old(nextId));
      var flattened := operational + embodied;
      if |flattened| > 0 {
        if !commits {
          return None;
        }
        SaveKeepsOtherConnections(rows, Save(cloudConnectionId, startDate, endDate, flattened));
        ReplaceWindow(Save(cloudConnectionId, startDate, endDate, flattened));
      }
      count := Some(|flattened|);
    }
  }

  // ----- What is wrong with embodied rows -----

  /** No stored row of an embodied metric has the metric's own timestamp or a period of any length:
      each is a day or more late. */
  lemma EmbodiedRowsAreLate(metrics: seq<EmbodiedMetric>, times: seq<int>, cloudConnectionId: string, i: nat)
    requires |times| == |metrics| && i < |metrics|
    ensures var r := SavedRows([], metrics, times, cloudConnectionId, 0)[i].data;
            && r.timestamp == times[i] + Days(Sharing(metrics, metrics[i].timestamp)) >= times[i] + DAY
            && r.periodStartDate == r.periodEndDate == r.timestamp
  {
    SharingAtLeastOne(metrics, |metrics|, i);
  }

  /** Two metrics of one day that share its date are stored two days late; saved twice for a window of
      a day they are stored twice. */
  lemma TwoMetricsOfADay(m: EmbodiedMetric, m': EmbodiedMetric, t: int, cloudConnectionId: string)
    requires m.timestamp == m'.timestamp
    ensures var op := Save(cloudConnectionId, t, t + DAY, SavedRows([], [m, m'], [t, t], cloudConnectionId, 0));
            var again := Save(cloudConnectionId, t, t + DAY, SavedRows([], [m, m'], [t, t], cloudConnectionId, 2));
            && (forall r :: r in op.rows ==> r.data.timestamp == t + Days(2))
            && Apply(Apply([], op), again) == op.rows + again.rows
  {
    var metrics, times := [m, m'], [t, t];
    var op := Save(cloudConnectionId, t, t + DAY, SavedRows([], metrics, times, cloudConnectionId, 0));
    var again := Save(cloudConnectionId, t, t + DAY, SavedRows([], metrics, times, cloudConnectionId, 2));
    assert SharingAmong(metrics, 1, m.timestamp) == 1;
    assert Sharing(metrics, m.timestamp) == 2;
    assert op.rows == EmbodiedRows(metrics, Advanced(metrics, times), cloudConnectionId, 0);
    forall r | r in op.rows
      ensures r.data.timestamp == t + Days(2) && Survives(r, [again])
    {}
    SurvivingLength(op.rows, [again]);
    assert [] + op.rows == op.rows;
  }

  lemma {:induction false} OperationalRowsKeepDates(es: seq<Estimate>, cloudConnectionId: string, nextId: nat)
    ensures forall r :: r in OperationalRows(es, cloudConnectionId, nextId) ==>
              && r.data.cloudConnectionId == cloudConnectionId
              && exists e :: e in es && e.serviceEstimates != [] && r.data.timestamp == e.timestamp
  {
    if es == [] {
    } else {
      var front, e := es[..|es| - 1], es[|es| - 1];
      assert es == front + [e];
      OperationalRowsKeepDates(front, cloudConnectionId, nextId);
    }
  }

  /** Saving the same response again leaves one copy exactly when all of its rows fall into the
      window: its estimates by their own dates, its metrics by their dates advanced once for every
      metric of the response that shares the date. */
  lemma RepeatedResponse(stored: seq<Row>, es: seq<Estimate>, metrics: seq<EmbodiedMetric>, times: seq<int>,
                         cloudConnectionId: string, startDate: int, endDate: int, firstId: nat, secondId: nat)
    requires |times| == |metrics|
    ensures var op := Save(cloudConnectionId, startDate, endDate,
                           SavedRows(es, metrics, times, cloudConnectionId, firstId));
            var again := Save(cloudConnectionId, startDate, endDate,
                              SavedRows(es, metrics, times, cloudConnectionId, secondId));
            Data(Apply(Apply(stored, op), again)) == Data(Apply(stored, op)) <==>
              && (forall e :: e in es && e.serviceEstimates != [] ==> startDate <= e.timestamp <= endDate)
              && (forall i :: 0 <= i < |metrics| ==>
                    startDate <= times[i] + Days(Sharing(metrics, metrics[i].timestamp)) <= endDate)
  {
    var op := Save(cloudConnectionId, startDate, endDate, SavedRows(es, metrics, times, cloudConnectionId, firstId));
    var again := Save(cloudConnectionId, startDate, endDate,
                      SavedRows(es, metrics, times, cloudConnectionId, secondId));
    IdsDoNotMatter(es, metrics, times, cloudConnectionId, firstId, secondId);
    RepeatedSave(stored, op, again);
    WhenRowsStayInWindow(es, metrics, times, op, firstId);
  }

  lemma WhenRowsStayInWindow(es: seq<Estimate>, metrics: seq<EmbodiedMetric>, times: seq<int>, op: Save, firstId: nat)
    requires |times| == |metrics|
    requires op.rows == SavedRows(es, metrics, times, op.cloudConnectionId, firstId)
    ensures StaysInWindow(op) <==>
              && (forall e :: e in es && e.serviceEstimates != [] ==> op.startDate <= e.timestamp <= op.endDate)
              && (forall i :: 0 <= i < |metrics| ==>
                    op.startDate <= times[i] + Days(Sharing(metrics, metrics[i].timestamp)) <= op.endDate)
  {
    var operational := OperationalRows(es, op.cloudConnectionId, firstId);
    var embodied := EmbodiedRows(metrics, Advanced(metrics, times), op.cloudConnectionId, firstId + |operational|);
    assert op.rows == operational + embodied;
    OperationalRowsKeepDates(es, op.cloudConnectionId, firstId);
    forall e | e in es && e.serviceEstimates != [] && StaysInWindow(op)
      ensures op.startDate <= e.timestamp <= op.endDate
    {
      EveryEstimateIsSaved(es, e, op.cloudConnectionId, firstId);
      var r :| r in operational && r.data.timestamp == e.timestamp;
      assert r in op.rows;
    }
    forall i | 0 <= i < |metrics|
      ensures embodied[i] in op.rows && embodied[i].data.cloudConnectionId == op.cloudConnectionId
      ensures embodied[i].data.timestamp == times[i] + Days(Sharing(metrics, metrics[i].timestamp))
    {}
    forall r | r in embodied
      ensures exists i :: 0 <= i < |metrics| && r == embodied[i]
    {}
  }

  lemma {:induction false} EveryEstimateIsSaved(es: seq<Estimate>, e: Estimate, cloudConnectionId: string, nextId: nat)
    requires e in es && e.serviceEstimates != []
    ensures exists r :: r in OperationalRows(es, cloudConnectionId, nextId) && r.data.timestamp == e.timestamp
  {
    var front, last := es[..|es| - 1], es[|es| - 1];
    assert es == front + [last];
    var rest := OperationalRows(front, cloudConnectionId, nextId);
    if e in front {
      EveryEstimateIsSaved(front, e, cloudConnectionId, nextId);
      var r :| r in rest && r.data.timestamp == e.timestamp;
      assert r in OperationalRows(es, cloudConnectionId, nextId);
    } else {
      var added := ServiceRows(last, last.serviceEstimates, cloudConnectionId, nextId + |rest|);
      assert added[0] in OperationalRows(es, cloudConnectionId, nextId) && added[0].data.timestamp == e.timestamp;
    }
  }

  lemma {:induction false} OperationalIdsDoNotMatter(es: seq<Estimate>, cloudConnectionId: string, a: nat, b: nat)
    ensures Data(OperationalRows(es, cloudConnectionId, a)) == Data(OperationalRows(es, cloudConnectionId, b))
    ensures |OperationalRows(es, cloudConnectionId, a)| == |OperationalRows(es, cloudConnectionId, b)|
  {
    if es == [] {
    } else {
      var front, e := es[..|es| - 1], es[|es| - 1];
      OperationalIdsDoNotMatter(front, cloudConnectionId, a, b);
      var ra, rb := OperationalRows(front, cloudConnectionId, a), OperationalRows(front, cloudConnectionId, b);
      var sa, sb := ServiceRows(e, e.serviceEstimates, cloudConnectionId, a + |ra|),
                    ServiceRows(e, e.serviceEstimates, cloudConnectionId, b + |rb|);
      DataAppend(ra, sa);
      DataAppend(rb, sb);
      assert Data(sa) == Data(sb);
    }
  }

  lemma IdsDoNotMatter(es: seq<Estimate>, metrics: seq<EmbodiedMetric>, times: seq<int>, cloudConnectionId: string,
                       a: nat, b: nat)
    requires |times| == |metrics|
    ensures Data(SavedRows(es, metrics, times, cloudConnectionId, a))
        == Data(SavedRows(es, metrics, times, cloudConnectionId, b))
  {
    OperationalIdsDoNotMatter(es, cloudConnectionId, a, b);
    var oa, ob := OperationalRows(es, cloudConnectionId, a), OperationalRows(es, cloudConnectionId, b);
    var ea, eb := EmbodiedRows(metrics, Advanced(metrics, times), cloudConnectionId, a + |oa|),
                  EmbodiedRows(metrics, Advanced(metrics, times), cloudConnectionId, b + |ob|);
    DataAppend(oa, ea);
    DataAppend(ob, eb);
    assert Data(ea) == Data(eb);
  }
}
