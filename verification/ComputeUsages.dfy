/** Building the compute usage of each hour from the measurements of a monitoring service. */
module ComputeUsages {
  import opened Folding
  import opened Watts

  datatype RawComputeUsage = RawComputeUsage(id: string, timestamp: string, value: real)

  datatype ComputeUsage = ComputeUsage(
    timestamp: string, cpuUtilizationAverage: real, vCpuHours: real, usesAverageCPUConstant: bool)

  const CPU_UTILIZATION := "cpuUtilization"
  const VCPUS := "vCPUs"

  // ----- What is known of a timestamp -----

  /** A measurement of zero counts as none. */
  predicate IsMeasurement(data: RawComputeUsage, t: string) {
    data.id == CPU_UTILIZATION && data.timestamp == t && data.value != 0.0
  }

  predicate IsHours(data: RawComputeUsage, t: string) {
    data.id == VCPUS && data.timestamp == t
  }

  function Measurements(raw: seq<RawComputeUsage>, t: string): seq<real> {
    if raw == [] then []
    else
      var rest, data := Measurements(raw[..|raw| - 1], t), raw[|raw| - 1];
      if IsMeasurement(data, t) then rest + [data.value] else rest
  }

  function ReportedHours(raw: seq<RawComputeUsage>, t: string): seq<real> {
    if raw == [] then []
    else
      var rest, data := ReportedHours(raw[..|raw| - 1], t), raw[|raw| - 1];
      if IsHours(data, t) then rest + [data.value] else rest
  }

  function LastOr(xs: seq<real>, default: real): real {
    if xs == [] then default else xs[|xs| - 1]
  }

  predicate IsRelevant(data: RawComputeUsage) {
    data.id == CPU_UTILIZATION || data.id == VCPUS
  }

  function AddHour(ts: seq<string>, t: string): seq<string> {
    if t in ts then ts else ts + [t]
  }

  /** The timestamps of the relevant records, in the order of their first occurrence. */
  function Hours(raw: seq<RawComputeUsage>): seq<string> {
    if raw == [] then []
    else
      var rest, data := Hours(raw[..|raw| - 1]), raw[|raw| - 1];
      if IsRelevant(data) then AddHour(rest, data.timestamp) else rest
  }

  function Usage(measurements: seq<real>, hours: real, t: string, avgCpuUtilization: real): ComputeUsage {
    ComputeUsage(t, if measurements != [] then Mean(measurements) else avgCpuUtilization, hours, measurements == [])
  }

  /** What a timestamp should come to. */
  function UsageAt(raw: seq<RawComputeUsage>, t: string, avgCpuUtilization: real): ComputeUsage {
    Usage(Measurements(raw, t), LastOr(ReportedHours(raw, t), 0.0), t, avgCpuUtilization)
  }

  function Positive(raw: seq<RawComputeUsage>, ts: seq<string>, avgCpuUtilization: real): seq<ComputeUsage> {
    if ts == [] then []
    else
      var rest := Positive(raw, ts[..|ts| - 1], avgCpuUtilization);
      var usage := UsageAt(raw, ts[|ts| - 1], avgCpuUtilization);
      if usage.vCpuHours > 0.0 then rest + [usage] else rest
  }

  // ----- The builders -----

  class ComputeUsageBuilder {
    const timestamp: string
    const avgCpuUtilization: real
    var cpuUtilizations: seq<real>
    var vCpuHours: real

    constructor (timestamp: string, avgCpuUtilization: real)
      ensures this.timestamp == timestamp && this.avgCpuUtilization == avgCpuUtilization
      ensures cpuUtilizations == [] && vCpuHours == 0.0
    {
      this.timestamp := timestamp;
      this.avgCpuUtilization := avgCpuUtilization;
      cpuUtilizations := [];
      vCpuHours := 0.0;
    }

    method AddCpuUtilization(cpuUtilization: real)
      modifies this`cpuUtilizations
      ensures cpuUtilizations == old(cpuUtilizations) + if cpuUtilization != 0.0 then [cpuUtilization] else []
    {
      if cpuUtilization != 0.0 {
        cpuUtilizations := cpuUtilizations + [cpuUtilization];
      }
    }

    method SetVCpuHours(vCpuHours: real)
      modifies this`vCpuHours
      ensures this.vCpuHours == vCpuHours
    {
      this.vCpuHours := vCpuHours;
    }

    method Build() returns (usage: ComputeUsage)
      ensures usage == Usage(cpuUtilizations, vCpuHours, timestamp, avgCpuUtilization)
      ensures usage.timestamp == timestamp && usage.vCpuHours == vCpuHours
      ensures cpuUtilizations != [] ==>
                usage.cpuUtilizationAverage * |cpuUtilizations| as real == SumOf(cpuUtilizations)
                && !usage.usesAverageCPUConstant
      ensures cpuUtilizations == [] ==>
                usage.cpuUtilizationAverage == avgCpuUtilization && usage.usesAverageCPUConstant
    {
      var hasMeasurements := |cpuUtilizations| > 0;
      var cpuUtilizationAverage := avgCpuUtilization;
      if hasMeasurements {
        var sum := cpuUtilizations[0];
        for i := 1 to |cpuUtilizations|
          invariant sum == SumOf(cpuUtilizations[..i])
        {
          assert cpuUtilizations[..i + 1][..i] == cpuUtilizations[..i];
          sum := sum + cpuUtilizations[i];
        }
        assert cpuUtilizations[..|cpuUtilizations|] == cpuUtilizations;
        cpuUtilizationAverage := sum / |cpuUtilizations| as real;
      }
      usage := ComputeUsage(timestamp, cpuUtilizationAverage, vCpuHours, !hasMeasurements);
    }
  }

  class GroupedComputeUsages {
    var builders: map<string, ComputeUsageBuilder>
    /** The keys of the map in the order in which they were added. */
    var timestamps: seq<string>

    /** Each of the timestamps has a builder of its own, which has been told all the records so far. */
    ghost predicate Holds(raw: seq<RawComputeUsage>, ts: seq<string>, avgCpuUtilization: real)
      reads this, builders.Values
    {
      && timestamps == ts
      && (forall t :: t in ts <==> t in builders)
      && forall t :: t in builders ==> HasBuilt(t, builders[t], raw, avgCpuUtilization)
    }

    constructor ()
      ensures builders == map[] && timestamps == []
    {
      builders := map[];
      timestamps := [];
    }

    method BuilderFor(t: string, avgCpuUtilization: real, ghost raw: seq<RawComputeUsage>)
      returns (builder: ComputeUsageBuilder)
      requires Holds(raw, Hours(raw), avgCpuUtilization)
      modifies this
      ensures Holds(raw, AddHour(Hours(raw), t), avgCpuUtilization)
      ensures t in builders && builders[t] == builder
      ensures fresh(builders.Values - old(builders.Values))
    {
      if t in builders {
        builder := builders[t];
      } else {
        NothingBefore(raw, t);
        builder := new ComputeUsageBuilder(t, avgCpuUtilization);
        ghost var before := builders;
        builders := builders[t := builder];
        timestamps := timestamps + [t];
        assert builders.Values <= before.Values + {builder};
        assert forall t' :: t' in builders ==>
            t' == t || (t' in before && HasBuilt(t', before[t'], raw, avgCpuUtilization));
      }
    }

    method MergeUsageByTimestamp(data: RawComputeUsage, avgCpuUtilization: real, ghost raw: seq<RawComputeUsage>)
      requires Holds(raw, Hours(raw), avgCpuUtilization)
      modifies this, builders.Values
      ensures Holds(raw + [data], Hours(raw + [data]), avgCpuUtilization)
      ensures fresh(builders.Values - old(builders.Values))
    {
      OneMore(raw, data);
      if IsRelevant(data) {
        var builder := BuilderFor(data.timestamp, avgCpuUtilization, raw);
        Tell(data, builder, avgCpuUtilization, raw);
      }
    }

    method Tell(data: RawComputeUsage, builder: ComputeUsageBuilder, avgCpuUtilization: real,
                ghost raw: seq<RawComputeUsage>)
      requires Holds(raw, timestamps, avgCpuUtilization) && IsRelevant(data)
      requires data.timestamp in builders && builders[data.timestamp] == builder
      modifies builder
      ensures Holds(raw + [data], timestamps, avgCpuUtilization)
    {
      OneMore(raw, data);
      assert forall t :: t in builders ==> HasBuilt(t, builders[t], raw, avgCpuUtilization);
      if data.id == CPU_UTILIZATION {
        builder.AddCpuUtilization(data.value);
      } else {
        builder.SetVCpuHours(data.value);
      }
      assert forall t :: t in builders ==> HasBuilt(t, builders[t], raw + [data], avgCpuUtilization);
    }
  }

  /** The builder of a timestamp has been told all the records. */
  ghost predicate HasBuilt(t: string, builder: ComputeUsageBuilder, raw: seq<RawComputeUsage>, avgCpuUtilization: real)
    reads builder
  {
    && builder.timestamp == t
    && builder.avgCpuUtilization == avgCpuUtilization
    && builder.cpuUtilizations == Measurements(raw, t)
    && builder.vCpuHours == LastOr(ReportedHours(raw, t), 0.0)
  }

  lemma OneMore(raw: seq<RawComputeUsage>, data: RawComputeUsage)
    ensures Hours(raw + [data]) == if IsRelevant(data) then AddHour(Hours(raw), data.timestamp) else Hours(raw)
    ensures forall t :: Measurements(raw + [data], t)
                        == Measurements(raw, t) + if IsMeasurement(data, t) then [data.value] else []
    ensures forall t :: LastOr(ReportedHours(raw + [data], t), 0.0)
                        == if IsHours(data, t) then data.value else LastOr(ReportedHours(raw, t), 0.0)
  {
    assert (raw + [data])[..|raw + [data]| - 1] == raw;
  }

  lemma {:induction false} NothingBefore(raw: seq<RawComputeUsage>, t: string)
    requires t !in Hours(raw)
    ensures Measurements(raw, t) == [] && ReportedHours(raw, t) == []
  {
    if raw == [] {
    } else {
      NothingBefore(raw[..|raw| - 1], t);
    }
  }

  /** Groups the records by timestamp and keeps the hours with virtual CPUs. */
  method BuildComputeUsages(raw: seq<RawComputeUsage>, avgCpuUtilization: real) returns (usages: seq<ComputeUsage>)
    ensures usages == Positive(raw, Hours(raw), avgCpuUtilization)
  {
    var grouped := new GroupedComputeUsages();
    for n := 0 to |raw|
      invariant fresh(grouped) && fresh(grouped.builders.Values)
      invariant grouped.Holds(raw[..n], Hours(raw[..n]), avgCpuUtilization)
    {
      assert raw[..n + 1] == raw[..n] + [raw[n]];
      grouped.MergeUsageByTimestamp(raw[n], avgCpuUtilization, raw[..n]);
    }
    assert raw[..|raw|] == raw;
    usages := [];
    var ts := grouped.timestamps;
    for n := 0 to |ts|
      invariant grouped.Holds(raw, ts, avgCpuUtilization)
      invariant usages == Positive(raw, ts[..n], avgCpuUtilization)
    {
      assert ts[..n + 1][..n] == ts[..n];
      assert ts[n] in ts;
      assert HasBuilt(ts[n], grouped.builders[ts[n]], raw, avgCpuUtilization);
      var usage := grouped.builders[ts[n]].Build();
      if usage.vCpuHours > 0.0 {
        usages := usages + [usage];
      }
    }
    assert ts[..|ts|] == ts;
  }

  // ----- What comes out -----

  lemma {:induction false} HoursFacts(raw: seq<RawComputeUsage>)
    ensures forall i, j :: 0 <= i < j < |Hours(raw)| ==> Hours(raw)[i] != Hours(raw)[j]
    ensures forall t :: ReportedHours(raw, t) != [] ==> t in Hours(raw)
  {
    if raw == [] {
    } else {
      HoursFacts(raw[..|raw| - 1]);
    }
  }

  lemma {:induction false} PositiveMembers(raw: seq<RawComputeUsage>, ts: seq<string>, avgCpuUtilization: real,
                                           usage: ComputeUsage)
    ensures usage in Positive(raw, ts, avgCpuUtilization) <==>
            usage.timestamp in ts && usage.vCpuHours > 0.0 && usage == UsageAt(raw, usage.timestamp, avgCpuUtilization)
  {
    if ts == [] {
    } else {
      assert ts == ts[..|ts| - 1] + [ts[|ts| - 1]];
      PositiveMembers(raw, ts[..|ts| - 1], avgCpuUtilization, usage);
    }
  }

  predicate DistinctUsages(us: seq<ComputeUsage>) {
    forall i, j :: 0 <= i < j < |us| ==> us[i].timestamp != us[j].timestamp
  }

  lemma {:induction false} PositiveIsDistinct(raw: seq<RawComputeUsage>, ts: seq<string>, avgCpuUtilization: real)
    requires forall i, j :: 0 <= i < j < |ts| ==> ts[i] != ts[j]
    ensures DistinctUsages(Positive(raw, ts, avgCpuUtilization))
  {
    if ts == [] {
    } else {
      var front := ts[..|ts| - 1];
      var rest := Positive(raw, front, avgCpuUtilization);
      PositiveIsDistinct(raw, front, avgCpuUtilization);
      forall i | 0 <= i < |rest|
        ensures rest[i].timestamp != ts[|ts| - 1]
      {
        PositiveMembers(raw, front, avgCpuUtilization, rest[i]);
      }
    }
  }

  /** Every timestamp whose last reported hours are positive is there, once, with the mean of its
      measurements or the constant; no other timestamp is. */
  lemma UsagesAreTheHours(raw: seq<RawComputeUsage>, avgCpuUtilization: real, t: string)
    ensures var us := Positive(raw, Hours(raw), avgCpuUtilization);
            && DistinctUsages(us)
            && (forall u :: u in us && u.timestamp == t ==> u == UsageAt(raw, t, avgCpuUtilization))
            && (UsageAt(raw, t, avgCpuUtilization) in us <==> LastOr(ReportedHours(raw, t), 0.0) > 0.0)
  {
    HoursFacts(raw);
    PositiveIsDistinct(raw, Hours(raw), avgCpuUtilization);
    forall u
      ensures u in Positive(raw, Hours(raw), avgCpuUtilization) <==>
              u.timestamp in Hours(raw) && u.vCpuHours > 0.0 && u == UsageAt(raw, u.timestamp, avgCpuUtilization)
    {
      PositiveMembers(raw, Hours(raw), avgCpuUtilization, u);
    }
  }

  // ----- What comes out, by the fields of the records -----

  /** How many records measure a timestamp. */
  function MeasurementCount(raw: seq<RawComputeUsage>, t: string): nat {
    if raw == [] then 0
    else
      var data := raw[|raw| - 1];
      MeasurementCount(raw[..|raw| - 1], t)
      + if data.id == "cpuUtilization" && data.timestamp == t && data.value != 0.0 then 1 else 0
  }

  /** What the values of those records add up to. */
  function MeasuredTotal(raw: seq<RawComputeUsage>, t: string): real {
    if raw == [] then 0.0
    else
      var data := raw[|raw| - 1];
      MeasuredTotal(raw[..|raw| - 1], t)
      + if data.id == "cpuUtilization" && data.timestamp == t then data.value else 0.0
  }

  /** The i-th record is the last to report hours for the timestamp. */
  predicate IsLastReport(raw: seq<RawComputeUsage>, t: string, i: nat)
    requires i < |raw|
  {
    && raw[i].id == "vCPUs" && raw[i].timestamp == t
    && forall j :: i < j < |raw| ==> !(raw[j].id == "vCPUs" && raw[j].timestamp == t)
  }

  lemma {:induction false} MeasurementsAddUp(raw: seq<RawComputeUsage>, t: string)
    ensures |Measurements(raw, t)| == MeasurementCount(raw, t)
    ensures SumOf(Measurements(raw, t)) == MeasuredTotal(raw, t)
  {
    if raw == [] {
    } else {
      MeasurementsAddUp(raw[..|raw| - 1], t);
      var rest, data := Measurements(raw[..|raw| - 1], t), raw[|raw| - 1];
      assert (rest + [data.value])[..|rest|] == rest;
    }
  }

  lemma {:induction false} LastReportDecides(raw: seq<RawComputeUsage>, t: string)
    ensures forall i :: 0 <= i < |raw| && IsLastReport(raw, t, i) ==>
              LastOr(ReportedHours(raw, t), 0.0) == raw[i].value
    ensures ReportedHours(raw, t) != [] ==> exists i :: 0 <= i < |raw| && IsLastReport(raw, t, i)
  {
    if raw == [] {
    } else {
      var n := |raw| - 1;
      LastReportDecides(raw[..n], t);
      if raw[n].id == "vCPUs" && raw[n].timestamp == t {
        assert IsLastReport(raw, t, n);
      } else {
        forall i | 0 <= i < n
          ensures IsLastReport(raw, t, i) <==> IsLastReport(raw[..n], t, i)
        {
          assert raw[..n][i] == raw[i];
          assert forall j :: i < j < n ==> raw[..n][j] == raw[j];
        }
      }
    }
  }

  /** The mean of the values measured for its timestamp, or else the constant. */
  predicate UtilizationFits(raw: seq<RawComputeUsage>, avgCpuUtilization: real, usage: ComputeUsage) {
    var count := MeasurementCount(raw, usage.timestamp);
    if count > 0 then
      IsMean(usage.cpuUtilizationAverage, MeasuredTotal(raw, usage.timestamp), count) && !usage.usesAverageCPUConstant
    else
      usage.cpuUtilizationAverage == avgCpuUtilization && usage.usesAverageCPUConstant
  }

  lemma UtilizationByFields(raw: seq<RawComputeUsage>, t: string, avgCpuUtilization: real)
    ensures UtilizationFits(raw, avgCpuUtilization, UsageAt(raw, t, avgCpuUtilization))
  {
    MeasurementsAddUp(raw, t);
    if Measurements(raw, t) != [] {
      MeanIsMean(Measurements(raw, t));
    }
  }

  /** A usage in the result has the mean of the values measured for its timestamp, or else the constant,
      and the positive hours of the last report for it. */
  lemma UsageByFields(raw: seq<RawComputeUsage>, avgCpuUtilization: real, usage: ComputeUsage) returns (i: nat)
    requires usage in Positive(raw, Hours(raw), avgCpuUtilization)
    ensures UtilizationFits(raw, avgCpuUtilization, usage)
    ensures i < |raw| && IsLastReport(raw, usage.timestamp, i) && usage.vCpuHours == raw[i].value > 0.0
  {
    PositiveMembers(raw, Hours(raw), avgCpuUtilization, usage);
    UtilizationByFields(raw, usage.timestamp, avgCpuUtilization);
    LastReportDecides(raw, usage.timestamp);
    i :| 0 <= i < |raw| && IsLastReport(raw, usage.timestamp, i);
  }

  /** Every timestamp whose last report is positive is in the result, and no timestamp is twice. */
  lemma EveryHourHasItsUsage(raw: seq<RawComputeUsage>, avgCpuUtilization: real, t: string, i: nat)
    requires i < |raw| && IsLastReport(raw, t, i)
    ensures var us := Positive(raw, Hours(raw), avgCpuUtilization);
            && (raw[i].value > 0.0 <==> exists u :: u in us && u.timestamp == t)
            && forall j, k :: 0 <= j < k < |us| ==> us[j].timestamp != us[k].timestamp
  {
    LastReportDecides(raw, t);
    UsagesAreTheHours(raw, avgCpuUtilization, t);
    var us, u := Positive(raw, Hours(raw), avgCpuUtilization), UsageAt(raw, t, avgCpuUtilization);
    assert u.timestamp == t && (u in us <==> raw[i].value > 0.0);
    forall j, k | 0 <= j < k < |us|
      ensures us[j].timestamp != us[k].timestamp
    {
      assert DistinctUsages(us);
    }
  }

  // ----- The order of the records -----

  datatype Tally = Tally(sum: real, count: nat)

  function TallyStep(t: string): (Tally, RawComputeUsage) -> Tally {
    (s: Tally, data: RawComputeUsage) => if IsMeasurement(data, t) then Tally(s.sum + data.value, s.count + 1) else s
  }

  lemma {:induction false} MeasurementsAreAFold(raw: seq<RawComputeUsage>, t: string)
    ensures Fold(TallyStep(t), Tally(0.0, 0), raw) == Tally(SumOf(Measurements(raw, t)), |Measurements(raw, t)|)
  {
    if raw == [] {
    } else {
      MeasurementsAreAFold(raw[..|raw| - 1], t);
      var rest, data := Measurements(raw[..|raw| - 1], t), raw[|raw| - 1];
      assert (rest + [data.value])[..|rest|] == rest;
    }
  }

  /** Records may come in any order, as long as the hours reported for a timestamp keep theirs. */
  lemma ReorderingKeepsUsage(raw: seq<RawComputeUsage>, raw': seq<RawComputeUsage>, t: string, avgCpuUtilization: real)
    requires multiset(raw) == multiset(raw')
    requires ReportedHours(raw, t) == ReportedHours(raw', t)
    ensures UsageAt(raw, t, avgCpuUtilization) == UsageAt(raw', t, avgCpuUtilization)
    ensures UsageAt(raw, t, avgCpuUtilization) in Positive(raw, Hours(raw), avgCpuUtilization)
            <==> UsageAt(raw', t, avgCpuUtilization) in Positive(raw', Hours(raw'), avgCpuUtilization)
  {
    MeasurementsAreAFold(raw, t);
    MeasurementsAreAFold(raw', t);
    var step := TallyStep(t);
    forall s, x, y
      ensures step(step(s, x), y) == step(step(s, y), x)
    {}
    FoldPermutation(step, Tally(0.0, 0), raw, raw');
    var ms, ms' := Measurements(raw, t), Measurements(raw', t);
    assert SumOf(ms) == SumOf(ms') && |ms| == |ms'|;
    UsagesAreTheHours(raw, avgCpuUtilization, t);
    UsagesAreTheHours(raw', avgCpuUtilization, t);
  }

  /** A measured utilization lies within its measurements, so that it is a percentage if they are. */
  lemma UtilizationStaysInRange(raw: seq<RawComputeUsage>, t: string, avgCpuUtilization: real, lo: real, hi: real)
    requires lo <= avgCpuUtilization <= hi
    requires forall data :: data in raw && IsMeasurement(data, t) ==> lo <= data.value <= hi
    ensures lo <= UsageAt(raw, t, avgCpuUtilization).cpuUtilizationAverage <= hi
  {
    MeasurementsWithin(raw, t, lo, hi);
    if Measurements(raw, t) != [] {
      MeanWithin(Measurements(raw, t), lo, hi);
    }
  }

  lemma {:induction false} MeasurementsWithin(raw: seq<RawComputeUsage>, t: string, lo: real, hi: real)
    requires forall data :: data in raw && IsMeasurement(data, t) ==> lo <= data.value <= hi
    ensures forall i :: 0 <= i < |Measurements(raw, t)| ==> lo <= Measurements(raw, t)[i] <= hi
  {
    if raw == [] {
    } else {
      assert raw[|raw| - 1] in raw;
      MeasurementsWithin(raw[..|raw| - 1], t, lo, hi);
    }
  }
}
