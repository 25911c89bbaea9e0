/** The table of estimates by day in terms of the fields of its rows. */
module DayTableByFields {
  import opened Billing
  import opened DayTableSpec
  import opened Numbers
  import opened Options

  // ----- Which rows a sum is over -----

  /** The same tags of those that count: both have the tag with one value, or neither has it. */
  predicate SameTags(a: map<string, string>, b: map<string, string>, tagNames: seq<string>) {
    forall n :: n in tagNames ==> (n in a <==> n in b) && (n in a ==> a[n] == b[n])
  }

  /** All rows, or those of a day that agree with a service estimate. */
  datatype Selection = Everything | Agreeing(timestamp: int, service: ServiceView, tagNames: seq<string>)

  predicate Selected(row: BillingDataRow, sel: Selection) {
    match sel
    case Everything => true
    case Agreeing(t, s, tagNames) =>
      && row.timestamp == t
      && row.region == s.region
      && row.serviceName == s.serviceName
      && row.accountId == s.accountId
      && SameTags(row.tags, s.tags, tagNames)
  }

  // ----- Plain sums of fields -----

  function CostOf(log: seq<Entry>, sel: Selection): real {
    if log == [] then 0.0
    else
      var e := log[|log| - 1];
      CostOf(log[..|log| - 1], sel) + if Selected(e.row, sel) then e.row.cost else 0.0
  }

  /** The value of a number; a value that is no number is dealt with on its own. */
  function ValueOr0(n: Num): real {
    match n
    case Finite(v) => v
    case NonFinite => 0.0
  }

  function EnergyOf(log: seq<Entry>, sel: Selection): real {
    if log == [] then 0.0
    else
      var e := log[|log| - 1];
      EnergyOf(log[..|log| - 1], sel) + if Selected(e.row, sel) then ValueOr0(e.estimate.kilowattHours) else 0.0
  }

  function CarbonOf(log: seq<Entry>, sel: Selection): real {
    if log == [] then 0.0
    else
      var e := log[|log| - 1];
      CarbonOf(log[..|log| - 1], sel) + if Selected(e.row, sel) then ValueOr0(e.estimate.co2e) else 0.0
  }

  predicate EnergyIsLost(log: seq<Entry>, sel: Selection) {
    exists e :: e in log && Selected(e.row, sel) && e.estimate.kilowattHours.NonFinite?
  }

  predicate CarbonIsLost(log: seq<Entry>, sel: Selection) {
    exists e :: e in log && Selected(e.row, sel) && e.estimate.co2e.NonFinite?
  }

  predicate UsesConstant(log: seq<Entry>, sel: Selection) {
    exists e :: e in log && Selected(e.row, sel) && e.estimate.usesAverageCPUConstant
  }

  /** The amounts are the sums over the selected rows, field by field, with a flag that says whether one of
      them has it; a single value that is no number spoils its sum. */
  ghost predicate SumsOf(a: Amounts, log: seq<Entry>, sel: Selection) {
    && a.cost == Finite(CostOf(log, sel))
    && a.kilowattHours == (if EnergyIsLost(log, sel) then NonFinite else Finite(EnergyOf(log, sel)))
    && a.co2e == (if CarbonIsLost(log, sel) then NonFinite else Finite(CarbonOf(log, sel)))
    && (a.usesAverageCPUConstant <==> UsesConstant(log, sel))
  }

  lemma SpoiltOneMore(front: seq<Entry>, e: Entry, sel: Selection)
    ensures EnergyIsLost(front + [e], sel) <==>
            EnergyIsLost(front, sel) || (Selected(e.row, sel) && e.estimate.kilowattHours.NonFinite?)
    ensures CarbonIsLost(front + [e], sel) <==>
            CarbonIsLost(front, sel) || (Selected(e.row, sel) && e.estimate.co2e.NonFinite?)
    ensures UsesConstant(front + [e], sel) <==>
            UsesConstant(front, sel) || (Selected(e.row, sel) && e.estimate.usesAverageCPUConstant)
  {
    var log := front + [e];
    assert forall x :: x in log <==> x in front || x == e;
  }

  lemma SumsOneMore(a: Amounts, front: seq<Entry>, e: Entry, sel: Selection)
    requires SumsOf(a, front, sel)
    ensures SumsOf(if Selected(e.row, sel) then a.Plus(EntryAmounts(e)) else a, front + [e], sel)
  {
    assert (front + [e])[..|front + [e]| - 1] == front;
    SpoiltOneMore(front, e, sel);
  }

  // ----- Groups in terms of fields -----

  lemma TagValuesAgree(a: map<string, string>, b: map<string, string>, tagNames: seq<string>)
    ensures TagValues(a, tagNames) == TagValues(b, tagNames) <==> SameTags(a, b, tagNames)
  {
    var va, vb := TagValues(a, tagNames), TagValues(b, tagNames);
    if va == vb {
      forall n | n in tagNames
        ensures (n in a <==> n in b) && (n in a ==> a[n] == b[n])
      {
        var i :| 0 <= i < |tagNames| && tagNames[i] == n;
        assert va[i] == vb[i];
      }
    }
  }

  lemma InGroupIsSelected(e: Entry, t: int, s: ServiceView, tagNames: seq<string>)
    ensures InGroup(e, t, KeyOf(s, tagNames), tagNames) <==> Selected(e.row, Agreeing(t, s, tagNames))
  {
    TagValuesAgree(e.row.tags, s.tags, tagNames);
  }

  lemma {:induction false} GroupSums(log: seq<Entry>, t: int, s: ServiceView, tagNames: seq<string>)
    ensures SumsOf(Total(AllAmounts(Group(log, t, KeyOf(s, tagNames), tagNames))), log, Agreeing(t, s, tagNames))
  {
    var k := KeyOf(s, tagNames);
    if log == [] {
      assert AllAmounts(Group(log, t, k, tagNames)) == [];
    } else {
      var front, e := log[..|log| - 1], log[|log| - 1];
      var g := Group(front, t, k, tagNames);
      assert log == front + [e];
      GroupSums(front, t, s, tagNames);
      InGroupIsSelected(e, t, s, tagNames);
      SumsOneMore(Total(AllAmounts(g)), front, e, Agreeing(t, s, tagNames));
      AllAmountsAppend(g, e);
    }
  }

  lemma {:induction false} SelectedIsInGroup(log: seq<Entry>, e: Entry, t: int, s: ServiceView, tagNames: seq<string>)
    requires e in log && Selected(e.row, Agreeing(t, s, tagNames))
    ensures Group(log, t, KeyOf(s, tagNames), tagNames) != []
  {
    InGroupIsSelected(log[|log| - 1], t, s, tagNames);
    if log[|log| - 1] != e {
      SelectedIsInGroup(log[..|log| - 1], e, t, s, tagNames);
    }
  }

  /** The first entry of the log that is selected. */
  ghost predicate IsFirst(log: seq<Entry>, i: int, sel: Selection) {
    && 0 <= i < |log|
    && Selected(log[i].row, sel)
    && forall j :: 0 <= j < i ==> !Selected(log[j].row, sel)
  }

  lemma {:induction false} FirstOfGroup(log: seq<Entry>, t: int, s: ServiceView, tagNames: seq<string>) returns (i: nat)
    requires Group(log, t, KeyOf(s, tagNames), tagNames) != []
    ensures IsFirst(log, i, Agreeing(t, s, tagNames)) && log[i] == Group(log, t, KeyOf(s, tagNames), tagNames)[0]
  {
    var k, sel := KeyOf(s, tagNames), Agreeing(t, s, tagNames);
    var front := log[..|log| - 1];
    InGroupIsSelected(log[|log| - 1], t, s, tagNames);
    if Group(front, t, k, tagNames) == [] {
      i := |log| - 1;
      forall j | 0 <= j < i
        ensures !Selected(log[j].row, sel)
      {
        assert front[j] in front;
        if Selected(front[j].row, sel) {
          SelectedIsInGroup(front, front[j], t, s, tagNames);
        }
      }
    } else {
      i := FirstOfGroup(front, t, s, tagNames);
      assert log[i] == front[i] && forall j :: 0 <= j < i ==> log[j] == front[j];
    }
  }

  // ----- The table -----

  /** Every service estimate of the table has the sums of exactly the rows of its day that agree with it in
      region, service, account and tags, and the names and tags of the first of them. */
  lemma EveryServiceHasItsRows(log: seq<Entry>, tagNames: seq<string>, i: nat, j: nat) returns (first: nat)
    requires i < |TableOf(log, tagNames)| && j < |TableOf(log, tagNames)[i].services|
    ensures var day := TableOf(log, tagNames)[i];
            var s := day.services[j];
            && SumsOf(s.amounts, log, Agreeing(day.timestamp, s, tagNames))
            && IsFirst(log, first, Agreeing(day.timestamp, s, tagNames))
            && s.cloudProvider == log[first].row.cloudProvider
            && s.accountName == log[first].row.accountName
            && s.tags == log[first].row.tags
  {
    var table := TableOf(log, tagNames);
    var t, s := table[i].timestamp, table[i].services[j];
    TableIsWellFormed(log, tagNames);
    EveryServiceIsACell(table, i, j, tagNames);
    TableIsGroupBy(log, t, KeyOf(s, tagNames), tagNames);
    GroupSums(log, t, s, tagNames);
    first := FirstOfGroup(log, t, s, tagNames);
  }

  /** Every row is in the table: its day has a service estimate that agrees with it. */
  lemma EveryRowHasAService(log: seq<Entry>, tagNames: seq<string>, e: Entry) returns (i: nat, j: nat)
    requires e in log
    ensures i < |TableOf(log, tagNames)| && j < |TableOf(log, tagNames)[i].services|
    ensures var day := TableOf(log, tagNames)[i];
            Selected(e.row, Agreeing(day.timestamp, day.services[j], tagNames))
  {
    var table, s := TableOf(log, tagNames), ServiceOf(e);
    var t, k := e.row.timestamp, KeyOf(s, tagNames);
    SelectedIsInGroup(log, e, t, s, tagNames);
    TableIsGroupBy(log, t, k, tagNames);
    i := FindDay(table, t);
    j := FindKey(table[i].services, k, tagNames);
    TagValuesAgree(e.row.tags, table[i].services[j].tags, tagNames);
  }

  predicate Agree(s: ServiceView, s': ServiceView, tagNames: seq<string>) {
    && s.region == s'.region
    && s.serviceName == s'.serviceName
    && s.accountId == s'.accountId
    && SameTags(s.tags, s'.tags, tagNames)
  }

  /** No two days have the same timestamp, and no two service estimates of a day agree. */
  lemma NoServiceTwice(log: seq<Entry>, tagNames: seq<string>)
    ensures var table := TableOf(log, tagNames);
            && (forall i, j :: 0 <= i < j < |table| ==> table[i].timestamp != table[j].timestamp)
            && (forall i, a, b :: 0 <= i < |table| && 0 <= a < b < |table[i].services| ==>
                  !Agree(table[i].services[a], table[i].services[b], tagNames))
  {
    var table := TableOf(log, tagNames);
    TableIsWellFormed(log, tagNames);
    forall i, a, b | 0 <= i < |table| && 0 <= a < b < |table[i].services|
      ensures !Agree(table[i].services[a], table[i].services[b], tagNames)
    {
      TagValuesAgree(table[i].services[a].tags, table[i].services[b].tags, tagNames);
      assert DistinctKeys(table[i].services, tagNames);
      assert KeyOf(table[i].services[a], tagNames) != KeyOf(table[i].services[b], tagNames);
    }
  }

  /** A row adds to one service estimate, or adds one at the end of its day, or a day at the end of the
      table; everything else stays in its place. */
  lemma AppendInPlace(table: seq<DayView>, e: Entry, tagNames: seq<string>)
    ensures var after := AppendEntry(table, e, tagNames);
            && |table| <= |after| <= |table| + 1
            && (forall i :: 0 <= i < |table| ==>
                  && after[i].timestamp == table[i].timestamp
                  && |table[i].services| <= |after[i].services| <= |table[i].services| + 1
                  && (table[i].timestamp != e.row.timestamp ==> after[i] == table[i])
                  && forall j :: 0 <= j < |table[i].services| ==>
                       after[i].services[j].(amounts := table[i].services[j].amounts) == table[i].services[j])
            && (|after| > |table| <==> forall i :: 0 <= i < |table| ==> table[i].timestamp != e.row.timestamp)
            && (|after| > |table| ==> after[|table|].timestamp == e.row.timestamp && |after[|table|].services| == 1)
  {}

  // ----- The grand total -----

  lemma {:induction false} AllSums(log: seq<Entry>)
    ensures SumsOf(Total(AllAmounts(log)), log, Everything)
  {
    if log == [] {
    } else {
      var front, e := log[..|log| - 1], log[|log| - 1];
      assert log == front + [e];
      AllSums(front);
      SumsOneMore(Total(AllAmounts(front)), front, e, Everything);
      AllAmountsAppend(front, e);
    }
  }

  /** The table adds up to the plain sums of the fields of all its rows. */
  lemma TableAddsUp(log: seq<Entry>, tagNames: seq<string>)
    ensures SumsOf(GrandTotal(TableOf(log, tagNames)), log, Everything)
  {
    GrandTotalIsConserved(log, tagNames);
    AllSums(log);
  }
}
