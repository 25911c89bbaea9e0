/** The table of estimates by day, as a value, and the plain group-by it stands for. */
module DayTableSpec {
  import opened Billing
  import opened Folding
  import opened Numbers
  import opened Options

  datatype ServiceView = ServiceView(
    cloudProvider: string, accountId: string, accountName: string, serviceName: string,
    region: string, tags: map<string, string>, amounts: Amounts)

  datatype DayView = DayView(timestamp: int, services: seq<ServiceView>)

  /** What two service estimates of one day must share to be added up. */
  datatype Key = Key(region: string, serviceName: string, accountId: string, tagValues: seq<Option<string>>)

  function TagValue(tags: map<string, string>, name: string): Option<string> {
    if name in tags then Some(tags[name]) else None
  }

  function TagValues(tags: map<string, string>, tagNames: seq<string>): seq<Option<string>> {
    seq(|tagNames|, i requires 0 <= i < |tagNames| => TagValue(tags, tagNames[i]))
  }

  function KeyOf(s: ServiceView, tagNames: seq<string>): Key {
    Key(s.region, s.serviceName, s.accountId, TagValues(s.tags, tagNames))
  }

  function ServiceOf(e: Entry): ServiceView {
    ServiceView(e.row.cloudProvider, e.row.accountId, e.row.accountName, e.row.serviceName,
                e.row.region, e.row.tags, EntryAmounts(e))
  }

  // ----- The table as it grows -----

  function FindDay(table: seq<DayView>, t: int): (i: nat)
    ensures i <= |table|
    ensures i < |table| ==> table[i].timestamp == t
    ensures forall j :: 0 <= j < i ==> table[j].timestamp != t
  {
    if table == [] || table[0].timestamp == t then 0 else 1 + FindDay(table[1..], t)
  }

  function FindKey(services: seq<ServiceView>, k: Key, tagNames: seq<string>): (i: nat)
    ensures i <= |services|
    ensures i < |services| ==> KeyOf(services[i], tagNames) == k
    ensures forall j :: 0 <= j < i ==> KeyOf(services[j], tagNames) != k
  {
    if services == [] || KeyOf(services[0], tagNames) == k then 0 else 1 + FindKey(services[1..], k, tagNames)
  }

  function AddService(services: seq<ServiceView>, s: ServiceView, tagNames: seq<string>): seq<ServiceView> {
    var j := FindKey(services, KeyOf(s, tagNames), tagNames);
    if j < |services| then
      services[j := services[j].(amounts := services[j].amounts.Plus(s.amounts))]
    else
      services + [s]
  }

  function AppendEntry(table: seq<DayView>, e: Entry, tagNames: seq<string>): seq<DayView> {
    var i := FindDay(table, e.row.timestamp);
    if i < |table| then
      table[i := table[i].(services := AddService(table[i].services, ServiceOf(e), tagNames))]
    else
      table + [DayView(e.row.timestamp, [ServiceOf(e)])]
  }

  function TableOf(log: seq<Entry>, tagNames: seq<string>): seq<DayView> {
    if log == [] then []
    else AppendEntry(TableOf(log[..|log| - 1], tagNames), log[|log| - 1], tagNames)
  }

  // ----- Looking a cell up -----

  function CellOfDay(services: seq<ServiceView>, k: Key, tagNames: seq<string>): Option<ServiceView> {
    var j := FindKey(services, k, tagNames);
    if j < |services| then Some(services[j]) else None
  }

  function Cell(table: seq<DayView>, t: int, k: Key, tagNames: seq<string>): Option<ServiceView> {
    var i := FindDay(table, t);
    if i < |table| then CellOfDay(table[i].services, k, tagNames) else None
  }

  // ----- The group-by -----

  predicate InGroup(e: Entry, t: int, k: Key, tagNames: seq<string>) {
    e.row.timestamp == t && KeyOf(ServiceOf(e), tagNames) == k
  }

  function Group(log: seq<Entry>, t: int, k: Key, tagNames: seq<string>): seq<Entry> {
    if log == [] then []
    else
      var rest := Group(log[..|log| - 1], t, k, tagNames);
      var e := log[|log| - 1];
      if InGroup(e, t, k, tagNames) then rest + [e] else rest
  }

  function AllAmounts(log: seq<Entry>): seq<Amounts> {
    seq(|log|, i requires 0 <= i < |log| => EntryAmounts(log[i]))
  }

  /** The first entry of the group names the cell; the amounts of all of them add up. */
  function Grouped(log: seq<Entry>, t: int, k: Key, tagNames: seq<string>): Option<ServiceView> {
    var g := Group(log, t, k, tagNames);
    if g == [] then None else Some(ServiceOf(g[0]).(amounts := Total(AllAmounts(g))))
  }

  // ----- The table is the group-by -----

  lemma AllAmountsAppend(g: seq<Entry>, e: Entry)
    ensures AllAmounts(g + [e]) == AllAmounts(g) + [EntryAmounts(e)]
    ensures Total(AllAmounts(g + [e])) == Total(AllAmounts(g)).Plus(EntryAmounts(e))
  {
    var a := AllAmounts(g + [e]);
    assert a == AllAmounts(g) + [EntryAmounts(e)];
    assert a[..|a| - 1] == AllAmounts(g);
  }

  lemma CellOfDayAfterAdd(services: seq<ServiceView>, s: ServiceView, k: Key, tagNames: seq<string>)
    ensures CellOfDay(AddService(services, s, tagNames), k, tagNames) ==
            if KeyOf(s, tagNames) != k then CellOfDay(services, k, tagNames)
            else match CellOfDay(services, k, tagNames)
                 case None => Some(s)
                 case Some(c) => Some(c.(amounts := c.amounts.Plus(s.amounts)))
  {
    var after := AddService(services, s, tagNames);
    var i, j := FindKey(services, k, tagNames), FindKey(after, k, tagNames);
    if i < |services| {
      assert KeyOf(after[i], tagNames) == k;
      assert forall m :: 0 <= m < i ==> KeyOf(after[m], tagNames) == KeyOf(services[m], tagNames);
      assert j == i;
    } else {
      assert forall m :: 0 <= m < |services| ==> KeyOf(after[m], tagNames) == KeyOf(services[m], tagNames);
      assert |services| <= j;
      if KeyOf(s, tagNames) == k {
        assert KeyOf(after[|services|], tagNames) == k;
      } else {
        assert j == |after|;
      }
    }
  }

  lemma CellAfterAppend(table: seq<DayView>, e: Entry, t: int, k: Key, tagNames: seq<string>)
    ensures Cell(AppendEntry(table, e, tagNames), t, k, tagNames) ==
            if !InGroup(e, t, k, tagNames) then Cell(table, t, k, tagNames)
            else match Cell(table, t, k, tagNames)
                 case None => Some(ServiceOf(e))
                 case Some(c) => Some(c.(amounts := c.amounts.Plus(EntryAmounts(e))))
  {
    var after := AppendEntry(table, e, tagNames);
    var i, j := FindDay(table, t), FindDay(after, t);
    if i < |table| {
      assert forall m :: 0 <= m < |table| ==> after[m].timestamp == table[m].timestamp;
      assert j == i;
      CellOfDayAfterAdd(table[i].services, ServiceOf(e), k, tagNames);
    } else {
      assert forall m :: 0 <= m < |table| ==> after[m].timestamp == table[m].timestamp;
      assert |table| <= j;
      if e.row.timestamp == t {
        assert after[|table|].timestamp == t;
        assert FindKey([ServiceOf(e)], k, tagNames) == if InGroup(e, t, k, tagNames) then 0 else 1;
      } else {
        assert j == |after|;
      }
    }
  }

  lemma GroupedAppend(log: seq<Entry>, e: Entry, t: int, k: Key, tagNames: seq<string>)
    ensures Grouped(log + [e], t, k, tagNames) ==
            if !InGroup(e, t, k, tagNames) then Grouped(log, t, k, tagNames)
            else match Grouped(log, t, k, tagNames)
                 case None => Some(ServiceOf(e))
                 case Some(c) => Some(c.(amounts := c.amounts.Plus(EntryAmounts(e))))
  {
    var g := Group(log, t, k, tagNames);
    assert (log + [e])[..|log + [e]| - 1] == log;
    if InGroup(e, t, k, tagNames) {
      assert Group(log + [e], t, k, tagNames) == g + [e];
      AllAmountsAppend(g, e);
      if g == [] {
        assert AllAmounts(g) == [];
        PlusLaws(EntryAmounts(e), ZERO, ZERO);
      } else {
        assert (g + [e])[0] == g[0];
      }
    }
  }

  /** Every cell of the accumulated table is the group-by of the rows seen. */
  lemma {:induction false} TableIsGroupBy(log: seq<Entry>, t: int, k: Key, tagNames: seq<string>)
    ensures Cell(TableOf(log, tagNames), t, k, tagNames) == Grouped(log, t, k, tagNames)
  {
    if log == [] {
    } else {
      var front, e := log[..|log| - 1], log[|log| - 1];
      assert log == front + [e];
      TableIsGroupBy(front, t, k, tagNames);
      CellAfterAppend(TableOf(front, tagNames), e, t, k, tagNames);
      GroupedAppend(front, e, t, k, tagNames);
    }
  }

  // ----- No row of the table is a duplicate of another -----

  predicate DistinctKeys(services: seq<ServiceView>, tagNames: seq<string>) {
    forall i, j :: 0 <= i < j < |services| ==> KeyOf(services[i], tagNames) != KeyOf(services[j], tagNames)
  }

  predicate DistinctDays(table: seq<DayView>) {
    forall i, j :: 0 <= i < j < |table| ==> table[i].timestamp != table[j].timestamp
  }

  predicate WellFormed(table: seq<DayView>, tagNames: seq<string>) {
    && DistinctDays(table)
    && forall i :: 0 <= i < |table| ==> table[i].services != [] && DistinctKeys(table[i].services, tagNames)
  }

  lemma AddServiceKeepsDistinct(services: seq<ServiceView>, s: ServiceView, tagNames: seq<string>)
    requires DistinctKeys(services, tagNames)
    ensures DistinctKeys(AddService(services, s, tagNames), tagNames)
    ensures AddService(services, s, tagNames) != []
  {
    var after := AddService(services, s, tagNames);
    assert forall m :: 0 <= m < |services| ==> KeyOf(after[m], tagNames) == KeyOf(services[m], tagNames);
  }

  lemma AppendKeepsWellFormed(table: seq<DayView>, e: Entry, tagNames: seq<string>)
    requires WellFormed(table, tagNames)
    ensures WellFormed(AppendEntry(table, e, tagNames), tagNames)
  {
    var i := FindDay(table, e.row.timestamp);
    if i < |table| {
      AddServiceKeepsDistinct(table[i].services, ServiceOf(e), tagNames);
    }
  }

  lemma {:induction false} TableIsWellFormed(log: seq<Entry>, tagNames: seq<string>)
    ensures WellFormed(TableOf(log, tagNames), tagNames)
  {
    if log == [] {
    } else {
      TableIsWellFormed(log[..|log| - 1], tagNames);
      AppendKeepsWellFormed(TableOf(log[..|log| - 1], tagNames), log[|log| - 1], tagNames);
    }
  }

  /** In a well-formed table every service estimate is the cell of its own day and key,
      so nothing is in the table that the group-by does not account for. */
  lemma {:induction false} EveryServiceIsACell(table: seq<DayView>, i: nat, j: nat, tagNames: seq<string>)
    requires WellFormed(table, tagNames)
    requires i < |table| && j < |table[i].services|
    ensures Cell(table, table[i].timestamp, KeyOf(table[i].services[j], tagNames), tagNames)
            == Some(table[i].services[j])
  {
    var t, k := table[i].timestamp, KeyOf(table[i].services[j], tagNames);
    assert FindDay(table, t) == i;
    assert FindKey(table[i].services, k, tagNames) == j;
  }

  // ----- Nothing is lost and nothing is counted twice -----

  function ServicesTotal(services: seq<ServiceView>): Amounts {
    Total(seq(|services|, i requires 0 <= i < |services| => services[i].amounts))
  }

  function GrandTotal(table: seq<DayView>): Amounts {
    Total(seq(|table|, i requires 0 <= i < |table| => ServicesTotal(table[i].services)))
  }

  lemma TotalOfOne(a: Amounts)
    ensures Total([a]) == a
  {
    var xs := [a];
    assert xs[..0] == [];
    assert Total(xs) == Total(xs[..0]).Plus(xs[0]);
    PlusLaws(a, ZERO, ZERO);
  }

  lemma AddServiceTotal(services: seq<ServiceView>, s: ServiceView, tagNames: seq<string>)
    ensures ServicesTotal(AddService(services, s, tagNames)) == ServicesTotal(services).Plus(s.amounts)
  {
    var before := seq(|services|, i requires 0 <= i < |services| => services[i].amounts);
    var added := AddService(services, s, tagNames);
    var after := seq(|added|, i requires 0 <= i < |added| => added[i].amounts);
    var j := FindKey(services, KeyOf(s, tagNames), tagNames);
    if j < |services| {
      assert after == before[j := before[j].Plus(s.amounts)];
      TotalUpdate(before, j, s.amounts);
    } else {
      assert after == before + [s.amounts];
      TotalAppend(before, [s.amounts]);
      TotalOfOne(s.amounts);
    }
  }

  lemma AppendTotal(table: seq<DayView>, e: Entry, tagNames: seq<string>)
    ensures GrandTotal(AppendEntry(table, e, tagNames)) == GrandTotal(table).Plus(EntryAmounts(e))
  {
    var before := seq(|table|, i requires 0 <= i < |table| => ServicesTotal(table[i].services));
    var added := AppendEntry(table, e, tagNames);
    var after := seq(|added|, i requires 0 <= i < |added| => ServicesTotal(added[i].services));
    var i := FindDay(table, e.row.timestamp);
    if i < |table| {
      AddServiceTotal(table[i].services, ServiceOf(e), tagNames);
      assert after == before[i := before[i].Plus(EntryAmounts(e))];
      TotalUpdate(before, i, EntryAmounts(e));
    } else {
      AddServiceTotal([], ServiceOf(e), tagNames);
      var created := [ServiceOf(e)];
      assert seq(|created|, m requires 0 <= m < |created| => created[m].amounts) == [EntryAmounts(e)];
      TotalOfOne(EntryAmounts(e));
      assert after == before + [EntryAmounts(e)];
      TotalAppend(before, [EntryAmounts(e)]);
    }
  }

  /** Conservation: the table holds exactly what its rows brought in. */
  lemma {:induction false} GrandTotalIsConserved(log: seq<Entry>, tagNames: seq<string>)
    ensures GrandTotal(TableOf(log, tagNames)) == Total(AllAmounts(log))
  {
    if log == [] {
    } else {
      var front, e := log[..|log| - 1], log[|log| - 1];
      assert log == front + [e];
      GrandTotalIsConserved(front, tagNames);
      AppendTotal(TableOf(front, tagNames), e, tagNames);
      AllAmountsAppend(front, e);
    }
  }

  // ----- The order of the rows does not matter -----

  /** The amounts of one group, accumulated entry by entry. */
  function GroupStep(t: int, k: Key, tagNames: seq<string>): (Option<Amounts>, Entry) -> Option<Amounts> {
    (acc: Option<Amounts>, e: Entry) =>
      if InGroup(e, t, k, tagNames) then Some(acc.GetOr(ZERO).Plus(EntryAmounts(e))) else acc
  }

  function CellAmounts(table: seq<DayView>, t: int, k: Key, tagNames: seq<string>): Option<Amounts> {
    match Cell(table, t, k, tagNames)
    case None => None
    case Some(s) => Some(s.amounts)
  }

  lemma CellAmountsAfterAppend(table: seq<DayView>, e: Entry, t: int, k: Key, tagNames: seq<string>)
    ensures CellAmounts(AppendEntry(table, e, tagNames), t, k, tagNames)
            == GroupStep(t, k, tagNames)(CellAmounts(table, t, k, tagNames), e)
  {
    var before, after := Cell(table, t, k, tagNames), Cell(AppendEntry(table, e, tagNames), t, k, tagNames);
    CellAfterAppend(table, e, t, k, tagNames);
    if InGroup(e, t, k, tagNames) {
      if before.None? {
        PlusLaws(EntryAmounts(e), ZERO, ZERO);
        assert after == Some(ServiceOf(e));
      } else {
        assert after.value.amounts == before.value.amounts.Plus(EntryAmounts(e));
      }
    } else {
      assert after == before;
    }
  }

  lemma {:induction false} CellAmountsAreAFold(log: seq<Entry>, t: int, k: Key, tagNames: seq<string>)
    ensures CellAmounts(TableOf(log, tagNames), t, k, tagNames) == Fold(GroupStep(t, k, tagNames), None, log)
  {
    if log == [] {
    } else {
      var front, e := log[..|log| - 1], log[|log| - 1];
      CellAmountsAreAFold(front, t, k, tagNames);
      CellAmountsAfterAppend(TableOf(front, tagNames), e, t, k, tagNames);
    }
  }

  lemma GroupStepCommutes(t: int, k: Key, tagNames: seq<string>)
    ensures Commutes(GroupStep(t, k, tagNames))
  {
    var step := GroupStep(t, k, tagNames);
    forall acc, x, y
      ensures step(step(acc, x), y) == step(step(acc, y), x)
    {
      var a, b, c := acc.GetOr(ZERO), EntryAmounts(x), EntryAmounts(y);
      PlusLaws(a, b, c);
      PlusLaws(a, c, b);
      PlusLaws(b, c, ZERO);
    }
  }

  /** Permuting the rows leaves the amounts of every cell, and which cells exist, unchanged. */
  lemma TableIgnoresRowOrder(log: seq<Entry>, log': seq<Entry>, t: int, k: Key, tagNames: seq<string>)
    requires multiset(log) == multiset(log')
    ensures CellAmounts(TableOf(log, tagNames), t, k, tagNames) == CellAmounts(TableOf(log', tagNames), t, k, tagNames)
  {
    CellAmountsAreAFold(log, t, k, tagNames);
    CellAmountsAreAFold(log', t, k, tagNames);
    GroupStepCommutes(t, k, tagNames);
    FoldPermutation(GroupStep(t, k, tagNames), None, log, log');
  }
}
