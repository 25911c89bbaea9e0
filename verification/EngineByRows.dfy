/** What a run over a billing report gives, in terms of the fields of its rows. */
module EngineByRows {
  import opened Billing
  import opened DayTableByFields
  import opened DayTableSpec
  import opened EngineSpec
  import opened Folding
  import opened LedgerSpec
  import opened Numbers
  import opened Options
  import opened UnknownUsages

  // ----- The ledger -----

  /** The row is estimated and posts kilowatt hours for the unit, under the service if one is given. */
  predicate Posts(row: BillingDataRow, p: Provider, service: Option<string>, unit: string) {
    && p.classify(row).Estimated?
    && p.classify(row).posted.Some?
    && row.usageUnit == unit
    && (service.Some? ==> row.serviceName == service.value)
  }

  function PostedEnergy(rows: seq<BillingDataRow>, p: Provider, service: Option<string>, unit: string): real {
    if rows == [] then 0.0
    else
      var row := rows[|rows| - 1];
      PostedEnergy(rows[..|rows| - 1], p, service, unit)
      + if Posts(row, p, service, unit) then p.classify(row).posted.value else 0.0
  }

  function PostedCost(rows: seq<BillingDataRow>, p: Provider, service: Option<string>, unit: string): real {
    if rows == [] then 0.0
    else
      var row := rows[|rows| - 1];
      PostedCost(rows[..|rows| - 1], p, service, unit) + if Posts(row, p, service, unit) then row.cost else 0.0
  }

  function PostedUsage(rows: seq<BillingDataRow>, p: Provider, service: Option<string>, unit: string): real {
    if rows == [] then 0.0
    else
      var row := rows[|rows| - 1];
      PostedUsage(rows[..|rows| - 1], p, service, unit) + if Posts(row, p, service, unit) then row.usageAmount else 0.0
  }

  predicate SomePosts(rows: seq<BillingDataRow>, p: Provider, service: Option<string>, unit: string) {
    exists row :: row in rows && Posts(row, p, service, unit)
  }

  /** What the rows make of an entry: nothing, or the sum of their kilowatt hours together with the sum of
      their costs or of their usage amounts, as the provider has it. */
  function EntryByRows(rows: seq<BillingDataRow>, p: Provider, service: Option<string>, unit: string): Option<Totals> {
    if !SomePosts(rows, p, service, unit) then None
    else
      match p.basis
      case Cost => Some(Totals(None, Some(PostedCost(rows, p, service, unit)), PostedEnergy(rows, p, service, unit)))
      case UsageAmount =>
        Some(Totals(Some(PostedUsage(rows, p, service, unit)), None, PostedEnergy(rows, p, service, unit)))
  }

  function EntryOf(e: Entries, key: string, unit: string): Option<Totals> {
    if key in e && unit in e[key] then Some(e[key][unit]) else None
  }

  predicate NoneCalled(rows: seq<BillingDataRow>, p: Provider, name: string, unit: string) {
    forall row :: row in rows && Posts(row, p, None, unit) ==> row.serviceName != name
  }

  /** Adds one row to an entry. */
  function WithRow(t: Option<Totals>, row: BillingDataRow, kilowattHours: real, basis: Measure): Totals {
    match (t, basis)
    case (None, Cost) => Totals(None, Some(row.cost), kilowattHours)
    case (None, UsageAmount) => Totals(Some(row.usageAmount), None, kilowattHours)
    case (Some(was), Cost) =>
      Totals(was.usageAmount, Some(was.cost.GetOr(0.0) + row.cost), was.kilowattHours + kilowattHours)
    case (Some(was), UsageAmount) =>
      Totals(Some(was.usageAmount.GetOr(0.0) + row.usageAmount), was.cost, was.kilowattHours + kilowattHours)
  }

  lemma EntryAfterRow(e: Entries, row: BillingDataRow, p: Provider, service: Option<string>, unit: string)
    requires service != Some(TOTAL) && (Posts(row, p, None, unit) ==> row.serviceName != TOTAL)
    ensures EntryOf(LedgerAfterRow(e, row, p), service.GetOr(TOTAL), unit) ==
            if Posts(row, p, service, unit)
            then Some(WithRow(EntryOf(e, service.GetOr(TOTAL), unit), row, p.classify(row).posted.value, p.basis))
            else EntryOf(e, service.GetOr(TOTAL), unit)
  {
    if PostedFor(row, p).Some? {
      PostAt(e, PostingOf(row, PostedFor(row, p).value, p), service.GetOr(TOTAL), p.basis);
    }
  }

  lemma EntryOneMore(rows: seq<BillingDataRow>, row: BillingDataRow, p: Provider, service: Option<string>, unit: string)
    ensures EntryByRows(rows + [row], p, service, unit) ==
            if Posts(row, p, service, unit)
            then Some(WithRow(EntryByRows(rows, p, service, unit), row, p.classify(row).posted.value, p.basis))
            else EntryByRows(rows, p, service, unit)
  {
    var all := rows + [row];
    assert all[..|all| - 1] == rows;
    assert forall r :: r in all <==> r in rows || r == row;
    assert SomePosts(all, p, service, unit) <==> SomePosts(rows, p, service, unit) || Posts(row, p, service, unit);
    if !SomePosts(rows, p, service, unit) {
      NothingPosted(rows, p, service, unit);
    }
  }

  lemma {:induction false} NothingPosted(rows: seq<BillingDataRow>, p: Provider, service: Option<string>, unit: string)
    requires !SomePosts(rows, p, service, unit)
    ensures PostedEnergy(rows, p, service, unit) == 0.0
    ensures PostedCost(rows, p, service, unit) == 0.0
    ensures PostedUsage(rows, p, service, unit) == 0.0
  {
    if rows == [] {
    } else {
      var front, row := rows[..|rows| - 1], rows[|rows| - 1];
      assert row in rows && forall r :: r in front ==> r in rows;
      NothingPosted(front, p, service, unit);
    }
  }

  /** After any report a new ledger holds, for every service and unit and in the total of every unit, the
      sums over the estimated rows of that service and unit, unless a service is called "total". */
  lemma {:induction false} LedgerByRows(rows: seq<BillingDataRow>, p: Provider, service: Option<string>, unit: string)
    requires service != Some("total") && NoneCalled(rows, p, "total", unit)
    ensures EntryOf(LedgerAfter(rows, EMPTY, p), service.GetOr("total"), unit) == EntryByRows(rows, p, service, unit)
  {
    if rows == [] {
      assert LedgerAfter([], EMPTY, p) == EMPTY;
    } else {
      var front, row := rows[..|rows| - 1], rows[|rows| - 1];
      assert rows == front + [row] && row in rows;
      LedgerByRows(front, p, service, unit);
      LedgerAfterOneMore(front, row, EMPTY, p);
      EntryAfterRow(LedgerAfter(front, EMPTY, p), row, p, service, unit);
      EntryOneMore(front, row, p, service, unit);
    }
  }

  // ----- The price of an unknown row -----

  /** The quotient of the sums over all estimated rows of the unit, times the row's own cost or usage
      amount; zero for a unit that no such row has, and no number if the divisor is zero. */
  function PriceByRows(rows: seq<BillingDataRow>, p: Provider, row: BillingDataRow): Num {
    var unit := row.usageUnit;
    if !SomePosts(rows, p, None, unit) then Finite(0.0)
    else
      match p.basis
      case Cost =>
        if PostedCost(rows, p, None, unit) == 0.0 then NonFinite
        else Finite(PostedEnergy(rows, p, None, unit) / PostedCost(rows, p, None, unit) * row.cost)
      case UsageAmount =>
        if PostedUsage(rows, p, None, unit) == 0.0 then NonFinite
        else Finite(PostedEnergy(rows, p, None, unit) / PostedUsage(rows, p, None, unit) * row.usageAmount)
  }

  /** The entry of a deferred row: the row itself, with its price and what follows from it. */
  ghost predicate IsPriced(entry: Entry, row: BillingDataRow, rows: seq<BillingDataRow>, p: Provider) {
    && entry.row == row
    && entry.estimate.kilowattHours == PriceByRows(rows, p, row)
    && CarbonFollows(entry.estimate.kilowattHours, entry.estimate.co2e, row.region, p.factors)
    && !entry.estimate.usesAverageCPUConstant
  }

  lemma PriceFollowsTheRows(rows: seq<BillingDataRow>, p: Provider, row: BillingDataRow)
    requires NoneCalled(rows, p, "total", row.usageUnit) && NoneCalled(rows, p, "undefined", row.usageUnit)
    ensures EstimateKilowattHours(UsageOf(row, p.basis), LedgerAfter(rows, EMPTY, p), p.basis)
            == PriceByRows(rows, p, row)
  {
    var unit := row.usageUnit;
    LedgerByRows(rows, p, None, unit);
    LedgerByRows(rows, p, Some("undefined"), unit);
    assert !SomePosts(rows, p, Some("undefined"), unit);
  }

  lemma UnknownRowIsPriced(rows: seq<BillingDataRow>, p: Provider, row: BillingDataRow)
    requires NoneCalled(rows, p, "total", row.usageUnit) && NoneCalled(rows, p, "undefined", row.usageUnit)
    ensures IsPriced(Entry(row, UnknownEstimate(row, LedgerAfter(rows, EMPTY, p), p)), row, rows, p)
  {
    PriceFollowsTheRows(rows, p, row);
    EstimatedCarbonFollows(PriceByRows(rows, p, row), row.region, p.factors);
  }

  // ----- The entries of the table -----

  function KnownByRows(rows: seq<BillingDataRow>, p: Provider): seq<Entry> {
    if rows == [] then []
    else
      var row := rows[|rows| - 1];
      KnownByRows(rows[..|rows| - 1], p)
      + if p.classify(row).Estimated? then [Entry(row, p.classify(row).estimate)] else []
  }

  /** The deferred rows among some, in order. */
  function DeferredByRows(rows: seq<BillingDataRow>, p: Provider): seq<BillingDataRow> {
    if rows == [] then []
    else
      var row := rows[|rows| - 1];
      DeferredByRows(rows[..|rows| - 1], p) + if p.classify(row).Deferred? then [row] else []
  }

  lemma {:induction false} LogParts(rows: seq<BillingDataRow>, p: Provider)
    ensures KnownEntries(rows, p) == KnownByRows(rows, p)
    ensures UnknownRows(rows, p) == DeferredByRows(rows, p)
  {
    if rows == [] {
    } else {
      var front, row := rows[..|rows| - 1], rows[|rows| - 1];
      assert rows == front + [row];
      LogParts(front, p);
      KnownEntriesOneMore(front, row, p);
    }
  }

  lemma {:induction false} PricedLength(rows: seq<BillingDataRow>, e: Entries, p: Provider)
    ensures |FlatMap(PricedRow(e, p), rows)| == |rows|
    ensures forall i :: 0 <= i < |rows| ==>
              FlatMap(PricedRow(e, p), rows)[i] == Entry(rows[i], UnknownEstimate(rows[i], e, p))
  {
    if rows == [] {
    } else {
      PricedLength(rows[..|rows| - 1], e, p);
    }
  }

  /** The footprint of a report, from a new ledger, is the table of the estimated rows followed by the
      deferred rows with their prices; without estimated rows it is empty. */
  lemma FootprintByRows(rows: seq<BillingDataRow>, p: Provider) returns (log: seq<Entry>)
    requires forall unit :: NoneCalled(rows, p, "total", unit) && NoneCalled(rows, p, "undefined", unit)
    ensures Footprint(rows, EMPTY, p) == TableOf(log, p.tagNames)
    ensures var known, deferred := KnownByRows(rows, p), DeferredByRows(rows, p);
            if known == [] then log == []
            else
              && |log| == |known| + |deferred|
              && (forall i :: 0 <= i < |known| ==> log[i] == known[i])
              && (forall i :: 0 <= i < |deferred| ==> IsPriced(log[|known| + i], deferred[i], rows, p))
  {
    log := FullLog(rows, EMPTY, p);
    LogParts(rows, p);
    if KnownByRows(rows, p) != [] {
      DeferredArePriced(rows, p);
    }
  }

  lemma DeferredArePriced(rows: seq<BillingDataRow>, p: Provider)
    requires forall unit :: NoneCalled(rows, p, "total", unit) && NoneCalled(rows, p, "undefined", unit)
    ensures var deferred := DeferredByRows(rows, p);
            var priced := FlatMap(PricedRow(LedgerAfter(rows, EMPTY, p), p), deferred);
            |priced| == |deferred| && forall i :: 0 <= i < |deferred| ==> IsPriced(priced[i], deferred[i], rows, p)
  {
    var deferred := DeferredByRows(rows, p);
    PricedLength(deferred, LedgerAfter(rows, EMPTY, p), p);
    forall i | 0 <= i < |deferred|
      ensures IsPriced(FlatMap(PricedRow(LedgerAfter(rows, EMPTY, p), p), deferred)[i], deferred[i], rows, p)
    {
      assert NoneCalled(rows, p, "total", deferred[i].usageUnit);
      UnknownRowIsPriced(rows, p, deferred[i]);
    }
  }

  lemma {:induction false} DeferredMember(rows: seq<BillingDataRow>, p: Provider, row: BillingDataRow)
    requires row in rows && p.classify(row).Deferred?
    ensures row in DeferredByRows(rows, p)
  {
    if rows[|rows| - 1] != row {
      DeferredMember(rows[..|rows| - 1], p, row);
    }
  }

  lemma {:induction false} KnownMember(rows: seq<BillingDataRow>, p: Provider, row: BillingDataRow)
    requires row in rows && p.classify(row).Estimated?
    ensures Entry(row, p.classify(row).estimate) in KnownByRows(rows, p)
  {
    if rows[|rows| - 1] != row {
      KnownMember(rows[..|rows| - 1], p, row);
    }
  }

  /** An unknown row of a report with some known row is in the footprint with its price, in the service
      estimate of its own day, region, service, account and tags, which sums up all such rows. */
  lemma UnknownRowIsInTheFootprint(rows: seq<BillingDataRow>, p: Provider, row: BillingDataRow, known: BillingDataRow)
    returns (log: seq<Entry>, priced: Entry, i: nat, j: nat)
    requires forall unit :: NoneCalled(rows, p, "total", unit) && NoneCalled(rows, p, "undefined", unit)
    requires row in rows && p.classify(row).Deferred?
    requires known in rows && p.classify(known).Estimated?
    ensures priced in log && IsPriced(priced, row, rows, p)
    ensures var table := Footprint(rows, EMPTY, p);
            && i < |table| && j < |table[i].services|
            && var sel := Agreeing(table[i].timestamp, table[i].services[j], p.tagNames);
               Selected(row, sel) && SumsOf(table[i].services[j].amounts, log, sel)
  {
    log := FootprintByRows(rows, p);
    DeferredMember(rows, p, row);
    KnownMember(rows, p, known);
    var deferred, n := DeferredByRows(rows, p), |KnownByRows(rows, p)|;
    var m :| 0 <= m < |deferred| && deferred[m] == row;
    priced := log[n + m];
    assert IsPriced(priced, deferred[m], rows, p);
    i, j := EveryRowHasAService(log, p.tagNames, priced);
    var _ := EveryServiceHasItsRows(log, p.tagNames, i, j);
  }
}
