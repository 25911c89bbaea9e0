/** The two passes over a billing report. */
module Engine {
  import opened Billing
  import opened DayTable
  import opened DayTableSpec
  import opened EngineSpec
  import opened Folding
  import opened Ledger
  import opened LedgerSpec
  import opened Options

  /** Puts an unknown row off, or estimates the row and posts it to the ledger. */
  method GetFootprintEstimateFromUsageRow(row: BillingDataRow, unknownRows: seq<BillingDataRow>,
                                          ledger: KilowattHoursLedger, p: Provider)
    returns (estimate: Option<FootprintEstimate>, unknownRows': seq<BillingDataRow>)
    modifies ledger
    ensures estimate == EstimateFor(row, p)
    ensures unknownRows' == unknownRows + RowIfUnknown(p)(row)
    ensures ledger.entries == LedgerAfterRow(old(ledger.entries), row, p)
  {
    estimate, unknownRows' := None, unknownRows;
    match p.classify(row) {
      case Dropped =>
      case Deferred =>
        unknownRows' := unknownRows + [row];
      case Estimated(e, posted) =>
        if posted.Some? {
          ledger.AccumulateKilowattHours(PostingOf(row, posted.value, p), p.basis);
        }
        estimate := Some(e);
    }
  }

  method AddEstimate(row: BillingDataRow, estimate: Option<FootprintEstimate>, table: EstimateTable, p: Provider,
                     ghost log: seq<Entry>)
    requires table.Valid() && table.Contents == TableOf(log, p.tagNames)
    requires estimate == EstimateFor(row, p)
    modifies table.Repr
    ensures table.Valid() && fresh(table.Repr - old(table.Repr))
    ensures table.Contents == TableOf(log + RowEntries(p)(row), p.tagNames)
  {
    TableAfterRow(log, row, p);
    if estimate.Some? {
      table.AppendOrAccumulate(Entry(row, estimate.value), p.tagNames);
    }
  }

  /** One row of the first pass, after the rows before it. */
  method ProcessRow(row: BillingDataRow, unknownRows: seq<BillingDataRow>, table: EstimateTable,
                    ledger: KilowattHoursLedger, p: Provider, ghost before: seq<BillingDataRow>, ghost start: Entries)
    returns (unknownRows': seq<BillingDataRow>)
    requires table.Valid() && ledger !in table.Repr
    requires table.Contents == TableOf(KnownEntries(before, p), p.tagNames)
    requires ledger.entries == LedgerAfter(before, start, p) && unknownRows == UnknownRows(before, p)
    modifies ledger, table.Repr
    ensures table.Valid() && fresh(table.Repr - old(table.Repr))
    ensures table.Contents == TableOf(KnownEntries(before + [row], p), p.tagNames)
    ensures ledger.entries == LedgerAfter(before + [row], start, p)
    ensures unknownRows' == UnknownRows(before + [row], p)
  {
    LedgerAfterOneMore(before, row, start, p);
    KnownEntriesOneMore(before, row, p);
    var estimate;
    estimate, unknownRows' := GetFootprintEstimateFromUsageRow(row, unknownRows, ledger, p);
    AddEstimate(row, estimate, table, p, KnownEntries(before, p));
  }

  /** Posts to the ledger, fills the table with the rows that can be estimated, and puts off the
      rows of an unknown kind. */
  method FirstPass(rows: seq<BillingDataRow>, ledger: KilowattHoursLedger, p: Provider)
    returns (table: EstimateTable, unknownRows: seq<BillingDataRow>)
    modifies ledger
    ensures fresh(table) && table.Valid() && fresh(table.Repr)
    ensures ledger.entries == LedgerAfter(rows, old(ledger.entries), p)
    ensures table.Contents == TableOf(KnownEntries(rows, p), p.tagNames)
    ensures unknownRows == UnknownRows(rows, p)
  {
    table := new EstimateTable();
    unknownRows := [];
    ghost var start, seen := ledger.entries, [];
    for i := 0 to |rows|
      invariant table.Valid() && fresh(table) && fresh(table.Repr) && ledger !in table.Repr
      invariant seen == rows[..i]
      invariant ledger.entries == LedgerAfter(seen, start, p)
      invariant table.Contents == TableOf(KnownEntries(seen, p), p.tagNames)
      invariant unknownRows == UnknownRows(seen, p)
    {
      TakeOneMore(rows, i);
      unknownRows := ProcessRow(rows[i], unknownRows, table, ledger, p, seen, start);
      seen := seen + [rows[i]];
    }
    assert seen == rows;
  }

  /** Prices the rows that were put off; the ledger is only read. */
  method SecondPass(table: EstimateTable, unknownRows: seq<BillingDataRow>, e: Entries, p: Provider,
                    ghost known: seq<Entry>)
    requires table.Valid() && table.Contents == TableOf(known, p.tagNames)
    modifies table.Repr
    ensures table.Valid() && fresh(table.Repr - old(table.Repr))
    ensures table.Contents == TableOf(known + FlatMap(PricedRow(e, p), unknownRows), p.tagNames)
  {
    assert LogWithPriced(known, unknownRows, 0, e, p) == known;
    for i := 0 to |unknownRows|
      invariant table.Valid() && fresh(table.Repr - old(table.Repr))
      invariant table.Contents == TableOf(LogWithPriced(known, unknownRows, i, e, p), p.tagNames)
    {
      LogWithOneMorePriced(known, unknownRows, i, e, p);
      var estimate := UnknownEstimate(unknownRows[i], e, p);
      table.AppendOrAccumulate(Entry(unknownRows[i], estimate), p.tagNames);
    }
    assert unknownRows[..|unknownRows|] == unknownRows;
  }

  /** Both passes; the second only if the first estimated anything. */
  method GetEstimates(rows: seq<BillingDataRow>, ledger: KilowattHoursLedger, p: Provider)
    returns (table: EstimateTable)
    modifies ledger
    ensures fresh(table) && table.Valid() && fresh(table.Repr)
    ensures ledger.entries == LedgerAfter(rows, old(ledger.entries), p)
    ensures table.Contents == Footprint(rows, old(ledger.entries), p)
  {
    var unknownRows;
    table, unknownRows := FirstPass(rows, ledger, p);
    TableIsEmptyIffLogIs(KnownEntries(rows, p), p.tagNames);
    if |table.results| > 0 {
      SecondPass(table, unknownRows, ledger.entries, p, KnownEntries(rows, p));
    }
  }
}
