/** What a run over a billing report gives: the postings to the ledger, the entries of the
    table, and the rows put off until the ledger is complete. */
module EngineSpec {
  import opened Billing
  import opened DayTableSpec
  import opened Folding
  import opened LedgerBalance
  import opened LedgerSpec
  import opened Numbers
  import opened Options
  import opened UnknownUsages

  /** What the classifier and the estimators make of one row.  An estimate may come with
      kilowatt hours for the ledger, which need not be the kilowatt hours of the estimate. */
  datatype Outcome = Dropped | Deferred | Estimated(estimate: FootprintEstimate, posted: Option<real>)

  datatype Provider = Provider(
    classify: BillingDataRow -> Outcome, basis: Measure, factors: map<string, real>, tagNames: seq<string>)

  function MeasuredOf(row: BillingDataRow, basis: Measure): real {
    match basis
    case Cost => row.cost
    case UsageAmount => row.usageAmount
  }

  function PostingOf(row: BillingDataRow, kilowattHours: real, p: Provider): Posting {
    Posting(row.serviceName, row.usageUnit, MeasuredOf(row, p.basis), kilowattHours)
  }

  function PostedFor(row: BillingDataRow, p: Provider): Option<real> {
    var outcome := p.classify(row);
    if outcome.Estimated? then outcome.posted else None
  }

  function EstimateFor(row: BillingDataRow, p: Provider): Option<FootprintEstimate> {
    var outcome := p.classify(row);
    if outcome.Estimated? then Some(outcome.estimate) else None
  }

  function RowPostings(p: Provider): BillingDataRow -> seq<Posting> {
    (row: BillingDataRow) =>
      if PostedFor(row, p).Some? then [PostingOf(row, PostedFor(row, p).value, p)] else []
  }

  function RowEntries(p: Provider): BillingDataRow -> seq<Entry> {
    (row: BillingDataRow) =>
      if EstimateFor(row, p).Some? then [Entry(row, EstimateFor(row, p).value)] else []
  }

  function RowIfKnown(p: Provider): BillingDataRow -> seq<BillingDataRow> {
    (row: BillingDataRow) => if p.classify(row).Estimated? then [row] else []
  }

  function RowIfUnknown(p: Provider): BillingDataRow -> seq<BillingDataRow> {
    (row: BillingDataRow) => if p.classify(row).Deferred? then [row] else []
  }

  function Postings(rows: seq<BillingDataRow>, p: Provider): seq<Posting> { FlatMap(RowPostings(p), rows) }

  function KnownEntries(rows: seq<BillingDataRow>, p: Provider): seq<Entry> { FlatMap(RowEntries(p), rows) }

  function KnownRows(rows: seq<BillingDataRow>, p: Provider): seq<BillingDataRow> { FlatMap(RowIfKnown(p), rows) }

  function UnknownRows(rows: seq<BillingDataRow>, p: Provider): seq<BillingDataRow> { FlatMap(RowIfUnknown(p), rows) }

  function LedgerAfter(rows: seq<BillingDataRow>, e: Entries, p: Provider): Entries {
    PostAll(e, Postings(rows, p), p.basis)
  }

  function LedgerAfterRow(e: Entries, row: BillingDataRow, p: Provider): Entries {
    if PostedFor(row, p).Some? then Post(e, PostingOf(row, PostedFor(row, p).value, p), p.basis) else e
  }

  /** None of the providers hands the service of the row on. */
  function UsageOf(row: BillingDataRow, basis: Measure): UnknownUsage {
    match basis
    case Cost => UnknownUsage(None, row.usageUnit, Some(row.cost), None)
    case UsageAmount => UnknownUsage(None, row.usageUnit, None, Some(row.usageAmount))
  }

  function UnknownEstimate(row: BillingDataRow, e: Entries, p: Provider): FootprintEstimate {
    var k := EstimateKilowattHours(UsageOf(row, p.basis), e, p.basis);
    FootprintEstimate(k, EstimateCo2(k, row.region, p.factors), false)
  }

  function PricedRow(e: Entries, p: Provider): BillingDataRow -> seq<Entry> {
    (row: BillingDataRow) => [Entry(row, UnknownEstimate(row, e, p))]
  }

  /** All entries of the table, in the order in which they are added. */
  function FullLog(rows: seq<BillingDataRow>, e: Entries, p: Provider): seq<Entry> {
    var known := KnownEntries(rows, p);
    if known == [] then [] else known + FlatMap(PricedRow(LedgerAfter(rows, e, p), p), UnknownRows(rows, p))
  }

  function Footprint(rows: seq<BillingDataRow>, e: Entries, p: Provider): seq<DayView> {
    TableOf(FullLog(rows, e, p), p.tagNames)
  }

  lemma LedgerAfterOneMore(rows: seq<BillingDataRow>, row: BillingDataRow, e: Entries, p: Provider)
    ensures LedgerAfter(rows + [row], e, p) == LedgerAfterRow(LedgerAfter(rows, e, p), row, p)
  {
    assert (rows + [row])[..|rows + [row]| - 1] == rows;
    var ps := Postings(rows, p);
    if PostedFor(row, p).Some? {
      var more := ps + [PostingOf(row, PostedFor(row, p).value, p)];
      assert Postings(rows + [row], p) == more;
      assert more[..|more| - 1] == ps;
    } else {
      assert Postings(rows + [row], p) == ps + [] == ps;
    }
  }

  lemma KnownEntriesOneMore(rows: seq<BillingDataRow>, row: BillingDataRow, p: Provider)
    ensures KnownEntries(rows + [row], p) == KnownEntries(rows, p) + RowEntries(p)(row)
    ensures UnknownRows(rows + [row], p) == UnknownRows(rows, p) + RowIfUnknown(p)(row)
  {
    assert (rows + [row])[..|rows + [row]| - 1] == rows;
  }

  lemma TableOneMore(log: seq<Entry>, e: Entry, tagNames: seq<string>)
    ensures TableOf(log + [e], tagNames) == AppendEntry(TableOf(log, tagNames), e, tagNames)
  {
    assert (log + [e])[..|log + [e]| - 1] == log;
  }

  lemma TableAfterRow(log: seq<Entry>, row: BillingDataRow, p: Provider)
    ensures TableOf(log + RowEntries(p)(row), p.tagNames) ==
            if EstimateFor(row, p).Some?
            then AppendEntry(TableOf(log, p.tagNames), Entry(row, EstimateFor(row, p).value), p.tagNames)
            else TableOf(log, p.tagNames)
  {
    if EstimateFor(row, p).Some? {
      TableOneMore(log, Entry(row, EstimateFor(row, p).value), p.tagNames);
    } else {
      assert log + RowEntries(p)(row) == log;
    }
  }

  /** The entries of the table once the first n unknown rows are priced. */
  function LogWithPriced(known: seq<Entry>, unknownRows: seq<BillingDataRow>, n: nat, e: Entries,
                         p: Provider): seq<Entry>
    requires n <= |unknownRows|
  {
    known + FlatMap(PricedRow(e, p), unknownRows[..n])
  }

  lemma LogWithOneMorePriced(known: seq<Entry>, unknownRows: seq<BillingDataRow>, n: nat, e: Entries, p: Provider)
    requires n < |unknownRows|
    ensures var log := LogWithPriced(known, unknownRows, n, e, p);
            var entry := Entry(unknownRows[n], UnknownEstimate(unknownRows[n], e, p));
            && LogWithPriced(known, unknownRows, n + 1, e, p) == log + [entry]
            && TableOf(log + [entry], p.tagNames) == AppendEntry(TableOf(log, p.tagNames), entry, p.tagNames)
  {
    var log := LogWithPriced(known, unknownRows, n, e, p);
    assert unknownRows[..n + 1][..n] == unknownRows[..n];
    TableOneMore(log, Entry(unknownRows[n], UnknownEstimate(unknownRows[n], e, p)), p.tagNames);
  }

  lemma TableIsEmptyIffLogIs(log: seq<Entry>, tagNames: seq<string>)
    ensures TableOf(log, tagNames) == [] <==> log == []
  {}

  // ----- Where the unknown rows stand does not matter -----

  /** The result and the ledger are the same for every interleaving of the same known rows with
      the same unknown rows, with any dropped rows in between. */
  lemma InterleavingDoesNotMatter(rows: seq<BillingDataRow>, rows': seq<BillingDataRow>, e: Entries, p: Provider)
    requires KnownRows(rows, p) == KnownRows(rows', p)
    requires UnknownRows(rows, p) == UnknownRows(rows', p)
    ensures LedgerAfter(rows, e, p) == LedgerAfter(rows', e, p)
    ensures Footprint(rows, e, p) == Footprint(rows', e, p)
    ensures KnownRows(rows, p) == [] ==> Footprint(rows, e, p) == [] && LedgerAfter(rows, e, p) == e
  {
    KnownRowsDecide(rows, p);
    KnownRowsDecide(rows', p);
  }

  lemma KnownRowsDecide(rows: seq<BillingDataRow>, p: Provider)
    ensures Postings(rows, p) == Postings(KnownRows(rows, p), p)
    ensures KnownEntries(rows, p) == KnownEntries(KnownRows(rows, p), p)
  {
    var known, postings, entries := RowIfKnown(p), RowPostings(p), RowEntries(p);
    forall row: BillingDataRow
      ensures FlatMap(postings, known(row)) == postings(row) && FlatMap(entries, known(row)) == entries(row)
    {
      FlatMapOfOne(postings, row);
      FlatMapOfOne(entries, row);
    }
    FlatMapFlatMap(known, postings, postings, rows);
    FlatMapFlatMap(known, entries, entries, rows);
  }

  // ----- The order of the rows does not matter at all -----

  /** Permuting the rows of the report, known and unknown, leaves the ledger and the amounts of
      every cell of the table unchanged. */
  lemma RowOrderDoesNotMatter(rows: seq<BillingDataRow>, rows': seq<BillingDataRow>, e: Entries, p: Provider)
    requires multiset(rows) == multiset(rows')
    ensures LedgerAfter(rows, e, p) == LedgerAfter(rows', e, p)
    ensures forall t, k :: CellAmounts(Footprint(rows, e, p), t, k, p.tagNames)
                           == CellAmounts(Footprint(rows', e, p), t, k, p.tagNames)
  {
    FlatMapPermutation(RowPostings(p), rows, rows');
    LedgerIgnoresOrder(e, Postings(rows, p), Postings(rows', p), p.basis);
    FlatMapPermutation(RowEntries(p), rows, rows');
    FlatMapPermutation(RowIfUnknown(p), rows, rows');
    FlatMapPermutation(PricedRow(LedgerAfter(rows, e, p), p), UnknownRows(rows, p), UnknownRows(rows', p));
    var known, known' := KnownEntries(rows, p), KnownEntries(rows', p);
    assert |known| == |multiset(known)| == |multiset(known')| == |known'|;
    assert multiset(FullLog(rows, e, p)) == multiset(FullLog(rows', e, p));
    forall t, k
      ensures CellAmounts(Footprint(rows, e, p), t, k, p.tagNames)
              == CellAmounts(Footprint(rows', e, p), t, k, p.tagNames)
    {
      TableIgnoresRowOrder(FullLog(rows, e, p), FullLog(rows', e, p), t, k, p.tagNames);
    }
  }

  // ----- Carbon follows energy -----

  /** The carbon of an estimate is its energy times the factor of its own region, or of "Unknown" if the
      region has none or has zero; without either it is no number. */
  predicate CarbonFollows(kilowattHours: Num, co2e: Num, region: string, factors: map<string, real>) {
    if kilowattHours.NonFinite? then co2e.NonFinite?
    else if region in factors && factors[region] != 0.0 then co2e == Finite(kilowattHours.value * factors[region])
    else if "Unknown" in factors then co2e == Finite(kilowattHours.value * factors["Unknown"])
    else co2e.NonFinite?
  }

  predicate EntryFollows(entry: Entry, factors: map<string, real>) {
    CarbonFollows(entry.estimate.kilowattHours, entry.estimate.co2e, entry.row.region, factors)
  }

  lemma EstimatedCarbonFollows(kilowattHours: Num, region: string, factors: map<string, real>)
    ensures CarbonFollows(kilowattHours, EstimateCo2(kilowattHours, region, factors), region, factors)
  {}

  lemma CarbonFollowsSums(k: Num, c: Num, k': Num, c': Num, region: string, factors: map<string, real>)
    requires CarbonFollows(k, c, region, factors) && CarbonFollows(k', c', region, factors)
    ensures CarbonFollows(k.Plus(k'), c.Plus(c'), region, factors)
  {
    if k.Finite? && k'.Finite? {
      if region in factors { Distributes(k.value, k'.value, factors[region]); }
      if "Unknown" in factors { Distributes(k.value, k'.value, factors["Unknown"]); }
    }
  }

  lemma Distributes(a: real, b: real, f: real)
    ensures (a + b) * f == a * f + b * f
  {}

  lemma {:induction false} SumsFollow(g: seq<Entry>, region: string, factors: map<string, real>)
    requires g != [] && forall entry :: entry in g ==> entry.row.region == region && EntryFollows(entry, factors)
    ensures CarbonFollows(Total(AllAmounts(g)).kilowattHours, Total(AllAmounts(g)).co2e, region, factors)
  {
    var front, last := g[..|g| - 1], g[|g| - 1];
    assert g == front + [last] && last in g;
    AllAmountsAppend(front, last);
    if front == [] {
      PlusLaws(EntryAmounts(last), ZERO, ZERO);
    } else {
      SumsFollow(front, region, factors);
      CarbonFollowsSums(Total(AllAmounts(front)).kilowattHours, Total(AllAmounts(front)).co2e,
                        last.estimate.kilowattHours, last.estimate.co2e, region, factors);
    }
  }

  lemma {:induction false} GroupMembers(log: seq<Entry>, t: int, k: Key, tagNames: seq<string>)
    ensures forall entry :: entry in Group(log, t, k, tagNames) ==> entry in log && InGroup(entry, t, k, tagNames)
  {
    if log == [] {
    } else {
      GroupMembers(log[..|log| - 1], t, k, tagNames);
    }
  }

  /** If the estimators make carbon of energy by the factor of the region, then so does every cell of
      the result, the rows of an unknown kind and the values that are not numbers included. */
  lemma EveryCellFollowsItsFactor(rows: seq<BillingDataRow>, e: Entries, p: Provider, t: int, k: Key)
    requires forall row :: row in rows && EstimateFor(row, p).Some? ==>
               EntryFollows(Entry(row, EstimateFor(row, p).value), p.factors)
    ensures var cell := Cell(Footprint(rows, e, p), t, k, p.tagNames);
            cell.Some? ==> CarbonFollows(cell.value.amounts.kilowattHours, cell.value.amounts.co2e, k.region, p.factors)
  {
    var log := FullLog(rows, e, p);
    var g := Group(log, t, k, p.tagNames);
    TableIsGroupBy(log, t, k, p.tagNames);
    GroupMembers(log, t, k, p.tagNames);
    forall entry | entry in g
      ensures entry.row.region == k.region && EntryFollows(entry, p.factors)
    {
      FlatMapMember(RowEntries(p), rows, entry);
      FlatMapMember(PricedRow(LedgerAfter(rows, e, p), p), UnknownRows(rows, p), entry);
      EstimatedCarbonFollows(entry.estimate.kilowattHours, entry.row.region, p.factors);
    }
    if g != [] {
      SumsFollow(g, k.region, p.factors);
    }
  }

  // ----- Unknown rows are priced within the rates of the known ones -----

  /** In a new ledger, a row whose unit no posting has is priced at zero. */
  lemma UnseenUnitsArePricedAtZero(ps: seq<Posting>, row: BillingDataRow, p: Provider)
    requires forall q :: q in ps ==> q.usageUnit != row.usageUnit
    ensures UnknownEstimate(row, PostAll(EMPTY, ps, p.basis), p).kilowattHours == Finite(0.0)
  {
    PriceByPostings(UsageOf(row, p.basis), ps, p.basis);
  }

  /** The postings of one unit go to proper services, and the measures of each add up to more than zero. */
  predicate Proper(ps: seq<Posting>, unit: string, basis: Measure) {
    forall q :: q in ps && q.usageUnit == unit ==>
      && q.serviceName != TOTAL
      && q.serviceName != UNDEFINED
      && RunSum(ps, q.serviceName, unit, Measured(basis), basis) > 0.0
  }

  lemma ProperRunsHavePositiveRates(ps: seq<Posting>, unit: string, basis: Measure)
    requires Proper(ps, unit, basis)
    ensures AllPositive(PostAll(EMPTY, ps, basis), Holders(PostAll(EMPTY, ps, basis), unit), unit, basis)
  {
    var e := PostAll(EMPTY, ps, basis);
    forall s | s in Holders(e, unit)
      ensures PositiveAt(e, s, unit, basis)
    {
      AmountAfterRun(EMPTY, ps, s, unit, Measured(basis), basis);
      UnitsAfterRun(EMPTY, ps, s, unit, basis);
      assert PostedTo(ps, s, unit);
    }
  }

  /** In a new ledger, a row whose unit some posting has is priced at a rate between the smallest and
      the largest rate of a service with that unit. */
  lemma SeenUnitsArePricedByKnownRates(ps: seq<Posting>, row: BillingDataRow, p: Provider)
    returns (cheapest: string, dearest: string)
    requires Proper(ps, row.usageUnit, p.basis) && MeasuredOf(row, p.basis) >= 0.0
    requires exists q :: q in ps && q.usageUnit == row.usageUnit
    ensures PricedBetween(UsageOf(row, p.basis), PostAll(EMPTY, ps, p.basis), p.basis, cheapest, dearest)
  {
    var unit, basis := row.usageUnit, p.basis;
    var e, u := PostAll(EMPTY, ps, basis), UsageOf(row, p.basis);
    ProperRunsBalance(ps, unit, basis);
    RunKeepsMeasured(EMPTY, ps, basis);
    UnitsAfterRun(EMPTY, ps, UNDEFINED, unit, basis);
    UnitsAfterRun(EMPTY, ps, TOTAL, unit, basis);
    var q :| q in ps && q.usageUnit == unit;
    assert AddsTo(q, TOTAL, unit);
    assert !PostedTo(ps, UNDEFINED, unit);
    assert PricingKey(u, e) == TOTAL;
    ProperRunsHavePositiveRates(ps, unit, basis);
    cheapest, dearest := PriceIsAMediant(u, e, basis);
  }

  // ----- The service of the row itself -----

  /** What the row would be priced as if its service were handed on. */
  function UsageWithService(row: BillingDataRow, basis: Measure): UnknownUsage {
    UsageOf(row, basis).(service := Some(row.serviceName))
  }

  /** Exactly when it makes no difference that no provider hands the service on, after any postings. */
  lemma OwnServiceMakesNoDifference(row: BillingDataRow, ps: seq<Posting>, basis: Measure)
    ensures var u, u', unit := UsageOf(row, basis), UsageWithService(row, basis), row.usageUnit;
            PriceAfter(u, ps, basis) == PriceAfter(u', ps, basis) <==>
              SamePrice(PostedAt(ps, KeyAfter(u, ps), unit, basis), PostedAt(ps, KeyAfter(u', ps), unit, basis),
                        Some(MeasuredOf(row, basis)))
  {
    PricesAfterRunsAgree(UsageOf(row, basis), ps, UsageWithService(row, basis), ps, basis);
  }

  /** Unless a service is called "undefined": just when nothing is posted to the service for the unit,
      or its rate is the rate of the total, or neither of the two is a number, or there is nothing to
      price. */
  lemma OwnRateIsTheTotalRate(row: BillingDataRow, ps: seq<Posting>, basis: Measure)
    requires !PostedTo(ps, UNDEFINED, row.usageUnit)
    ensures var own := PostedAt(ps, row.serviceName, row.usageUnit, basis);
            var total := PostedAt(ps, TOTAL, row.usageUnit, basis);
            PriceAfter(UsageOf(row, basis), ps, basis) == PriceAfter(UsageWithService(row, basis), ps, basis) <==>
              || !own.any
              || if own.measured == 0.0 || total.measured == 0.0 then own.measured == 0.0 == total.measured
                 else MeasuredOf(row, basis) == 0.0
                      || SameRate(total.kilowattHours, total.measured, own.kilowattHours, own.measured)
  {
    var own, total := PostedAt(ps, row.serviceName, row.usageUnit, basis), PostedAt(ps, TOTAL, row.usageUnit, basis);
    OwnServiceMakesNoDifference(row, ps, basis);
    assert own.any ==> total.any;
    SamePriceAsItself(total, Some(MeasuredOf(row, basis)));
  }

  lemma SamePriceAsItself(a: Posted, x: Option<real>)
    ensures SamePrice(a, a, x)
  {}

  // ----- The ledger outlives the request -----

  /** Asking twice for the same report gives the same table twice. */
  lemma RepeatingARequest(rows: seq<BillingDataRow>, p: Provider)
    ensures Footprint(rows, LedgerAfter(rows, EMPTY, p), p) == Footprint(rows, EMPTY, p)
  {
    var once := LedgerAfter(rows, EMPTY, p);
    var twice := LedgerAfter(rows, once, p);
    forall row: BillingDataRow
      ensures PricedRow(twice, p)(row) == PricedRow(once, p)(row)
    {
      RepeatingKeepsPrices(UsageOf(row, p.basis), Postings(rows, p), p.basis);
    }
    FlatMapCongruent(PricedRow(twice, p), PricedRow(once, p), UnknownRows(rows, p));
  }

  // ----- Examples -----

  /** Rows of an hour at a cost of one; the usage amount of a known row is its kilowatt hours. */
  function ExampleRow(serviceName: string, usageType: string, usageAmount: real): BillingDataRow {
    BillingDataRow(0, "AWS", "1", "one", serviceName, "us-east-1", usageType, "Hrs", usageAmount, 1.0, map[])
  }

  function ExampleOutcome(row: BillingDataRow): Outcome {
    if row.usageType == "unknown" then Deferred
    else Estimated(FootprintEstimate(Finite(row.usageAmount), Finite(0.0), false), Some(row.usageAmount))
  }

  const EXAMPLE := Provider(ExampleOutcome, Cost, map["Unknown" := 1.0], [])

  lemma ExampleLedger(known: BillingDataRow, unknown: BillingDataRow, e: Entries)
    requires known.usageType != "unknown" && unknown.usageType == "unknown"
    ensures LedgerAfter([known, unknown], e, EXAMPLE) == Post(e, PostingOf(known, known.usageAmount, EXAMPLE), Cost)
  {
    assert [known, unknown] == ([] + [known]) + [unknown];
    LedgerAfterOneMore([], known, e, EXAMPLE);
    LedgerAfterOneMore([] + [known], unknown, e, EXAMPLE);
    assert LedgerAfter([], e, EXAMPLE) == e;
    assert EXAMPLE.classify(known) == ExampleOutcome(known) && EXAMPLE.classify(unknown) == Deferred;
  }

  lemma ExampleLog(known: BillingDataRow, unknown: BillingDataRow, e: Entries)
    requires known.usageType != "unknown" && unknown.usageType == "unknown"
    ensures var rows := [known, unknown];
            FullLog(rows, e, EXAMPLE) == [Entry(known, ExampleOutcome(known).estimate),
                                          Entry(unknown,
                                                UnknownEstimate(unknown, LedgerAfter(rows, e, EXAMPLE), EXAMPLE))]
  {
    var rows := [known, unknown];
    var after := LedgerAfter(rows, e, EXAMPLE);
    assert EXAMPLE.classify(known) == ExampleOutcome(known) && EXAMPLE.classify(unknown) == Deferred;
    assert rows == ([] + [known]) + [unknown];
    KnownEntriesOneMore([], known, EXAMPLE);
    KnownEntriesOneMore([] + [known], unknown, EXAMPLE);
    assert KnownEntries(rows, EXAMPLE) == [Entry(known, ExampleOutcome(known).estimate)];
    assert UnknownRows(rows, EXAMPLE) == [unknown];
    FlatMapOfOne(PricedRow(after, EXAMPLE), unknown);
  }

  lemma TotalOfTwo(log: seq<Entry>, first: Entry, second: Entry)
    requires log == [first, second]
    requires first.estimate.kilowattHours.Finite? && second.estimate.kilowattHours.Finite?
    ensures Total(AllAmounts(log)).kilowattHours
            == Finite(first.estimate.kilowattHours.value + second.estimate.kilowattHours.value)
  {
    assert log == ([] + [first]) + [second];
    AllAmountsAppend([], first);
    AllAmountsAppend([] + [first], second);
    assert AllAmounts([]) == [];
  }

  lemma PriceByTotal(row: BillingDataRow, e: Entries, cost: real, kilowattHours: real)
    requires UNDEFINED !in e && row.usageUnit in e[TOTAL] && cost != 0.0
    requires e[TOTAL][row.usageUnit] == Totals(None, Some(cost), kilowattHours)
    ensures UnknownEstimate(row, e, EXAMPLE).kilowattHours == Finite(kilowattHours / cost * row.cost)
  {}

  lemma ExampleTotal(known: BillingDataRow, unknown: BillingDataRow, e: Entries, cost: real, kilowattHours: real)
    requires known.usageType != "unknown" && unknown.usageType == "unknown" && cost != 0.0
    requires var after := Post(e, PostingOf(known, known.usageAmount, EXAMPLE), Cost);
             && UNDEFINED !in after && unknown.usageUnit in after[TOTAL]
             && after[TOTAL][unknown.usageUnit] == Totals(None, Some(cost), kilowattHours)
    ensures GrandTotal(Footprint([known, unknown], e, EXAMPLE)).kilowattHours
            == Finite(known.usageAmount + kilowattHours / cost * unknown.cost)
  {
    var rows := [known, unknown];
    var after := LedgerAfter(rows, e, EXAMPLE);
    var log := FullLog(rows, e, EXAMPLE);
    ExampleLedger(known, unknown, e);
    ExampleLog(known, unknown, e);
    PriceByTotal(unknown, after, cost, kilowattHours);
    GrandTotalIsConserved(log, EXAMPLE.tagNames);
    TotalOfTwo(log, log[0], log[1]);
  }

  const S3 := Posting("Amazon S3", "Hrs", 1.0, 10.0)
  const EC2 := Posting("Amazon EC2", "Hrs", 1.0, 20.0)

  lemma ExampleLedgers()
    ensures UNDEFINED !in Post(EMPTY, EC2, Cost) && UNDEFINED !in Post(Post(EMPTY, S3, Cost), EC2, Cost)
    ensures Post(EMPTY, EC2, Cost)[TOTAL] == map["Hrs" := Totals(None, Some(1.0), 20.0)]
    ensures Post(Post(EMPTY, S3, Cost), EC2, Cost)[TOTAL] == map["Hrs" := Totals(None, Some(2.0), 30.0)]
    ensures Post(Post(EMPTY, S3, Cost), EC2, Cost)["Amazon EC2"] == map["Hrs" := Totals(None, Some(1.0), 20.0)]
  {
    var e := Post(EMPTY, S3, Cost);
    assert e[TOTAL] == map["Hrs" := Totals(None, Some(1.0), 10.0)];
    assert Post(EMPTY, EC2, Cost)[TOTAL] == map["Hrs" := Totals(None, Some(1.0), 20.0)];
    assert Post(e, EC2, Cost)[TOTAL] == map["Hrs" := Totals(None, Some(2.0), 30.0)];
    assert Post(e, EC2, Cost)["Amazon EC2"] == map["Hrs" := Totals(None, Some(1.0), 20.0)];
  }

  /** The same report, asked for first and asked for after another report, gets two different totals. */
  lemma EarlierRequestsChangePrices()
    ensures var earlier := [ExampleRow("Amazon S3", "storage", 10.0), ExampleRow("Amazon S3", "unknown", 0.0)];
            var own := [ExampleRow("Amazon EC2", "compute", 20.0), ExampleRow("Amazon EC2", "unknown", 0.0)];
            && GrandTotal(Footprint(own, EMPTY, EXAMPLE)).kilowattHours == Finite(40.0)
            && GrandTotal(Footprint(own, LedgerAfter(earlier, EMPTY, EXAMPLE), EXAMPLE)).kilowattHours == Finite(35.0)
  {
    var s3, other := ExampleRow("Amazon S3", "storage", 10.0), ExampleRow("Amazon S3", "unknown", 0.0);
    var ec2, unknown := ExampleRow("Amazon EC2", "compute", 20.0), ExampleRow("Amazon EC2", "unknown", 0.0);
    ExampleLedger(s3, other, EMPTY);
    assert PostingOf(s3, s3.usageAmount, EXAMPLE) == S3 && PostingOf(ec2, ec2.usageAmount, EXAMPLE) == EC2;
    ExampleLedgers();
    ExampleTotal(ec2, unknown, EMPTY, 1.0, 20.0);
    ExampleTotal(ec2, unknown, Post(EMPTY, S3, Cost), 2.0, 30.0);
  }

  /** A unit that only earlier requests have posted is priced at zero in a new ledger, and not in theirs. */
  lemma EarlierUnitsGetAPrice()
    ensures var earlier, own := [S3], [Posting("Amazon EC2", "GB", 1.0, 20.0)];
            var u := UnknownUsage(None, "Hrs", Some(1.0), None);
            && PriceAfter(u, own, Cost) == Finite(0.0)
            && PriceAfter(u, earlier + own, Cost) == Finite(10.0)
  {
    var own := Posting("Amazon EC2", "GB", 1.0, 20.0);
    RunOfOne(own);
    RunOfTwo(S3, own);
    assert Post(EMPTY, S3, Cost)[TOTAL] == map["Hrs" := Totals(None, Some(1.0), 10.0)];
    assert Post(EMPTY, own, Cost)[TOTAL] == map["GB" := Totals(None, Some(1.0), 20.0)];
    assert Post(Post(EMPTY, S3, Cost), own, Cost)[TOTAL]["Hrs"] == Totals(None, Some(1.0), 10.0);
  }

  /** After two postings for the unit, the row of one of the services is priced by the mean rate of both
      and not by the rate of its own. */
  lemma OwnServiceIsNotUsed()
    ensures var ps, row := [S3] + [EC2], ExampleRow("Amazon EC2", "unknown", 0.0);
            && PriceAfter(UsageOf(row, Cost), ps, Cost) == Finite(15.0)
            && PriceAfter(UsageWithService(row, Cost), ps, Cost) == Finite(20.0)
  {
    RunOfTwo(S3, EC2);
    ExampleLedgers();
  }

  lemma RunOfOne(p: Posting)
    ensures PostAll(EMPTY, [p], Cost) == Post(EMPTY, p, Cost)
  {
    assert [p][..0] == [];
    assert PostAll(EMPTY, [p], Cost) == Post(PostAll(EMPTY, [p][..0], Cost), p, Cost);
  }

  lemma RunOfTwo(p: Posting, q: Posting)
    ensures PostAll(EMPTY, [p] + [q], Cost) == Post(Post(EMPTY, p, Cost), q, Cost)
  {
    RunOfOne(p);
    assert ([p] + [q])[..1] == [p];
    assert PostAll(EMPTY, [p] + [q], Cost) == Post(PostAll(EMPTY, ([p] + [q])[..1], Cost), q, Cost);
  }
}
