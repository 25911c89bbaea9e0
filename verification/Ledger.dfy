/** The ledger object that the estimators share and update in place. */
module Ledger {
  import opened LedgerSpec

  class KilowattHoursLedger {
    var entries: Entries

    constructor ()
      ensures entries == EMPTY
    {
      entries := EMPTY;
    }

    method SetOrAccumulateByServiceAndUsageUnit(p: Posting, basis: Measure)
      modifies this
      ensures entries == PostService(old(entries), p, basis)
    {
      if p.serviceName !in entries {
        entries := entries[p.serviceName := map[p.usageUnit := NewTotals(p, basis)]];
        return;
      }
      var units := entries[p.serviceName];
      if p.usageUnit !in units {
        entries := entries[p.serviceName := units[p.usageUnit := NewTotals(p, basis)]];
        return;
      }
      var t := units[p.usageUnit];
      t := t.WithMeasured(basis, t.Measured(basis).GetOr(0.0) + p.measured);
      t := t.(kilowattHours := t.kilowattHours + p.kilowattHours);
      entries := entries[p.serviceName := units[p.usageUnit := t]];
    }

    method SetOrAccumulateUsageUnitTotals(p: Posting, basis: Measure)
      modifies this
      ensures entries == PostTotal(old(entries), p, basis)
    {
      var units := entries[TOTAL];
      if p.usageUnit in units {
        var t := units[p.usageUnit];
        t := t.WithMeasured(basis, t.Measured(basis).GetOr(0.0) + p.measured);
        t := t.(kilowattHours := t.kilowattHours + p.kilowattHours);
        entries := entries[TOTAL := units[p.usageUnit := t]];
      } else {
        entries := entries[TOTAL := units[p.usageUnit := NewTotals(p, basis)]];
      }
    }

    method AccumulateKilowattHours(p: Posting, basis: Measure)
      modifies this
      ensures entries == Post(old(entries), p, basis)
    {
      SetOrAccumulateByServiceAndUsageUnit(p, basis);
      SetOrAccumulateUsageUnitTotals(p, basis);
    }
  }
}
