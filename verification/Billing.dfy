/** The rows of a billing report and the estimates made from them. */
module Billing {
  import opened Numbers

  datatype BillingDataRow = BillingDataRow(
    timestamp: int, cloudProvider: string, accountId: string, accountName: string,
    serviceName: string, region: string, usageType: string, usageUnit: string,
    usageAmount: real, cost: real, tags: map<string, string>)

  datatype FootprintEstimate = FootprintEstimate(kilowattHours: Num, co2e: Num, usesAverageCPUConstant: bool)

  /** One row together with the estimate made for it. */
  datatype Entry = Entry(row: BillingDataRow, estimate: FootprintEstimate)

  function EntryAmounts(e: Entry): Amounts {
    Amounts(e.estimate.kilowattHours, e.estimate.co2e, Finite(e.row.cost), e.estimate.usesAverageCPUConstant)
  }
}
