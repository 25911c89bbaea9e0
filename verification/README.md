# Cloud carbon footprint: verified model

Cloud billing rows become energy and carbon estimates: rows are classified, estimated, accumulated by
day and service, priced by average rates where their kind is unknown, merged with a cache, reduced and
stored. Between the calls to the cloud providers these are accumulators, partitions, merges and caches
whose correctness is global: sums, coverage, uniqueness, independence of order. This project models them
in Dafny and proves such properties for all inputs and all runs.

Where the program updates objects in place, the model has a class or a loop whose `ensures` equates the
new state with a function of the old one; what the program promises is then proved about that function.
Quantities are reals; a division that the program does not guard gives a value that is not finite and
absorbs what it meets. Times are milliseconds in UTC. The usage type lists, the estimators for known
usage, the tables of constants and the remote services are arbitrary parameters.

## Parts

| part | modules |
|---|---|
| Two-pass estimation of a billing report | `Billing`, `DayTableSpec`, `DayTableByFields`, `DayTable`, `LedgerSpec`, `LedgerBalance`, `Ledger`, `UnknownUsages`, `EngineSpec`, `EngineByRows`, `Engine` |
| Cache of estimates and its file | `EstimateCache`, `CacheRound`, `CacheFile` |
| Cutting time ranges into requests | `BackwardChunks` (AWS), `AzureChunks` |
| Stores with state | `StoreSpec`, `FootprintStore`, `EmbodiedSaves`, `ZoneFactors`, `RetryClient`, `ConfigMerge`, `FootprintSync` |
| Reductions | `Reduction`, `RegionData`, `RegionByFields`, `ComputeUsages`, `Watts` |
| Shared | `Options`, `Folding`, `Numbers` |

`dafny verify dfyconfig.toml` checks everything.

## Where the code does less than one would expect

These are properties that one would expect and that the code does not have. The lemmas named give an
input for which the property fails, or the exact condition under which it holds.

- **The ledger of kilowatt hours outlives a request.** It is a module constant
  (packages/aws/src/domain/AwsFootprintEstimationConstants.ts:147), so a request prices its unknown rows
  by the postings of earlier requests as well. `EngineSpec.EarlierRequestsChangePrices` gives two reports
  and `EngineSpec.EarlierUnitsGetAPrice` a unit that only the earlier request knows;
  `UnknownUsages.HistoryChangesPrices` is the exact condition for all postings and usages, and
  `UnknownUsages.HistoryChangesTotals` the same case by case for the usages that the providers ask about.
  Repeating one request is harmless (`EngineSpec.RepeatingARequest`).
- **Unknown rows are never priced by their own service.** The estimator looks the service up first, but
  no provider passes one (packages/aws/src/lib/CostAndUsageReports.ts:402-406), so the lookup goes to the
  key "undefined" and then to the totals. `EngineSpec.OwnServiceIsNotUsed` is a row priced at 15 where its
  own service would give 20; `EngineSpec.OwnServiceMakesNoDifference` and `EngineSpec.OwnRateIsTheTotalRate`
  say exactly when the two agree.
- **A service called "total"** shares its key with the running totals and is counted twice
  (`LedgerBalance.TotalServiceBreaksBalance`; exactly when a run stays balanced:
  `LedgerBalance.RunKeepsBalance`).
- **Azure chunks lose records** that end in the last two milliseconds of a chunk: one millisecond is
  subtracted from the end and the filter excludes the end as well. At the end of a whole number of steps a
  record of no duration is returned twice (`AzureChunks.LastMillisecondIsLost`,
  `AzureChunks.EndIsReturnedTwice`; exactly when chunks and single query agree:
  `AzureChunks.ChunksAgreeWithOneQuery`).
- **A save replaces a whole window**, both ends included, of a connection. Regions saved one after the other
  replace each other (`StoreSpec.LaterRegionReplacesEarlierOnes`), and of a single region rows on the first day of
  every window but the oldest are lost (`StoreSpec.BoundaryDayIsLost`; exactly when nothing is:
  `StoreSpec.RegionKeepsItsRows` for a region, `StoreSpec.RunKeepsAllItSaved` for any saves).
- **Embodied rows drift.** The end of the period of an embodied metric is computed in place on its own
  timestamp, an object shared by the metrics of a day, and the metrics of a region are saved again after
  each service. Rows are stored late by a day for each sharing metric and each save, and leave the window
  that later saves replace (`FootprintStore.EmbodiedRowsAreLate`, `FootprintStore.TwoMetricsOfADay`,
  `EmbodiedSaves.EarlierServicesAreLater`, `EmbodiedSaves.ThreeServicesStoreTwice`; exactly when one copy is
  left: `FootprintStore.RepeatedResponse`, `EmbodiedSaves.OneCopyIsLeft`).
- **The oldest request for daily data can be empty**, with the same first and last day
  (`BackwardChunks.OneMillisecondTooMany`; exactly when: `BackwardChunks.EmptyDayRange`).
- **An empty line is no delimiter of the cache file**, although a comment says so
  (packages/app/src/common/helpers.ts:74), and a comma is one. The file of an empty cache has an empty line;
  if the stream library hands it on, the reader takes it for an entry (`CacheFile.EmptyFile`; exactly when
  the file is read back as written: `CacheFile.RoundTrip`).

The helpers for missing dates, filling and merging have no caller in the repository at this commit;
`CacheRound` composes them as their documentation describes.

## Model

| member | source | states |
|---|---|---|
| `DayTable.MutableServiceEstimate.HasSameKey` | `packages/core/src/FootprintEstimate.ts:238-260` | two service estimates match exactly when region, service and account are equal and every configured tag is absent from both or has one value in both |
| `DayTable.MutableServiceEstimate.Accumulate` | `packages/core/src/FootprintEstimate.ts:209-223` | energy, carbon and cost are added and the constant flag is kept once set; nothing else changes |
| `DayTable.EstimateTable.FindResult` | `packages/core/src/FootprintEstimate.ts:195-197` | finds the first day of the list with the timestamp, or none |
| `DayTable.MutableEstimationResult.FindService` | `packages/core/src/FootprintEstimate.ts:200-207` | finds the first service estimate of the day with the same key, or none |
| `DayTable.MutableEstimationResult.AccumulateAt` | `packages/core/src/FootprintEstimate.ts:209-223` | updating one service estimate in place changes no other of the day |
| `DayTable.MutableEstimationResult.Push` | `packages/core/src/FootprintEstimate.ts:224-226` | a pushed service estimate comes last and the others stay |
| `DayTable.MutableEstimationResult.AddToResult` | `packages/core/src/FootprintEstimate.ts:199-226` | an estimate is added to the service with its key or appended to the day |
| `DayTable.EstimateTable.AddToDay` | `packages/core/src/FootprintEstimate.ts:199-226` | adding to one day in place changes no other day of the table |
| `DayTable.EstimateTable.AddDay` | `packages/core/src/FootprintEstimate.ts:227-235` | pushing a day extends the list and changes no other day |
| `DayTable.EstimateTable.AppendOrAccumulate` | `packages/core/src/FootprintEstimate.ts:175-236` | the services of every day after one row, for the list of objects as it is updated in place |
| `DayTableSpec.TableIsGroupBy` | `packages/core/src/FootprintEstimate.ts:175-260` | after any run of rows every cell is a plain group-by: names of the first row of its group, sums of all of them, flags or-ed |
| `DayTableSpec.TableIsWellFormed` | `packages/core/src/FootprintEstimate.ts:195-236` | timestamps are pairwise distinct, keys are pairwise distinct within each day, no day is empty |
| `DayTableSpec.EveryServiceIsACell` | `packages/core/src/FootprintEstimate.ts:195-236` | every service estimate of such a table is the one its day and key look up, so the group-by accounts for all of them |
| `DayTableByFields.EveryServiceHasItsRows` | `packages/core/src/FootprintEstimate.ts:175-260` | after any run of rows each service estimate has the plain sums of kilowatt hours, carbon and row cost over exactly the rows of its day that agree with it in region, service, account and configured tags, and the names and tags of the first of them |
| `DayTableByFields.EveryRowHasAService` | `packages/core/src/FootprintEstimate.ts:195-236` | each row agrees, in those fields, with a service estimate of its day |
| `DayTableByFields.NoServiceTwice` | `packages/core/src/FootprintEstimate.ts:195-236` | no two days share a timestamp, and no two service estimates of a day agree in those fields |
| `DayTableByFields.AppendInPlace` | `packages/core/src/FootprintEstimate.ts:195-236` | a row changes amounts only, or appends one service to its day or one day to the table; everything else stays in its place |
| `DayTableSpec.GrandTotalIsConserved` | `packages/core/src/FootprintEstimate.ts:209-226` | the table adds up to what the rows brought in, for every run |
| `DayTableByFields.TableAddsUp` | `packages/core/src/FootprintEstimate.ts:209-226` | the table adds up to the plain sums of the kilowatt hours, the carbon and the costs of all rows |
| `DayTableSpec.TableIgnoresRowOrder` | `packages/core/src/FootprintEstimate.ts:175-236` | permuting the rows leaves which cells exist and their amounts unchanged |
| `Ledger.KilowattHoursLedger.SetOrAccumulateByServiceAndUsageUnit` | `packages/core/src/FootprintEstimate.ts:112-152` | sets or accumulates the service's unit, and changes no other entry |
| `Ledger.KilowattHoursLedger.SetOrAccumulateUsageUnitTotals` | `packages/core/src/FootprintEstimate.ts:154-173` | sets or accumulates the running total of the unit, and changes no other entry |
| `Ledger.KilowattHoursLedger.AccumulateKilowattHours` | `packages/core/src/FootprintEstimate.ts:92-110` | the new ledger after one posting, service first and total second |
| `LedgerSpec.PostAt` | `packages/core/src/FootprintEstimate.ts:92-173` | what a posting does to each key: once under its service, once under "total", twice if they are the same |
| `LedgerSpec.PostCommutes` | `packages/core/src/FootprintEstimate.ts:92-173` | two postings give the same ledger in either order |
| `LedgerSpec.LedgerIgnoresOrder` | `packages/core/src/FootprintEstimate.ts:92-173` | the ledger after a run depends on its postings only as a multiset |
| `LedgerBalance.AmountAfterPost` | `packages/core/src/FootprintEstimate.ts:112-173` | every amount of every key and unit gains exactly what the posting brings to it |
| `LedgerBalance.AmountAfterRun` | `packages/core/src/FootprintEstimate.ts:92-173` | after any run each amount has grown by the sum of what the postings bring, services called "total" included |
| `LedgerBalance.UnitsAfterRun` | `packages/core/src/FootprintEstimate.ts:92-173` | an entry exists after any run iff it did before or some posting goes to it |
| `LedgerBalance.RunKeepsBalanceAt` | `packages/core/src/FootprintEstimate.ts:92-173` | exactly when a run keeps "a total exists iff some service has the unit, and equals the sum over services", for each unit on its own |
| `LedgerBalance.RunKeepsBalance` | `packages/core/src/FootprintEstimate.ts:92-173` | exactly when a run keeps the whole ledger balanced |
| `LedgerBalance.PostKeepsBalance` | `packages/core/src/FootprintEstimate.ts:92-173` | the same for a single posting, by its service, unit, energy and measure |
| `LedgerBalance.ProperRunsBalance` | `packages/core/src/FootprintEstimate.ts:92-173` | a unit that no service called "total" posts is balanced after every run from the empty ledger |
| `LedgerBalance.TotalServiceBreaksBalance` | `packages/core/src/FootprintEstimate.ts:118-152` | a service called "total" breaks the balance at once |
| `LedgerBalance.TotalRateIsAMediant` | `packages/core/src/unknown/UnknownEstimator.ts:65-73` | the rate of the total lies between the smallest and the largest rate of a service with the unit |
| `UnknownUsages.PriceByAmounts` | `packages/core/src/unknown/UnknownEstimator.ts:48-75` | which entry prices a usage, at what rate, and zero when there is none |
| `UnknownUsages.PriceIsFinite` | `packages/core/src/unknown/UnknownEstimator.ts:58-74` | exactly when an unknown usage gets a number |
| `UnknownUsages.PriceIsAMediant` | `packages/core/src/unknown/UnknownEstimator.ts:65-73` | a usage priced by the totals gets an amount between what two services with the unit would charge |
| `UnknownUsages.PriceByPostings` | `packages/core/src/unknown/UnknownEstimator.ts:48-75` | the price of a usage after any run, by what was posted to its service or else to its unit |
| `UnknownUsages.PricesAfterRunsAgree` | `packages/core/src/unknown/UnknownEstimator.ts:48-75` | exactly when two usages of the same amount are priced the same after two runs, numbers or not |
| `UnknownUsages.HistoryChangesPrices` | `packages/aws/src/domain/AwsFootprintEstimationConstants.ts:147-149` | exactly when earlier requests do not change a price, for all postings and usages |
| `UnknownUsages.HistoryChangesTotals` | `packages/aws/src/lib/CostAndUsageReports.ts:399-417` | the same, case by case, for the usages without a service that providers ask about |
| `UnknownUsages.RepeatingKeepsPrices` | `packages/core/src/unknown/UnknownEstimator.ts:48-75` | posting any run again leaves every price as it was, finite or not |
| `EngineSpec.InterleavingDoesNotMatter` | `packages/aws/src/lib/CostAndUsageReports.ts:143-191` | result list and ledger are the same for every interleaving of the same known rows with the same unknown rows; without known rows the result is empty |
| `EngineSpec.RowOrderDoesNotMatter` | `packages/aws/src/lib/CostAndUsageReports.ts:143-191` | permuting all rows leaves the ledger and every cell's amounts unchanged, prices of unknown rows included |
| `EngineSpec.UnseenUnitsArePricedAtZero` | `packages/core/src/unknown/UnknownEstimator.ts:65-74` | in a new ledger a row whose unit no posting has is priced at zero |
| `EngineSpec.SeenUnitsArePricedByKnownRates` | `packages/aws/src/lib/CostAndUsageReports.ts:399-417` | in a new ledger a row whose unit was posted, with a positive sum of measures for each service, is priced within the services' rates |
| `EngineByRows.LedgerByRows` | `packages/aws/src/lib/CostAndUsageReports.ts:143-191` | after any report a new ledger holds, per service and unit and in the total per unit, the sum of the posted kilowatt hours and, by the basis of the provider, of the costs or usage amounts of the estimated rows, unless a service is called "total" |
| `EngineByRows.UnknownRowIsPriced` | `packages/core/src/unknown/UnknownEstimator.ts:48-75` | an unknown row of any report costs the quotient of those two sums over all rows of its unit times its own cost or usage amount, unless a service is called "total" or "undefined"; its carbon follows its region |
| `EngineByRows.FootprintByRows` | `packages/gcp/src/lib/BillingExportTable.ts:105-152` | the footprint of a report is the table of its estimated rows followed by its unknown rows with those prices, and empty without estimated rows |
| `EngineByRows.UnknownRowIsInTheFootprint` | `packages/gcp/src/lib/BillingExportTable.ts:138-151` | each unknown row is counted, with its price, in the service estimate of its own day, region, service, account and tags |
| `EngineSpec.OwnServiceMakesNoDifference` | `packages/aws/src/lib/CostAndUsageReports.ts:402-406` | exactly when a row is priced as its own service would price it, after any postings |
| `EngineSpec.OwnRateIsTheTotalRate` | `packages/aws/src/lib/CostAndUsageReports.ts:402-406` | the same by the rates of the service and of the total, unless a service is called "undefined" |
| `EngineSpec.OwnServiceIsNotUsed` | `packages/aws/src/lib/CostAndUsageReports.ts:402-406` | a row and two postings for which the two prices differ |
| `EngineSpec.EveryCellFollowsItsFactor` | `packages/core/src/FootprintEstimate.ts:285-294` | if carbon is energy times the factor listed for the region, or that of "Unknown" where none or zero is listed, for every known estimate, it is for every cell of the result, priced rows and values that are not numbers included |
| `EngineSpec.RepeatingARequest` | `packages/aws/src/lib/CostAndUsageReports.ts:143-191` | asking twice for the same report gives the same table although the ledger is kept |
| `EngineSpec.EarlierRequestsChangePrices` | `packages/aws/src/lib/CostAndUsageReports.ts:407-410` | a report whose total is 40 when asked for first and 35 after another report |
| `EngineSpec.EarlierUnitsGetAPrice` | `packages/aws/src/lib/CostAndUsageReports.ts:407-410` | a usage priced at 0 by its own request and at 10 after an earlier one |
| `Engine.GetFootprintEstimateFromUsageRow` | `packages/aws/src/lib/CostAndUsageReports.ts:260-276` | drops, defers or estimates a row; only an estimated one can post to the ledger |
| `Engine.ProcessRow` | `packages/gcp/src/lib/BillingExportTable.ts:110-136` | one row of the first pass: the new table, ledger and list of deferred rows |
| `Engine.FirstPass` | `packages/azure/src/lib/ConsumptionManagement.ts:122-152` | table, ledger and deferred rows after all rows |
| `Engine.SecondPass` | `packages/azure/src/lib/ConsumptionManagement.ts:154-166` | the deferred rows are added priced by the complete ledger, which is only read |
| `Engine.GetEstimates` | `packages/aws/src/lib/CostAndUsageReports.ts:131-191` | both passes give the specified table and ledger for any rows, any starting ledger and any classification |
| `EstimateCache.MergeEstimates` | `packages/app/src/common/helpers.ts:221-252` | the index loops compute the recursive merge for any two lists, sorted or not |
| `EstimateCache.MergeHasAllDates` | `packages/app/src/common/helpers.ts:221-252` | the merged list has exactly the dates of both, even of unsorted lists |
| `EstimateCache.MergeIsLeftBiasedUnion` | `packages/app/src/common/helpers.ts:216-252` | on strictly sorted lists the result is strictly sorted and for each date holds the first list's entry, or else the second's |
| `EstimateCache.SortedListsAreMaps` | `packages/app/src/common/helpers.ts:216-220` | a strictly sorted list is determined by what it holds for each date |
| `EstimateCache.MergeIsAssociative` | `packages/app/src/common/helpers.ts:221-252` | merging three sorted lists does not depend on the grouping |
| `EstimateCache.MergeIsIdempotent` | `packages/app/src/common/helpers.ts:221-252` | merging a list with itself, or merging it in again, changes nothing |
| `CacheRound.GetDatesWithinRequestTimeFrame` | `packages/app/src/common/helpers.ts:144-158` | the loop gives the period starts from the first up to the end, for any increasing calendar |
| `CacheRound.DatesAreThePeriodStarts` | `packages/app/src/common/helpers.ts:144-158` | those are exactly the iterated period starts, from that of the start of the request on, not after its end; strictly increasing, none left out |
| `CacheRound.GetMissingDates` | `packages/app/src/common/helpers.ts:166-189` | the dates of the request that no cached estimate has, in order |
| `CacheRound.MissingMembers` | `packages/app/src/common/helpers.ts:181-188` | a date is missing iff the request has it and the cache does not |
| `CacheRound.SortFacts` | `packages/app/src/common/helpers.ts:130-132` | sorting keeps the entries and, among equal dates, the one that came first |
| `CacheRound.FillFacts` | `packages/app/src/common/helpers.ts:106-133` | filling keeps every fetched estimate and adds an empty one for each other missing date |
| `CacheRound.FillIsSorted` | `packages/app/src/common/helpers.ts:120-132` | with distinct dates the filled list is strictly sorted |
| `CacheRound.OneRoundClosesAllGaps` | `packages/app/src/common/helpers.ts:106-252` | after one round of missing dates, fill and merge nothing is missing, whatever was cached and fetched |
| `CacheRound.RoundContents` | `packages/app/src/common/helpers.ts:106-252` | per date the round holds the fetched estimate, else the cached one, else an empty one if asked for; the list stays strictly sorted |
| `CacheFile.WriteToFile` | `packages/app/src/common/helpers.ts:19-47` | the file is bracket, entries joined by separators, bracket, for every window size from one on |
| `CacheFile.LayoutInText` | `packages/app/src/common/helpers.ts:19-47` | that text itself: brackets on lines of their own, a line for each entry, a line with a comma between two of them |
| `CacheFile.RoundTrip` | `packages/app/src/common/helpers.ts:19-77` | the reader gives back any list of entries exactly when each is one line and no delimiter, and an empty list exactly when empty lines are not seen |
| `CacheFile.EmptyFile` | `packages/app/src/common/helpers.ts:19-77` | what is read from the file of an empty cache, whichever way the stream library treats the empty line |
| `BackwardChunks.GetQueryByInterval` | `packages/aws/src/lib/ServiceWrapper.ts:75-106` | one result per window, the most recent first: the i-th is the query for the window from i + 1 steps back from the end, or the start, to i steps back, up to the first window that reaches the start |
| `BackwardChunks.WindowsByIndex` | `packages/aws/src/lib/ServiceWrapper.ts:84-103` | the windows by arithmetic: their number, and both ends of each |
| `BackwardChunks.WindowsTile` | `packages/aws/src/lib/ServiceWrapper.ts:84-103` | windows meet end to start, cover the range, are not empty, all but the oldest as long as the interval, as few as possible |
| `BackwardChunks.TilingCoversOnce` | `packages/aws/src/lib/ServiceWrapper.ts:84-103` | each instant of the range lies in exactly one window, any other in none |
| `BackwardChunks.RecuttingAWindow` | `packages/aws/src/application/AWSAccount.ts:81-120` | cutting a window again by the same interval gives that window only |
| `BackwardChunks.DaysAreCoveredOnce` | `packages/aws/src/lib/EC2.ts:136-159` | after cutting boundaries down to days each day of the range is asked for exactly once |
| `BackwardChunks.EmptyDayRange` | `packages/aws/src/lib/EC2.ts:155-159` | exactly when some request gets the same first and last day |
| `BackwardChunks.OneMillisecondTooMany` | `packages/aws/src/lib/EC2.ts:155-159` | a range for which a request comes out empty |
| `BackwardChunks.GetDataForWindows` | `packages/aws/src/application/AWSAccount.ts:84-119` | a region is read window by window up to its first failure |
| `BackwardChunks.GetDataForRegions` | `packages/aws/src/application/AWSAccount.ts:74-123` | the nested loops give, per region, the data of the windows before the first failure |
| `BackwardChunks.KeptDataIsOneRange` | `packages/aws/src/application/AWSAccount.ts:88-120` | for every pattern of failures what is kept of a region is one unbroken range that ends at the end of the request |
| `BackwardChunks.RegionsAreIndependent` | `packages/aws/src/application/AWSAccount.ts:81-122` | a region's data does not depend on how requests for other regions turn out |
| `AzureChunks.QueryConsumptionUsageDetails` | `packages/azure/src/lib/ConsumptionManagement.ts:328-374` | the retry loop ends with the rows of the chunk, or throws |
| `AzureChunks.DeliversIffSomeTryDoes` | `packages/azure/src/lib/ConsumptionManagement.ts:335-374` | a query gets rows exactly when one of eleven tries delivers and every earlier one hit the rate limit |
| `AzureChunks.QueryInChunks` | `packages/azure/src/lib/ConsumptionManagement.ts:394-425` | the loop terminates and gives the rows of all chunks in order, or throws if any chunk does |
| `AzureChunks.GetConsumptionUsageDetails` | `packages/azure/src/lib/ConsumptionManagement.ts:376-426` | one query without a chunk size, otherwise all chunks, or an error |
| `AzureChunks.CaughtOnce` | `packages/azure/src/lib/ConsumptionManagement.ts:401-423` | how many chunks match a record that does not end before it starts: none, one, or two |
| `AzureChunks.WholeNumberOfSteps` | `packages/azure/src/lib/ConsumptionManagement.ts:401-423` | the end is matched twice exactly when the range is a whole number of steps |
| `AzureChunks.ChunksAgreeWithOneQuery` | `packages/azure/src/lib/ConsumptionManagement.ts:376-426` | exactly when chunks return nothing more often than the single query, and exactly when they return the same, as multisets |
| `AzureChunks.LastMillisecondIsLost` | `packages/azure/src/lib/ConsumptionManagement.ts:408-419` | a record lasting to the last millisecond of its day is lost by chunks of a day |
| `AzureChunks.EndIsReturnedTwice` | `packages/azure/src/lib/ConsumptionManagement.ts:401-423` | a record of no duration at the end is returned twice by chunks of a day |
| `StoreSpec.RunIsTheSurvivors` | `packages/common/src/database/connection.ts:204-224` | after any run of saves the table holds, in order, exactly the rows no later non-empty save covers |
| `StoreSpec.SaveInFields` | `packages/common/src/database/connection.ts:208-219` | a save with rows keeps, in order, the rows of other connections and those outside its dates and adds its own; a save without rows changes nothing |
| `StoreSpec.OutsideMembers` | `packages/common/src/database/connection.ts:210-214` | a stored row is gone exactly when it is of the connection and its timestamp is within the dates, both included; any other keeps its multiplicity |
| `StoreSpec.SaveKeepsOtherConnections` | `packages/common/src/database/connection.ts:208-219` | a save leaves all rows of all other connections, in order |
| `StoreSpec.ConnectionsAreIndependent` | `packages/common/src/database/connection.ts:208-219` | after any run of saves the rows of a connection are, in order, what its own saves alone would have left |
| `StoreSpec.RunKeepsOtherConnections` | `packages/common/src/database/connection.ts:208-219` | any run of saves for other connections leaves all rows of a connection, in order |
| `StoreSpec.LastWriterWins` | `packages/common/src/database/connection.ts:208-219` | per connection and timestamp the rows are those of the last save of that connection that has rows and whose dates include the timestamp, or else what was stored; other connections are untouched |
| `StoreSpec.RunKeepsAllItSaved` | `packages/common/src/database/connection.ts:208-219` | a run keeps all it saved exactly when no row falls into a later save's window |
| `StoreSpec.LaterRegionReplacesEarlierOnes` | `packages/aws/src/application/AWSAccount.ts:81-120` | once a region has saved every window of a request, nothing stored before remains between the ends of the request |
| `StoreSpec.RegionKeepsItsRows` | `packages/aws/src/application/AWSAccount.ts:84-119` | the windows of a region keep all their rows exactly when none sits on a boundary shared with the next window |
| `StoreSpec.BoundaryDayIsLost` | `packages/aws/src/application/AWSAccount.ts:84-119` | two windows of a region of which only the older one's row is left |
| `StoreSpec.OnlyTheLastSaveIsLeft` | `packages/common/src/database/connection.ts:208-219` | from any table, several saves for one window leave what the last alone would, exactly when the others' rows keep to the window |
| `StoreSpec.RepeatedSave` | `packages/common/src/database/connection.ts:208-219` | repeating a save changes nothing but ids exactly when its rows keep to its window |
| `FootprintStore.Date.AddDays` | `packages/common/src/database/connection.ts:183-183` | moves the date object itself |
| `FootprintStore.Database.FlattenEstimates` | `packages/common/src/database/connection.ts:156-179` | one row per service estimate, in order |
| `FootprintStore.Database.AdvanceDates` | `packages/common/src/database/connection.ts:181-183` | every date ends up moved on by a day for each metric that holds it |
| `FootprintStore.Database.ReadEmbodiedRows` | `packages/common/src/database/connection.ts:184-200` | the inserted rows show the dates as they are after all of them were moved on |
| `FootprintStore.Database.ReplaceWindow` | `packages/common/src/database/connection.ts:203-219` | deletes exactly the rows of the connection within the dates and appends the new ones, or does nothing when there are none |
| `FootprintStore.Database.SaveFootprintResponse` | `packages/common/src/database/connection.ts:143-227` | the new table, the new dates and the count of service estimates and metrics; after a failed transaction the old table and the new dates; the rows of other connections stay, in order, either way |
| `FootprintStore.SavedRowsCount` | `packages/common/src/database/connection.ts:156-226` | a row for each service estimate and each metric |
| `FootprintStore.SavedServiceRow` | `packages/common/src/database/connection.ts:156-179` | field by field what is stored of each service estimate, and where |
| `FootprintStore.SavedMetricRow` | `packages/common/src/database/connection.ts:181-200` | field by field what is stored of each embodied metric, after the services, under its date moved on by 86,400,000 ms for each metric that holds it; nothing else is stored |
| `FootprintStore.EmbodiedRowsAreLate` | `packages/common/src/database/connection.ts:181-189` | every embodied row is a day or more late, with a period of no length |
| `FootprintStore.TwoMetricsOfADay` | `packages/common/src/database/connection.ts:181-189` | two metrics that share a date are stored two days late, and twice when saved twice for a day |
| `FootprintStore.RepeatedResponse` | `packages/common/src/database/connection.ts:143-227` | saving a response again leaves one copy exactly when its estimates, and its metrics as moved on, lie in the window |
| `EmbodiedSaves.SaveMetrics` | `packages/common/src/database/connection.ts:181-219` | one save of a region's metrics, failed or not: stored data, window replaced, dates outside untouched |
| `EmbodiedSaves.SaveStages` | `packages/aws/src/application/AWSAccount.ts:322-476` | the run of saves over the growing list of metrics |
| `EmbodiedSaves.SaveServiceByService` | `packages/aws/src/application/AWSAccount.ts:322-476` | each service's metrics are added and all saved again: the resulting rows, saves and dates for any services and any failing saves |
| `EmbodiedSaves.StoredAt` | `packages/aws/src/application/AWSAccount.ts:348-354` | each save stores each metric, in its place, under its date moved on by a day for every sharing metric of every save so far |
| `EmbodiedSaves.MovedByEverySave` | `packages/aws/src/application/AWSAccount.ts:322-476` | each save from its own service's on moves a metric's date by a day or more |
| `EmbodiedSaves.EarlierServicesAreLater` | `packages/aws/src/application/AWSAccount.ts:322-476` | the last save stores a service's metrics late by a day for it and for each service after it |
| `EmbodiedSaves.OneCopyIsLeft` | `packages/aws/src/application/AWSAccount.ts:322-476` | from any table, the run leaves what its last save alone would exactly when the earlier saves that went through found all dates, as moved on, in the window |
| `EmbodiedSaves.FirstAndLastDecide` | `packages/aws/src/application/AWSAccount.ts:322-476` | when all saves go through that is decided by each metric's first save and the last save but one |
| `EmbodiedSaves.ThreeServicesStoreTwice` | `packages/aws/src/application/AWSAccount.ts:322-476` | one metric and three services leave it stored twice, on two dates |
| `ZoneFactors.ElectricityMaps.BeforeRequest` | `packages/common/src/EmissionsFactors.ts:24-43` | answers from the defaults or the cache, or has to ask |
| `ZoneFactors.ElectricityMaps.AfterReply` | `packages/common/src/EmissionsFactors.ts:46-79` | cache and answer after a reply, with the cache as other calls left it |
| `ZoneFactors.StepKeepsInv` | `packages/common/src/EmissionsFactors.ts:38-79` | every start and every reply keeps all cached factors correct and loses none |
| `ZoneFactors.ConcurrentCallsAgreeWithTheSource` | `packages/common/src/EmissionsFactors.ts:17-80` | under any interleaving of calls, each with its own zones and defaults, every cached factor is the grams of the source divided by 1,000,000, and every call answers that factor, its defaults without token, zone or intensity, or fails |
| `ZoneFactors.FailsIffUnreachable` | `packages/common/src/EmissionsFactors.ts:45-53` | in any run a call fails exactly when the reply to its request is that the source cannot be reached |
| `ZoneFactors.AnswersTheCallStarted` | `packages/common/src/EmissionsFactors.ts:17-80` | in any run each answer belongs to the call that was started under its number |
| `ZoneFactors.EntriesAreNeverLost` | `packages/common/src/EmissionsFactors.ts:65-75` | once a reply has been cached, every later call for its zone and date is answered from it |
| `RetryClient.OxygenIT.EnforceRateLimit` | `packages/common/src/OxygenIT.ts:201-211` | the next request starts the minimum interval or more after the last |
| `RetryClient.OxygenIT.SendRequest` | `packages/common/src/OxygenIT.ts:225-229` | the start of a request is remembered and keeps its distance |
| `RetryClient.OxygenIT.SendNext` | `packages/common/src/OxygenIT.ts:224-229` | the requests of a call stay backed off and spaced |
| `RetryClient.OxygenIT.BackOff` | `packages/common/src/OxygenIT.ts:243-250` | waits the delay of the attempt or longer |
| `RetryClient.OxygenIT.ExecuteWithRetry` | `packages/common/src/OxygenIT.ts:218-260` | sends the specified number of requests, spaced and backed off, and ends with the last one's reply |
| `RetryClient.SpacedPairwise` | `packages/common/src/OxygenIT.ts:172-211` | over all calls of a client any two requests start 100 ms or more apart |
| `RetryClient.SucceedsIfSomeAttemptDoes` | `packages/common/src/OxygenIT.ts:224-256` | a call succeeds exactly when one of its first four requests does after failures worth repeating; nothing follows any other failure |
| `RetryClient.RequestsOfACall` | `packages/common/src/OxygenIT.ts:218-260` | at most four requests; one is followed by another, up to the fourth, exactly when it fails with an HTTP error without a status or with one below 500 |
| `RetryClient.RetryDelays` | `packages/common/src/OxygenIT.ts:174-176` | the requests of a call start at least 1, 2 and 4 seconds after the one before |
| `ConfigMerge.DeepMergeInto` | `packages/api/src/services/footprintSync.ts:25-52` | filling a copy key by key, in any order, gives the merged tree |
| `ConfigMerge.MergeByPath` | `packages/api/src/services/footprintSync.ts:33-48` | path by path at any depth: source values win, undefined leaves the target's, objects merge |
| `ConfigMerge.MergeWithItself` | `packages/api/src/services/footprintSync.ts:25-52` | merging a tree with itself gives the tree |
| `ConfigMerge.MergeAbsorbs` | `packages/api/src/services/footprintSync.ts:25-52` | applying an override twice is applying it once |
| `FootprintSync.SyncCloudConnectionFootprint` | `packages/api/src/services/footprintSync.ts:71-128` | the app runs under the merged configuration and the default is back afterwards, whether or not it throws and whatever it has set |
| `FootprintSync.SyncAllCloudFootprints` | `packages/api/src/services/footprintSync.ts:168-234` | each connection is synced under the default with its own override, and the configuration is unchanged afterwards |
| `FootprintSync.EveryConnectionIsReported` | `packages/api/src/services/footprintSync.ts:168-234` | the records of the connections that did not throw are added up, exactly those that threw are listed, in order, and both kinds add up to the connections |
| `FootprintSync.OverrideReachesTheApp` | `packages/api/src/services/footprintSync.ts:181-196` | an AWS connection runs with its own account, with estimates and both kinds of metrics and without billing data, whatever the default says |
| `FootprintSync.AuthenticationReachesTheApp` | `packages/api/src/services/footprintSync.ts:188-195` | it signs in in the mode of AWS, with its external id if it has one and with that of the default if not |
| `FootprintSync.TheRestIsTheDefault` | `packages/api/src/services/footprintSync.ts:25-52` | every other setting of AWS and every other section is as in the default |
| `FootprintSync.OthersRunWithTheDefault` | `packages/api/src/services/footprintSync.ts:178-181` | a connection of another provider, or without an account, runs with the default configuration |
| `Reduction.ReduceByTimestamp` | `packages/common/src/EstimationResult.ts:49-89` | the keyed accumulation gives the specified list |
| `Reduction.ReducedIsGrouped` | `packages/common/src/EstimationResult.ts:49-89` | one entry per timestamp in order of first occurrence, with all its service estimates in order |
| `Reduction.ReductionIsAHomomorphism` | `packages/common/src/EstimationResult.ts:49-89` | reducing two parts and then their concatenation is reducing the whole |
| `Reduction.RegionsThenAll` | `packages/app/src/App.ts:264-270` | reducing and sorting each region first loses, repeats and reorders nothing within a timestamp |
| `RegionData.AggregateByDay` | `packages/core/src/FootprintEstimate.ts:39-69` | days in order of their first record, each with the sums of its records |
| `RegionData.GetServiceResults` | `packages/core/src/CloudProviderAccount.ts:31-86` | the full outer join of a service's estimates and costs by day |
| `RegionData.JoinDates` | `packages/core/src/CloudProviderAccount.ts:61-83` | per day of the union the estimate or zeros, and the cost or zero |
| `RegionData.JoinConserves` | `packages/core/src/CloudProviderAccount.ts:31-86` | the join adds up to all estimates and all costs |
| `RegionData.GetRegionData` | `packages/core/src/CloudProviderAccount.ts:26-92` | joins every service, reduces by timestamp and sorts |
| `RegionData.RegionConserves` | `packages/core/src/CloudProviderAccount.ts:26-92` | a region's result adds up, in plain sums of the fields, to the kilowatt hours and carbon of all estimates and the amounts of all costs, and is strictly sorted by day |
| `RegionByFields.RegionDays` | `packages/core/src/CloudProviderAccount.ts:26-92` | the entry of a day has just the services with an estimate or a cost from its midnight to the next, in order, each with the plain sums of the fields of those |
| `ComputeUsages.ComputeUsageBuilder.AddCpuUtilization` | `packages/core/src/compute/ComputeUsage.ts:27-32` | keeps every measurement but zero, in order |
| `ComputeUsages.ComputeUsageBuilder.Build` | `packages/core/src/compute/ComputeUsage.ts:39-51` | the average times the number of measurements is their sum, or it is the constant and the flag is set when there are none |
| `ComputeUsages.GroupedComputeUsages.MergeUsageByTimestamp` | `packages/core/src/compute/ComputeUsage.ts:71-84` | one record updates the builder of its timestamp and no other, and other records are ignored |
| `ComputeUsages.BuildComputeUsages` | `packages/core/src/compute/ComputeUsage.ts:86-97` | the usages of all timestamps with positive hours, in order of first occurrence |
| `ComputeUsages.UsagesAreTheHours` | `packages/core/src/compute/ComputeUsage.ts:86-97` | a timestamp is in the result, once, exactly when its last reported hours are positive |
| `ComputeUsages.UsageByFields` | `packages/core/src/compute/ComputeUsage.ts:27-97` | in each usage the average times the number of records with id "cpuUtilization", the timestamp and a value that is not zero is the sum of their values, or it is the constant with its flag if there is none; the hours are those of the last record with id "vCPUs" |
| `ComputeUsages.EveryHourHasItsUsage` | `packages/core/src/compute/ComputeUsage.ts:86-97` | a timestamp is in the result exactly when the last record with id "vCPUs" for it is positive, and never twice |
| `ComputeUsages.ReorderingKeepsUsage` | `packages/core/src/compute/ComputeUsage.ts:71-97` | any reordering that keeps a timestamp's hours in order gives the same usage |
| `ComputeUsages.UtilizationStaysInRange` | `packages/core/src/compute/ComputeUsage.ts:39-51` | the utilization lies within its measurements and the constant |
| `Watts.SortSorts` | `packages/core/src/FootprintEstimate.ts:270-275` | the list the median is taken of is sorted and a permutation |
| `Watts.WattsAreTheMean` | `packages/core/src/FootprintEstimate.ts:266-283` | without Sandy Bridge and Ivy Bridge a group gets the mean of its watts, and the average of all processors if one is unknown or the mean is zero |
| `Watts.WattsAreTheMiddle` | `packages/core/src/FootprintEstimate.ts:266-277` | with either of them it gets the middle of the sorted watts, or the mean of the two middle ones, with unknown ones last, and the average if one of those is in the middle or the result is zero |
| `Watts.SortKeepsBelow` | `packages/core/src/FootprintEstimate.ts:270-275` | sorting keeps one list below another element by element |
| `Watts.StatisticsKeepOrder` | `packages/core/src/FootprintEstimate.ts:266-283` | mean or median of the minimum watts is defined just when that of the maximum watts is, and does not exceed it |
| `Watts.StatisticsStayInRange` | `packages/core/src/FootprintEstimate.ts:266-283` | a defined mean or median lies between any bounds of the group's watts |
| `Watts.MinWattsAtMostMaxWatts` | `packages/aws/src/domain/AwsFootprintEstimationConstants.ts:69-121` | minimum watts do not exceed maximum watts for every group of known, unknown or mixed processors |
| `Watts.EnergyIsLinear` | `packages/core/src/compute/ComputeEstimator.ts:15-34` | the energy at 0 percent is that of the minimum watts, at 100 percent that of the maximum watts, and in between a proportional share; average watts are used as they are |
| `Watts.EnergyIsMonotone` | `packages/core/src/compute/ComputeEstimator.ts:15-34` | more utilization never takes less energy, and with average watts it makes no difference |

## Left out

- Cloud SDK calls, HTTP and Express routes, SQL text, logging, credentials, prompts, the web client and the command line: input and output. Remote services are parameters that may fail.
- Floating point rounding; quantities are reals. Values that are not finite are modelled in the two-pass engine only.
- Calendars and time zones: a day is 86,400,000 ms, as in UTC; periods are an arbitrary increasing calendar. The end dates of periods and the grouping stored beside each estimate (packages/common/src/helpers/helpers.ts:31-46) are not modelled.
- The usage type lists and the estimators for known usage of each provider: an arbitrary classification of rows. The tables of constants: arbitrary maps.
- A request to the emissions factor service that fails ends a run over a report early; `Engine` models runs to the end, and `ZoneFactors` the requests.
- The path for user supplied input data (packages/aws/src/lib/CostAndUsageReports.ts:193-258), which has no accumulation.
- JSON encoding of the cached estimates: entries are their encoded texts. The stream library is the split at newlines, with or without the empty lines.
- DayTable.EstimateTable.AppendOrAccumulate: the period's start and end and the grouping of a new day are left out; they are determined by its timestamp and the request.
- Reduction.ReduceByTimestamp: the period's start and end and the grouping of an entry are left out.
- RegionData.GetRegionData: account and provider of an estimate, the period of an entry and the save at the end are left out; the save is in `FootprintStore`.
- RegionData.GetServiceResults: every value is a number; a value that is not one, which the code turns into zero or passes on, is not modelled.
- CacheFile.WriteToFile: the window is a parameter and not the constant 100, and the stream is the text written to it.
- BackwardChunks.GetQueryByInterval: intervals of zero or fewer days, for which the loop would not end, are not modelled.
- AzureChunks.ChunksAgreeWithOneQuery: records that end before they start are not covered; the waiting time after a rate limit and paging within a query are not modelled.
- ZoneFactors.ConcurrentCallsAgreeWithTheSource: the source says the same of a zone and date each time; a call that cannot reach it fails.
- RetryClient.OxygenIT.ExecuteWithRetry: calls of one client follow each other; concurrent callers are not covered.
- FootprintStore.Database.SaveFootprintResponse: ids are a counter, tags are not encoded, creation times are left out, operational timestamps are values, and the transaction is one step.
- EmbodiedSaves.SaveServiceByService: a service that fails, and so neither adds nor saves anything, is not listed.
- BackwardChunks.RegionsAreIndependent: requests are answered from their region and window alone; what other regions leave in the store is in `StoreSpec`.
- FootprintSync.SyncCloudConnectionFootprint: the updates of the connection and of the audit log are part of the app's outcome; syncs follow each other.
- The local calculation of embodied emissions and the instance tables of the OxygenIT client, the aggregation of embodied metrics by day and type, token pagination, and the report tables of the command line: the same kinds of group-by, sum and loop as above on simpler data.
