/** Saving the embodied metrics of a region service by service, each time together with those of the
    services before. */
module EmbodiedSaves {
  import opened BackwardChunks
  import opened FootprintStore
  import opened StoreSpec

  // ----- What the dates show -----

  type Times = map<Date, int>

  ghost function TimesOf(dates: set<Date>): (times: Times)
    reads dates
    ensures times.Keys == dates
  {
    map d | d in dates :: d.time
  }

  /** Each date moved on by a day for every metric that holds it. */
  function MovedOn(times: Times, metrics: seq<EmbodiedMetric>): (moved: Times)
    ensures moved.Keys == times.Keys
  {
    map d | d in times :: times[d] + Days(Sharing(metrics, d))
  }

  /** What the dates of some metrics show. */
  function Shown(metrics: seq<EmbodiedMetric>, times: Times): (shown: seq<int>)
    requires Dates(metrics) <= times.Keys
    ensures |shown| == |metrics|
    ensures forall i :: 0 <= i < |metrics| ==> metrics[i].timestamp in times && shown[i] == times[metrics[i].timestamp]
  {
    seq(|metrics|, i requires 0 <= i < |metrics| => assert metrics[i] in metrics; times[metrics[i].timestamp])
  }

  function EmbodiedData(metrics: seq<EmbodiedMetric>, shown: seq<int>, cloudConnectionId: string): seq<CloudFootprint>
    requires |shown| == |metrics|
  {
    seq(|metrics|, i requires 0 <= i < |metrics| => EmbodiedFootprint(metrics[i], shown[i], cloudConnectionId))
  }

  // ----- One save -----

  lemma {:induction false} NoneShares(metrics: seq<EmbodiedMetric>, n: nat, d: Date)
    requires n <= |metrics| && d !in Dates(metrics)
    ensures SharingAmong(metrics, n, d) == 0
  {
    if n == 0 {
    } else {
      assert metrics[n - 1] in metrics;
      NoneShares(metrics, n - 1, d);
    }
  }

  lemma ShownAfterMove(metrics: seq<EmbodiedMetric>, times: Times)
    requires Dates(metrics) <= times.Keys
    ensures Shown(metrics, MovedOn(times, metrics)) == Advanced(metrics, Shown(metrics, times))
  {}

  /** Dates that show the advanced times of the metrics, and otherwise what they showed before, have
      been moved on. */
  lemma MovedIsAdvanced(metrics: seq<EmbodiedMetric>, times: Times, times': Times)
    requires Dates(metrics) <= times.Keys == times'.Keys
    requires Shown(metrics, times') == Advanced(metrics, Shown(metrics, times))
    requires forall d :: d in times && d !in Dates(metrics) ==> times'[d] == times[d]
    ensures times' == MovedOn(times, metrics)
  {
    forall d | d in times
      ensures times'[d] == times[d] + Days(Sharing(metrics, d))
    {
      if d in Dates(metrics) {
        var i :| 0 <= i < |metrics| && metrics[i].timestamp == d;
        assert Shown(metrics, times')[i] == Shown(metrics, times)[i] + Days(Sharing(metrics, d));
      } else {
        NoneShares(metrics, |metrics|, d);
      }
    }
  }

  lemma SavedData(metrics: seq<EmbodiedMetric>, times: Times, cloudConnectionId: string, nextId: nat)
    requires Dates(metrics) <= times.Keys
    ensures Data(SavedRows([], metrics, Shown(metrics, times), cloudConnectionId, nextId))
            == EmbodiedData(metrics, Shown(metrics, MovedOn(times, metrics)), cloudConnectionId)
  {
    ShownAfterMove(metrics, times);
    var now := Advanced(metrics, Shown(metrics, times));
    assert SavedRows([], metrics, Shown(metrics, times), cloudConnectionId, nextId)
        == EmbodiedRows(metrics, now, cloudConnectionId, nextId);
  }

  /** Saves some metrics; the dates outside of them stay as they are.  If the transaction fails, the table
      stays as it is, as it does under a save without rows, but the dates have been moved on. */
  method SaveMetrics(db: Database, metrics: seq<EmbodiedMetric>, ghost dates: set<Date>,
                     cloudConnectionId: string, startDate: int, endDate: int, commits: bool)
    returns (ghost op: Save)
    requires Dates(metrics) <= dates
    modifies db, Dates(metrics)
    ensures TimesOf(dates) == MovedOn(old(TimesOf(dates)), metrics)
    ensures ForWindow(op, cloudConnectionId, startDate, endDate) && db.rows == Apply(old(db.rows), op)
    ensures Data(op.rows)
            == if commits then EmbodiedData(metrics, Shown(metrics, TimesOf(dates)), cloudConnectionId) else []
  {
    ghost var times, nextId := TimesOf(dates), db.nextId;
    assert FootprintStore.Times(metrics) == Shown(metrics, TimesOf(dates));
    var _ := db.SaveFootprintResponse([], metrics, cloudConnectionId, startDate, endDate, commits);
    assert FootprintStore.Times(metrics) == Shown(metrics, TimesOf(dates));
    ghost var rows := SavedRows([], metrics, Shown(metrics, times), cloudConnectionId, nextId);
    op := Save(cloudConnectionId, startDate, endDate, if commits then rows else []);
    SavedData(metrics, times, cloudConnectionId, nextId);
    MovedIsAdvanced(metrics, times, TimesOf(dates));
  }

  // ----- The run -----

  /** The metrics of the first n services. */
  function MetricsOf(batches: seq<seq<EmbodiedMetric>>, n: nat): seq<EmbodiedMetric>
    requires n <= |batches|
  {
    if n == 0 then [] else MetricsOf(batches, n - 1) + batches[n - 1]
  }

  /** What each save is given: the metrics of all the services so far. */
  function Stages(batches: seq<seq<EmbodiedMetric>>): (stages: seq<seq<EmbodiedMetric>>)
    ensures |stages| == |batches|
    ensures forall k :: 0 <= k < |stages| ==> stages[k] == MetricsOf(batches, k + 1)
  {
    seq(|batches|, k requires 0 <= k < |batches| => MetricsOf(batches, k + 1))
  }

  /** What the dates show after n saves. */
  function TimesAfter(stages: seq<seq<EmbodiedMetric>>, n: nat, times: Times): (after: Times)
    requires n <= |stages|
    ensures after.Keys == times.Keys
  {
    if n == 0 then times else MovedOn(TimesAfter(stages, n - 1, times), stages[n - 1])
  }

  lemma {:induction false} MetricsOfGrow(batches: seq<seq<EmbodiedMetric>>, m: nat, n: nat)
    requires m <= n <= |batches|
    ensures MetricsOf(batches, m) <= MetricsOf(batches, n)
  {
    if m == n {
    } else {
      MetricsOfGrow(batches, m, n - 1);
    }
  }

  /** What a run is given: the metrics of each save, which of the saves go through, what the dates show at
      first, and the connection and window of all the saves. */
  datatype Region = Region(stages: seq<seq<EmbodiedMetric>>, commits: nat -> bool, times: Times,
                           cloudConnectionId: string, startDate: int, endDate: int)

  /** A save stores each of its metrics under its date as moved on by all the saves so far; a save that
      fails stores nothing. */
  ghost predicate Stores(op: Save, region: Region, k: nat)
    requires k < |region.stages|
  {
    var metrics := region.stages[k];
    && ForWindow(op, region.cloudConnectionId, region.startDate, region.endDate)
    && Dates(metrics) <= region.times.Keys
    && Data(op.rows) ==
       if region.commits(k)
       then EmbodiedData(metrics, Shown(metrics, TimesAfter(region.stages, k + 1, region.times)),
                         region.cloudConnectionId)
       else []
  }

  ghost predicate StoredInTurn(ops: seq<Save>, region: Region) {
    |ops| <= |region.stages| && forall k :: 0 <= k < |ops| ==> Stores(ops[k], region, k)
  }

  lemma StoredOneMore(ops: seq<Save>, op: Save, region: Region)
    requires StoredInTurn(ops, region) && |ops| < |region.stages| && Stores(op, region, |ops|)
    ensures StoredInTurn(ops + [op], region)
  {
    var more := ops + [op];
    forall k | 0 <= k < |more|
      ensures Stores(more[k], region, k)
    {
      if k < |ops| {
        assert more[k] == ops[k];
      } else {
        assert more[k] == op;
      }
    }
  }

  lemma RunOneMore(stored: seq<Row>, ops: seq<Save>, op: Save)
    ensures Run(stored, ops + [op]) == Apply(Run(stored, ops), op)
  {
    assert (ops + [op])[..|ops + [op]| - 1] == ops;
  }

  /** The next save of the run. */
  method SaveNext(db: Database, metrics: seq<EmbodiedMetric>, ghost dates: set<Date>, ghost region: Region,
                  ghost k: nat, cloudConnectionId: string, startDate: int, endDate: int, commits: bool)
    returns (ghost op: Save)
    requires k < |region.stages| && region.stages[k] == metrics && region.commits(k) == commits
    requires region.cloudConnectionId == cloudConnectionId && region.startDate == startDate && region.endDate == endDate
    requires Dates(metrics) <= dates && TimesOf(dates) == TimesAfter(region.stages, k, region.times)
    modifies db, Dates(metrics)
    ensures TimesOf(dates) == TimesAfter(region.stages, k + 1, region.times)
    ensures Stores(op, region, k) && db.rows == Apply(old(db.rows), op)
  {
    op := SaveMetrics(db, metrics, dates, cloudConnectionId, startDate, endDate, commits);
  }

  /** Each stage has the metrics of the one before it and those of its own service. */
  ghost predicate AddUp(stages: seq<seq<EmbodiedMetric>>, batches: seq<seq<EmbodiedMetric>>) {
    |stages| == |batches| && forall k :: 0 <= k < |stages| ==> stages[k] == Before(stages, k) + batches[k]
  }

  function Before(stages: seq<seq<EmbodiedMetric>>, k: nat): seq<EmbodiedMetric>
    requires k <= |stages|
  {
    if k == 0 then [] else stages[k - 1]
  }

  lemma StagesAddUp(batches: seq<seq<EmbodiedMetric>>)
    ensures AddUp(Stages(batches), batches)
    ensures Before(Stages(batches), |batches|) == MetricsOf(batches, |batches|)
  {
    var stages := Stages(batches);
    forall k | 0 <= k < |stages|
      ensures stages[k] == Before(stages, k) + batches[k]
    {
      BeforeIsMetricsOf(batches, k);
    }
    BeforeIsMetricsOf(batches, |batches|);
  }

  lemma BeforeIsMetricsOf(batches: seq<seq<EmbodiedMetric>>, k: nat)
    requires k <= |batches|
    ensures Before(Stages(batches), k) == MetricsOf(batches, k)
    ensures k < |batches| ==> MetricsOf(batches, k + 1) == MetricsOf(batches, k) + batches[k]
  {
    var stages := Stages(batches);
    assert k > 0 ==> stages[k - 1] == MetricsOf(batches, k);
  }

  lemma StagesHoldTheDates(batches: seq<seq<EmbodiedMetric>>)
    ensures forall k :: 0 <= k < |batches| ==> Dates(Stages(batches)[k]) <= Dates(MetricsOf(batches, |batches|))
  {
    forall k | 0 <= k < |batches|
      ensures Dates(Stages(batches)[k]) <= Dates(MetricsOf(batches, |batches|))
    {
      MetricsOfGrow(batches, k + 1, |batches|);
    }
  }

  method SaveStages(db: Database, batches: seq<seq<EmbodiedMetric>>, commits: nat -> bool, cloudConnectionId: string,
                    startDate: int, endDate: int, ghost region: Region, ghost dates: set<Date>)
    returns (results: seq<EmbodiedMetric>, ghost ops: seq<Save>)
    requires AddUp(region.stages, batches) && region.commits == commits
    requires region.cloudConnectionId == cloudConnectionId && region.startDate == startDate && region.endDate == endDate
    requires TimesOf(dates) == region.times
    requires forall k :: 0 <= k < |region.stages| ==> Dates(region.stages[k]) <= dates
    modifies db, dates
    ensures results == Before(region.stages, |batches|)
    ensures TimesOf(dates) == TimesAfter(region.stages, |batches|, region.times)
    ensures |ops| == |batches| && StoredInTurn(ops, region)
    ensures db.rows == Run(old(db.rows), ops)
  {
    results, ops := [], [];
    for n := 0 to |batches|
      invariant results == Before(region.stages, n)
      invariant TimesOf(dates) == TimesAfter(region.stages, n, region.times)
      invariant |ops| == n && StoredInTurn(ops, region)
      invariant db.rows == Run(old(db.rows), ops)
    {
      results := results + batches[n];
      var op := SaveNext(db, results, dates, region, n, cloudConnectionId, startDate, endDate, commits(n));
      RunOneMore(old(db.rows), ops, op);
      StoredOneMore(ops, op, region);
      ops := ops + [op];
    }
  }

  /** Each service that answers adds its metrics to those of the region, and all of them are saved again,
      whether or not the saves before have failed.  A service that fails adds and saves nothing; it is not
      among the batches. */
  method SaveServiceByService(db: Database, batches: seq<seq<EmbodiedMetric>>, commits: nat -> bool,
                              cloudConnectionId: string, startDate: int, endDate: int)
    returns (results: seq<EmbodiedMetric>, ghost ops: seq<Save>)
    modifies db, Dates(MetricsOf(batches, |batches|))
    ensures results == MetricsOf(batches, |batches|)
    ensures var times := old(TimesOf(Dates(MetricsOf(batches, |batches|))));
            && TimesOf(Dates(results)) == TimesAfter(Stages(batches), |batches|, times)
            && StoredInTurn(ops, Region(Stages(batches), commits, times, cloudConnectionId, startDate, endDate))
    ensures db.rows == Run(old(db.rows), ops) && |ops| == |batches|
  {
    ghost var dates := Dates(MetricsOf(batches, |batches|));
    ghost var region := Region(Stages(batches), commits, TimesOf(dates), cloudConnectionId, startDate, endDate);
    StagesAddUp(batches);
    StagesHoldTheDates(batches);
    results, ops := SaveStages(db, batches, commits, cloudConnectionId, startDate, endDate, region, dates);
  }

  // ----- How late the metrics end up -----

  /** By how many days the first n saves move a date on. */
  function Moves(stages: seq<seq<EmbodiedMetric>>, n: nat, d: Date): nat
    requires n <= |stages|
  {
    if n == 0 then 0 else Moves(stages, n - 1, d) + Sharing(stages[n - 1], d)
  }

  /** Where the date of a metric that showed some time at first is after n saves. */
  function DateAfter(stages: seq<seq<EmbodiedMetric>>, n: nat, m: EmbodiedMetric, time: int): int
    requires n <= |stages|
  {
    time + Days(Moves(stages, n, m.timestamp))
  }

  lemma {:induction false} TimesAfterMoves(stages: seq<seq<EmbodiedMetric>>, n: nat, times: Times, d: Date)
    requires n <= |stages| && d in times
    ensures TimesAfter(stages, n, times)[d] == times[d] + Days(Moves(stages, n, d))
  {
    if n == 0 {
    } else {
      TimesAfterMoves(stages, n - 1, times, d);
    }
  }

  lemma {:induction false} MovesGrow(stages: seq<seq<EmbodiedMetric>>, m: nat, n: nat, d: Date)
    requires m <= n <= |stages|
    ensures Moves(stages, m, d) <= Moves(stages, n, d)
  {
    if m == n {
    } else {
      MovesGrow(stages, m, n - 1, d);
    }
  }

  /** The metrics of a save are there in every later save. */
  ghost predicate Growing(stages: seq<seq<EmbodiedMetric>>) {
    forall j, k, m :: 0 <= j <= k < |stages| && m in stages[j] ==> m in stages[k]
  }

  lemma StagesGrow(batches: seq<seq<EmbodiedMetric>>)
    ensures Growing(Stages(batches))
    ensures forall k, m :: 0 <= k < |batches| && m in batches[k] ==> m in Stages(batches)[k]
  {
    var stages := Stages(batches);
    forall j, k, m | 0 <= j <= k < |stages| && m in stages[j]
      ensures m in stages[k]
    {
      MetricsOfGrow(batches, j + 1, k + 1);
    }
  }

  lemma SharesItsOwnDate(metrics: seq<EmbodiedMetric>, m: EmbodiedMetric)
    requires m in metrics
    ensures Sharing(metrics, m.timestamp) >= 1
  {
    var i :| 0 <= i < |metrics| && metrics[i] == m;
    SharingAtLeastOne(metrics, |metrics|, i);
  }

  /** Every save from that of its own service on moves the date of a metric on. */
  lemma {:induction false} MovedByEverySave(stages: seq<seq<EmbodiedMetric>>, j: nat, n: nat, m: EmbodiedMetric)
    requires Growing(stages) && j < n <= |stages| && m in stages[j]
    ensures Moves(stages, n, m.timestamp) >= n - j
  {
    SharesItsOwnDate(stages[n - 1], m);
    if j < n - 1 {
      MovedByEverySave(stages, j, n - 1, m);
    }
  }

  lemma StoredAt(op: Save, region: Region, k: nat, i: nat)
    requires k < |region.stages| && Stores(op, region, k) && region.commits(k) && i < |region.stages[k]|
    ensures var m := region.stages[k][i];
            && m.timestamp in region.times && |op.rows| == |region.stages[k]|
            && op.rows[i].data == EmbodiedFootprint(m, DateAfter(region.stages, k + 1, m, region.times[m.timestamp]),
                                                    region.cloudConnectionId)
  {
    var metrics := region.stages[k];
    var shown := Shown(metrics, TimesAfter(region.stages, k + 1, region.times));
    assert |Data(op.rows)| == |op.rows|;
    assert Data(op.rows)[i] == EmbodiedFootprint(metrics[i], shown[i], region.cloudConnectionId);
    TimesAfterMoves(region.stages, k + 1, region.times, metrics[i].timestamp);
  }

  /** The last save stores every metric of a service, in its place, at least a day late for the service
      itself and for each service after it. */
  lemma EarlierServicesAreLater(op: Save, region: Region, j: nat, i: nat)
    requires Growing(region.stages) && j < |region.stages|
    requires var last := |region.stages| - 1;
             && Stores(op, region, last) && region.commits(last)
             && i < |region.stages[last]| && region.stages[last][i] in region.stages[j]
    ensures var last := |region.stages| - 1;
            var m := region.stages[last][i];
            && m.timestamp in region.times && |op.rows| == |region.stages[last]|
            && op.rows[i].data == EmbodiedFootprint(m, DateAfter(region.stages, last + 1, m, region.times[m.timestamp]),
                                                    region.cloudConnectionId)
            && op.rows[i].data.timestamp >= region.times[m.timestamp] + Days(last + 1 - j)
  {
    var last := |region.stages| - 1;
    StoredAt(op, region, last, i);
    MovedByEverySave(region.stages, j, last + 1, region.stages[last][i]);
    DaysGrow(last + 1 - j, Moves(region.stages, last + 1, region.stages[last][i].timestamp));
  }

  lemma DaysGrow(m: int, n: int)
    requires m <= n
    ensures Days(m) <= Days(n)
  {}

  // ----- What is left of the saves -----

  /** The save finds the date of a metric, once it has moved it on, still in the window. */
  predicate InWindowAt(region: Region, k: nat, m: EmbodiedMetric)
    requires k < |region.stages|
  {
    m.timestamp in region.times
    && region.startDate <= DateAfter(region.stages, k + 1, m, region.times[m.timestamp]) <= region.endDate
  }

  ghost predicate AllInWindowAt(region: Region, k: nat)
    requires k < |region.stages|
  {
    forall m :: m in region.stages[k] ==> InWindowAt(region, k, m)
  }

  lemma RowStaysWhenDateDoes(op: Save, region: Region, k: nat, i: nat)
    requires k < |region.stages| && i < |region.stages[k]|
    requires Stores(op, region, k) && region.commits(k)
    ensures |op.rows| == |region.stages[k]|
    ensures InWindow(op, op.rows[i].data.cloudConnectionId, op.rows[i].data.timestamp)
            <==> InWindowAt(region, k, region.stages[k][i])
  {
    StoredAt(op, region, k, i);
  }

  lemma StaysWhenDatesDo(op: Save, region: Region, k: nat)
    requires k < |region.stages| && Stores(op, region, k)
    ensures StaysInWindow(op) <==> (region.commits(k) ==> AllInWindowAt(region, k))
  {
    var metrics := region.stages[k];
    assert |op.rows| == |Data(op.rows)|;
    if region.commits(k) && StaysInWindow(op) {
      forall m | m in metrics
        ensures InWindowAt(region, k, m)
      {
        var i :| 0 <= i < |metrics| && metrics[i] == m;
        RowStaysWhenDateDoes(op, region, k, i);
        assert op.rows[i] in op.rows;
      }
    }
    if region.commits(k) && AllInWindowAt(region, k) {
      forall r | r in op.rows
        ensures InWindow(op, r.data.cloudConnectionId, r.data.timestamp)
      {
        var i :| 0 <= i < |op.rows| && op.rows[i] == r;
        RowStaysWhenDateDoes(op, region, k, i);
        assert metrics[i] in metrics;
      }
    }
  }

  /** Every save but the last, if it goes through, finds all dates still in the window. */
  ghost predicate EarlierInWindow(region: Region) {
    forall k :: 0 <= k < |region.stages| - 1 && region.commits(k) ==> AllInWindowAt(region, k)
  }

  lemma EarlierStay(front: seq<Save>, region: Region)
    requires |front| + 1 == |region.stages| && StoredInTurn(front, region)
    ensures AllForWindow(front, region.cloudConnectionId, region.startDate, region.endDate)
    ensures AllStayInWindow(front) <==> EarlierInWindow(region)
  {
    forall k | 0 <= k < |front|
      ensures ForWindow(front[k], region.cloudConnectionId, region.startDate, region.endDate)
      ensures StaysInWindow(front[k]) <==> (region.commits(k) ==> AllInWindowAt(region, k))
    {
      assert Stores(front[k], region, k);
      StaysWhenDatesDo(front[k], region, k);
    }
  }

  /** Whatever was stored before and whichever of the earlier saves went through: the run leaves what its
      last save alone would leave, each metric once, exactly when the earlier saves that went through
      found all dates still in the window. */
  lemma OneCopyIsLeft(ops: seq<Save>, region: Region, before: seq<Row>)
    requires |ops| == |region.stages| > 0 && StoredInTurn(ops, region)
    requires region.commits(|ops| - 1) && region.stages[|ops| - 1] != []
    ensures Run(before, ops) == Apply(before, ops[|ops| - 1]) <==> EarlierInWindow(region)
  {
    var front, last := ops[..|ops| - 1], ops[|ops| - 1];
    assert ops == front + [last];
    assert Stores(last, region, |ops| - 1);
    assert |Data(last.rows)| == |last.rows|;
    EarlierStay(front, region);
    OnlyTheLastSaveIsLeft(before, front, last, region.cloudConnectionId, region.startDate, region.endDate);
  }

  /** Each metric of an earlier save is not too early at its first save, and not too late at the last
      save but one. */
  ghost predicate FirstAndLastInWindow(region: Region) {
    forall j, m :: 0 <= j < |region.stages| - 1 && m in region.stages[j] ==>
      && m.timestamp in region.times
      && region.startDate <= DateAfter(region.stages, j + 1, m, region.times[m.timestamp])
      && DateAfter(region.stages, |region.stages| - 1, m, region.times[m.timestamp]) <= region.endDate
  }

  lemma DatesGrow(stages: seq<seq<EmbodiedMetric>>, n: nat, last: nat, m: EmbodiedMetric, time: int)
    requires n <= last <= |stages|
    ensures DateAfter(stages, n, m, time) <= DateAfter(stages, last, m, time)
  {
    MovesGrow(stages, n, last, m.timestamp);
    DaysGrow(Moves(stages, n, m.timestamp), Moves(stages, last, m.timestamp));
  }

  lemma LastIsInWindow(region: Region, j: nat, m: EmbodiedMetric)
    requires EarlierInWindow(region) && Growing(region.stages) && forall k :: region.commits(k)
    requires j < |region.stages| - 1 && m in region.stages[j]
    ensures InWindowAt(region, j, m) && InWindowAt(region, |region.stages| - 2, m)
  {
    var last := |region.stages| - 2;
    assert region.commits(j) && region.commits(last);
    assert AllInWindowAt(region, j) && AllInWindowAt(region, last);
    assert m in region.stages[last];
  }

  lemma BetweenFirstAndLast(region: Region, k: nat)
    requires FirstAndLastInWindow(region) && k < |region.stages| - 1
    ensures AllInWindowAt(region, k)
  {
    forall m | m in region.stages[k]
      ensures InWindowAt(region, k, m)
    {
      assert m.timestamp in region.times;
      DatesGrow(region.stages, k + 1, |region.stages| - 1, m, region.times[m.timestamp]);
    }
  }

  /** The dates only grow.  When all saves go through it is enough to look at two dates of each metric. */
  lemma FirstAndLastDecide(region: Region)
    requires Growing(region.stages) && forall k :: region.commits(k)
    ensures EarlierInWindow(region) <==> FirstAndLastInWindow(region)
  {
    if EarlierInWindow(region) {
      forall j, m | 0 <= j < |region.stages| - 1 && m in region.stages[j]
        ensures InWindowAt(region, j, m) && InWindowAt(region, |region.stages| - 2, m)
      {
        LastIsInWindow(region, j, m);
      }
    }
    if FirstAndLastInWindow(region) {
      forall k | 0 <= k < |region.stages| - 1
        ensures AllInWindowAt(region, k)
      {
        BetweenFirstAndLast(region, k);
      }
    }
  }

  /** One metric and two more services that answer, for a window of a day: the metric is stored two days
      late and three days late, and not once. */
  lemma ThreeServicesStoreTwice(ops: seq<Save>, m: EmbodiedMetric, region: Region)
    requires region.stages == Stages([[m], [], []]) && forall k :: region.commits(k)
    requires m.timestamp in region.times
    requires region.startDate == region.times[m.timestamp] && region.endDate == region.startDate + DAY
    requires |ops| == 3 && StoredInTurn(ops, region)
    ensures |ops[1].rows| == 1 && ops[1].rows[0].data.timestamp == region.startDate + Days(2)
    ensures |ops[2].rows| == 1 && ops[2].rows[0].data.timestamp == region.startDate + Days(3)
    ensures Run([], ops) != Apply([], ops[2])
  {
    StagesOfOne(m);
    MovesOfOne(region.stages, m);
    assert Stores(ops[1], region, 1) && Stores(ops[2], region, 2) && region.commits(1) && region.commits(2);
    StoredAt(ops[1], region, 1, 0);
    StoredAt(ops[2], region, 2, 0);
    OneCopyIsLeft(ops, region, []);
    var k := 1;
    assert m in region.stages[k] && !InWindowAt(region, k, m);
    assert region.commits(k) && !AllInWindowAt(region, k);
  }

  lemma StagesOfOne(m: EmbodiedMetric)
    ensures Stages([[m], [], []]) == [[m], [m], [m]]
  {
    var batches := [[m], [], []];
    assert MetricsOf(batches, 0) == [];
    assert MetricsOf(batches, 1) == [m];
    assert MetricsOf(batches, 2) == [m];
    assert MetricsOf(batches, 3) == [m];
  }

  lemma MovesOfOne(stages: seq<seq<EmbodiedMetric>>, m: EmbodiedMetric)
    requires stages == [[m], [m], [m]]
    ensures Moves(stages, 2, m.timestamp) == 2 && Moves(stages, 3, m.timestamp) == 3
  {
    assert SharingAmong([m], 1, m.timestamp) == 1;
    assert Moves(stages, 1, m.timestamp) == 1;
    assert Moves(stages, 2, m.timestamp) == 2;
  }
}
