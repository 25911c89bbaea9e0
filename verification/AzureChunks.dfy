/** Reading Azure usage details in chunks of days, forwards, against reading them in one query. */
module AzureChunks {
  import opened BackwardChunks
  import opened Options

  datatype UsageDetail = UsageDetail(id: string, usageStart: int, usageEnd: int)

  datatype Chunk = Chunk(start: int, end: int, includeEnd: bool)

  predicate Matches(u: UsageDetail, c: Chunk) {
    u.usageStart >= c.start && if c.includeEnd then u.usageEnd <= c.end else u.usageEnd < c.end
  }

  /** What the service returns for a filter. */
  function Query(records: seq<UsageDetail>, c: Chunk): seq<UsageDetail> {
    if records == [] then []
    else
      var rest := Query(records[..|records| - 1], c);
      var u := records[|records| - 1];
      if Matches(u, c) then rest + [u] else rest
  }

  function Chunks(current: int, end: int, step: int, last: bool): seq<Chunk>
    requires step >= 1
    decreases end - current
  {
    if current > end then []
    else
      var chunkEnd := if current + step < end then current + step else end;
      var last' := last || chunkEnd >= end;
      [Chunk(current, if last' then chunkEnd else chunkEnd - 1, last')] + Chunks(current + step, end, step, last')
  }

  function QueryAll(records: seq<UsageDetail>, cs: seq<Chunk>): seq<UsageDetail> {
    if cs == [] then [] else Query(records, cs[0]) + QueryAll(records, cs[1..])
  }

  function WholeRange(start: int, end: int): Chunk {
    Chunk(start, end, true)
  }

  // ----- Queries that may have to be repeated -----

  /** How one try ends: with the rows, with the rate limit used up, or with any other error. */
  datatype Reply = Delivered | RateLimited(retryAfter: nat) | Broken

  /** How the tries for a chunk end, first to last. */
  type Service = (Chunk, nat) -> Reply

  const MAX_RETRIES: nat := 10

  /** Whether the query for a chunk gets its rows, from some try on. */
  predicate Delivers(service: Service, c: Chunk, attempt: nat)
    requires attempt <= MAX_RETRIES + 1
    decreases MAX_RETRIES + 1 - attempt
  {
    attempt <= MAX_RETRIES &&
      match service(c, attempt)
      case Delivered => true
      case RateLimited(_) => Delivers(service, c, attempt + 1)
      case Broken => false
  }

  /** Tries again only after the rate limit, and gives up after the last retry; none if it throws. */
  method QueryConsumptionUsageDetails(records: seq<UsageDetail>, service: Service, c: Chunk)
    returns (rows: Option<seq<UsageDetail>>)
    ensures rows == if Delivers(service, c, 0) then Some(Query(records, c)) else None
  {
    var currentTry := 0;
    while currentTry <= MAX_RETRIES
      invariant currentTry <= MAX_RETRIES + 1
      invariant Delivers(service, c, currentTry) == Delivers(service, c, 0)
    {
      var reply := service(c, currentTry);
      currentTry := currentTry + 1;
      if reply.Delivered? {
        return Some(Query(records, c));
      }
      if reply.Broken? {
        return None;
      }
    }
    return None;
  }

  /** A query gets its rows exactly when one of its eleven tries delivers and every try before that
      one was stopped by the rate limit. */
  lemma {:induction false} DeliversIffSomeTryDoes(service: Service, c: Chunk, attempt: nat)
    requires attempt <= 11
    ensures Delivers(service, c, attempt) <==>
            exists k :: attempt <= k <= 10 && service(c, k).Delivered?
                        && forall i :: attempt <= i < k ==> service(c, i).RateLimited?
    decreases MAX_RETRIES + 1 - attempt
  {
    if attempt <= MAX_RETRIES {
      DeliversIffSomeTryDoes(service, c, attempt + 1);
      assert service(c, attempt).Delivered? || service(c, attempt).RateLimited? || service(c, attempt).Broken?;
    }
  }

  predicate AllDeliver(service: Service, cs: seq<Chunk>) {
    forall i :: 0 <= i < |cs| ==> Delivers(service, cs[i], 0)
  }

  /** The rows of all chunks, or none if the query for some chunk throws. */
  function Outcome(records: seq<UsageDetail>, service: Service, cs: seq<Chunk>): Option<seq<UsageDetail>> {
    if AllDeliver(service, cs) then Some(QueryAll(records, cs)) else None
  }

  function After(rows: seq<UsageDetail>, outcome: Option<seq<UsageDetail>>): Option<seq<UsageDetail>> {
    if outcome.Some? then Some(rows + outcome.value) else None
  }

  lemma AfterNothing(outcome: Option<seq<UsageDetail>>)
    ensures After([], outcome) == outcome
  {
    if outcome.Some? { assert [] + outcome.value == outcome.value; }
  }

  lemma OutcomeStep(records: seq<UsageDetail>, service: Service, c: Chunk, cs: seq<Chunk>, rows: seq<UsageDetail>)
    ensures After(rows, Outcome(records, service, [c] + cs)) ==
            if Delivers(service, c, 0) then After(rows + Query(records, c), Outcome(records, service, cs)) else None
  {
    var all := [c] + cs;
    assert all[0] == c && all[1..] == cs && forall i :: 0 <= i < |cs| ==> all[i + 1] == cs[i];
    assert rows + (Query(records, c) + QueryAll(records, cs)) == (rows + Query(records, c)) + QueryAll(records, cs);
  }

  /** Chunk by chunk, or in one query when no chunk size is configured.  One query that throws is
      enough for the whole call to throw; no rows are kept then. */
  method GetConsumptionUsageDetails(records: seq<UsageDetail>, service: Service, start: int, end: int, chunkDays: nat)
    returns (result: Option<seq<UsageDetail>>)
    ensures var cs := if chunkDays == 0 then [WholeRange(start, end)] else Chunks(start, end, Days(chunkDays), false);
            result == Outcome(records, service, cs)
  {
    if chunkDays == 0 {
      assert QueryAll(records, [WholeRange(start, end)]) == Query(records, WholeRange(start, end));
      assert [WholeRange(start, end)][0] == WholeRange(start, end);
      result := QueryConsumptionUsageDetails(records, service, WholeRange(start, end));
    } else {
      result := QueryInChunks(records, service, start, end, Days(chunkDays));
    }
  }

  method QueryInChunks(records: seq<UsageDetail>, service: Service, start: int, end: int, step: int)
    returns (result: Option<seq<UsageDetail>>)
    requires step >= 1
    ensures result == Outcome(records, service, Chunks(start, end, step, false))
  {
    var rows: seq<UsageDetail> := [];
    var current, last := start, false;
    ghost var outcome := Outcome(records, service, Chunks(start, end, step, false));
    AfterNothing(outcome);
    while current <= end
      invariant outcome == After(rows, Outcome(records, service, Chunks(current, end, step, last)))
      decreases end - current
    {
      ghost var left := Chunks(current, end, step, last);
      var currentEnd := if current + step < end then current + step else end;
      if currentEnd >= end {
        last := true;
      }
      if !last {
        currentEnd := currentEnd - 1;
      }
      var c := Chunk(current, currentEnd, last);
      assert left == [c] + Chunks(current + step, end, step, last);
      OutcomeStep(records, service, c, Chunks(current + step, end, step, last), rows);
      var usageRowDetails := QueryConsumptionUsageDetails(records, service, c);
      if usageRowDetails.None? {
        return None;
      }
      rows := rows + usageRowDetails.value;
      current := current + step;
    }
    assert Outcome(records, service, Chunks(current, end, step, last)) == Some([]);
    assert rows + [] == rows;
    result := Some(rows);
  }

  // ----- How often a record is returned -----

  function Hits(cs: seq<Chunk>, u: UsageDetail): nat {
    if cs == [] then 0 else (if Matches(u, cs[0]) then 1 else 0) + Hits(cs[1..], u)
  }

  /** The end of the step-sized cell, counted from the start of the request, that an instant is in. */
  function CellEnd(current: int, t: int, step: int): (r: int)
    requires step >= 1 && current <= t
    ensures t < r <= t + step
    decreases t - current
  {
    if t < current + step then current + step else CellEnd(current + step, t, step)
  }

  /** Whether the chunks catch a record of the range: it ends two milliseconds or more before the
      end of the cell it starts in, or that cell is the final one. */
  predicate Caught(u: UsageDetail, start: int, end: int, step: int)
    requires step >= 1
  {
    && u.usageStart >= start
    && u.usageEnd <= end
    && (CellEnd(start, u.usageStart, step) >= end || u.usageEnd < CellEnd(start, u.usageStart, step) - 1)
  }

  lemma {:induction false} NoHitsBeforeStart(current: int, end: int, step: int, last: bool, u: UsageDetail)
    requires step >= 1 && u.usageStart < current
    ensures Hits(Chunks(current, end, step, last), u) == 0
    decreases end - current
  {
    var cs := Chunks(current, end, step, last);
    if current <= end {
      NoHitsBeforeStart(current + step, end, step, cs[0].includeEnd, u);
      assert cs[1..] == Chunks(current + step, end, step, cs[0].includeEnd);
    }
  }

  /** Whether two chunks return a record: when the range is a whole number of steps, a chunk of no length
      follows the one that already includes the end. */
  predicate CaughtTwice(u: UsageDetail, start: int, end: int, step: int)
    requires step >= 1
  {
    u.usageStart == u.usageEnd == end && start < end && CellEnd(start, end, step) == end + step
  }

  lemma {:induction false} WholeNumberOfSteps(start: int, end: int, step: int)
    requires step >= 1 && start <= end
    ensures CellEnd(start, end, step) == end + step <==> (end - start) % step == 0
    decreases end - start
  {
    if end < start + step {
      Remainder(end - start, 0, step, end - start);
    } else {
      WholeNumberOfSteps(start + step, end, step);
      var q, r := (end - start - step) / step, (end - start - step) % step;
      assert end - start - step == q * step + r;
      OneStepMore(q, step);
      Remainder(end - start, q + 1, step, r);
    }
  }

  lemma OneStepMore(q: int, step: int)
    ensures (q + 1) * step == q * step + step
  {}

  /** How often a record that does not end before it starts is returned: not at all unless it is caught,
      twice at the end of a whole number of steps, and otherwise once. */
  lemma {:induction false} CaughtOnce(start: int, end: int, step: int, u: UsageDetail)
    requires step >= 1 && u.usageStart <= u.usageEnd
    ensures Hits(Chunks(start, end, step, false), u) ==
            if CaughtTwice(u, start, end, step) then 2 else if Caught(u, start, end, step) then 1 else 0
    decreases end - start
  {
    var cs := Chunks(start, end, step, false);
    if u.usageStart < start {
      NoHitsBeforeStart(start, end, step, false, u);
    } else if start > end {
      assert cs == [];
    } else {
      var rest := Chunks(start + step, end, step, cs[0].includeEnd);
      assert cs[1..] == rest;
      if start + step < end {
        if u.usageStart < start + step {
          NoHitsBeforeStart(start + step, end, step, false, u);
        } else {
          CaughtOnce(start + step, end, step, u);
        }
      } else if start + step == end {
        assert Chunks(end + step, end, step, true) == [];
        assert rest == [Chunk(end, end, true)];
        assert cs[0] == Chunk(start, end, true);
        assert rest[1..] == [] && Hits(rest[1..], u) == 0;
        assert Hits(rest, u) == if Matches(u, rest[0]) then 1 else 0;
      } else {
        assert rest == [] && cs[0] == Chunk(start, end, true);
        assert Hits(rest, u) == 0;
      }
    }
  }

  lemma {:induction false} QueryCounts(records: seq<UsageDetail>, c: Chunk, u: UsageDetail)
    ensures multiset(Query(records, c))[u] == if Matches(u, c) then multiset(records)[u] else 0
  {
    if records == [] {
    } else {
      assert records == records[..|records| - 1] + [records[|records| - 1]];
      QueryCounts(records[..|records| - 1], c, u);
    }
  }

  function Times(hits: nat, count: nat): nat {
    if hits == 0 then 0 else Times(hits - 1, count) + count
  }

  /** The chunks return each copy of a record once for every chunk that matches it. */
  lemma {:induction false} QueryAllCounts(records: seq<UsageDetail>, cs: seq<Chunk>, u: UsageDetail)
    ensures multiset(QueryAll(records, cs))[u] == Times(Hits(cs, u), multiset(records)[u])
  {
    if cs == [] {
    } else {
      QueryCounts(records, cs[0], u);
      QueryAllCounts(records, cs[1..], u);
      assert multiset(QueryAll(records, cs)) == multiset(Query(records, cs[0])) + multiset(QueryAll(records, cs[1..]));
    }
  }

  predicate InOrder(records: seq<UsageDetail>) {
    forall u :: u in records ==> u.usageStart <= u.usageEnd
  }

  lemma ChunkedCounts(records: seq<UsageDetail>, start: int, end: int, step: int, u: UsageDetail)
    requires step >= 1 && InOrder(records)
    ensures multiset(QueryAll(records, Chunks(start, end, step, false)))[u] ==
            if u !in records then 0
            else if CaughtTwice(u, start, end, step) then 2 * multiset(records)[u]
            else if Caught(u, start, end, step) then multiset(records)[u]
            else 0
  {
    QueryAllCounts(records, Chunks(start, end, step, false), u);
    var count := multiset(records)[u];
    assert Times(0, count) == 0 && Times(1, count) == count && Times(2, count) == 2 * count;
    if u in records {
      CaughtOnce(start, end, step, u);
    } else {
      TimesNothing(Hits(Chunks(start, end, step, false), u));
    }
  }

  lemma {:induction false} TimesNothing(hits: nat)
    ensures Times(hits, 0) == 0
  {
    if hits == 0 {
    } else {
      TimesNothing(hits - 1);
    }
  }

  /** A record of the request's range. */
  predicate InRange(records: seq<UsageDetail>, u: UsageDetail, start: int, end: int) {
    u in records && Matches(u, WholeRange(start, end))
  }

  /** The chunks return nothing more often than the single query exactly when no record sits at the end
      of a whole number of steps; and they return just what it returns exactly when, besides, every
      record of the range is caught. */
  lemma ChunksAgreeWithOneQuery(records: seq<UsageDetail>, start: int, end: int, step: int)
    requires step >= 1 && InOrder(records)
    ensures var chunked, single := multiset(QueryAll(records, Chunks(start, end, step, false))),
                                   multiset(Query(records, WholeRange(start, end)));
            && (chunked <= single <==>
                  forall u :: InRange(records, u, start, end) ==> !CaughtTwice(u, start, end, step))
            && (chunked == single <==> forall u :: InRange(records, u, start, end) ==>
                  Caught(u, start, end, step) && !CaughtTwice(u, start, end, step))
  {
    var chunked, single := multiset(QueryAll(records, Chunks(start, end, step, false))),
                           multiset(Query(records, WholeRange(start, end)));
    forall u
      ensures single[u] == if Matches(u, WholeRange(start, end)) then multiset(records)[u] else 0
      ensures u !in records ==> chunked[u] == single[u] == 0
      ensures chunked[u] <= single[u] <==> (InRange(records, u, start, end) ==> !CaughtTwice(u, start, end, step))
      ensures chunked[u] == single[u] <==> (InRange(records, u, start, end) ==>
                Caught(u, start, end, step) && !CaughtTwice(u, start, end, step))
    {
      OneRecord(records, start, end, step, u);
    }
    MultisetsByCount(chunked, single);
  }

  lemma OneRecord(records: seq<UsageDetail>, start: int, end: int, step: int, u: UsageDetail)
    requires step >= 1 && InOrder(records)
    ensures var chunked, single := multiset(QueryAll(records, Chunks(start, end, step, false)))[u],
                                   multiset(Query(records, WholeRange(start, end)))[u];
            && (single == if Matches(u, WholeRange(start, end)) then multiset(records)[u] else 0)
            && (u !in records ==> chunked == single == 0)
            && (chunked <= single <==> (InRange(records, u, start, end) ==> !CaughtTwice(u, start, end, step)))
            && (chunked == single <==> (InRange(records, u, start, end) ==>
                  Caught(u, start, end, step) && !CaughtTwice(u, start, end, step)))
  {
    QueryCounts(records, WholeRange(start, end), u);
    ChunkedCounts(records, start, end, step, u);
    assert u in records <==> multiset(records)[u] > 0;
  }

  lemma MultisetsByCount(a: multiset<UsageDetail>, b: multiset<UsageDetail>)
    ensures a <= b <==> forall u :: a[u] <= b[u]
    ensures a == b <==> forall u :: a[u] == b[u]
  {
    if forall u :: a[u] == b[u] {
      assert a <= b && b <= a;
    }
  }

  /** A record that lasts to the last millisecond of its day is lost by chunks of one day. */
  lemma LastMillisecondIsLost()
    ensures var u := UsageDetail("vm", 0, DAY - 1);
            && Query([u], WholeRange(0, Days(3))) == [u]
            && QueryAll([u], Chunks(0, Days(3), DAY, false)) == []
  {
    var u := UsageDetail("vm", 0, DAY - 1);
    QueryOfOne(u, WholeRange(0, Days(3)));
    assert CellEnd(0, 0, DAY) == DAY;
    CaughtOnce(0, Days(3), DAY, u);
    AllOfOne(u, Chunks(0, Days(3), DAY, false));
  }

  /** A record of no duration at the end of the range is returned twice by chunks of one day. */
  lemma EndIsReturnedTwice()
    ensures var u := UsageDetail("vm", Days(3), Days(3));
            && Query([u], WholeRange(0, Days(3))) == [u]
            && QueryAll([u], Chunks(0, Days(3), DAY, false)) == [u, u]
  {
    var u := UsageDetail("vm", Days(3), Days(3));
    QueryOfOne(u, WholeRange(0, Days(3)));
    WholeNumberOfSteps(0, Days(3), DAY);
    CaughtOnce(0, Days(3), DAY, u);
    AllOfOne(u, Chunks(0, Days(3), DAY, false));
    assert Copies(u, 2) == [u, u];
  }

  function Copies(u: UsageDetail, n: nat): seq<UsageDetail> {
    seq(n, i => u)
  }

  lemma QueryOfOne(u: UsageDetail, c: Chunk)
    ensures Query([u], c) == if Matches(u, c) then [u] else []
  {
    assert [u][..0] == [];
    assert Query([u], c) == if Matches(u, c) then Query([u][..0], c) + [u] else Query([u][..0], c);
  }

  lemma {:induction false} AllOfOne(u: UsageDetail, cs: seq<Chunk>)
    ensures QueryAll([u], cs) == Copies(u, Hits(cs, u))
  {
    if cs == [] {
    } else {
      QueryOfOne(u, cs[0]);
      AllOfOne(u, cs[1..]);
    }
  }
}
