/** One round of the cache: what is missing is fetched, filled up with empty estimates and merged in. */
module CacheRound {
  import opened EstimateCache
  import opened Options

  // ----- The dates of a request -----

  /** The grouping's calendar: where a period starts, and where the one after it does. */
  datatype Calendar = Calendar(startOf: int -> int, next: int -> int) {
    ghost predicate Valid() {
      forall t :: startOf(t) <= t < next(t)
    }
  }

  function DatesFrom(c: Calendar, current: int, end: int): seq<int>
    requires c.Valid()
    decreases end - current
  {
    if current > end then [] else [current] + DatesFrom(c, c.next(current), end)
  }

  function RequestDates(c: Calendar, startDate: int, endDate: int): seq<int>
    requires c.Valid()
  {
    DatesFrom(c, c.startOf(startDate), endDate)
  }

  method GetDatesWithinRequestTimeFrame(c: Calendar, startDate: int, endDate: int) returns (dates: seq<int>)
    requires c.Valid()
    ensures dates == RequestDates(c, startDate, endDate)
  {
    dates := [];
    var current := c.startOf(startDate);
    while current <= endDate
      invariant dates + DatesFrom(c, current, endDate) == RequestDates(c, startDate, endDate)
      decreases endDate - current
    {
      assert dates + [current] + DatesFrom(c, c.next(current), endDate) == dates + DatesFrom(c, current, endDate);
      dates := dates + [current];
      current := c.next(current);
    }
  }

  function Iterate(c: Calendar, t: int, n: nat): int {
    if n == 0 then t else c.next(Iterate(c, t, n - 1))
  }

  lemma {:induction false} IterateFromNext(c: Calendar, t: int, n: nat)
    ensures Iterate(c, c.next(t), n) == Iterate(c, t, n + 1)
  {
    if n == 0 {
    } else {
      IterateFromNext(c, t, n - 1);
    }
  }

  lemma {:induction false} DateIsIterate(c: Calendar, current: int, end: int, n: nat)
    requires c.Valid() && n < |DatesFrom(c, current, end)|
    ensures DatesFrom(c, current, end)[n] == Iterate(c, current, n) <= end
    decreases n
  {
    if n == 0 {
    } else {
      DateIsIterate(c, c.next(current), end, n - 1);
      IterateFromNext(c, current, n - 1);
    }
  }

  lemma {:induction false} NoDateIsLeftOut(c: Calendar, current: int, end: int)
    requires c.Valid()
    ensures Iterate(c, current, |DatesFrom(c, current, end)|) > end
    decreases end - current
  {
    if current > end {
    } else {
      NoDateIsLeftOut(c, c.next(current), end);
      IterateFromNext(c, current, |DatesFrom(c, c.next(current), end)|);
    }
  }

  lemma {:induction false} IteratesIncrease(c: Calendar, t: int, m: nat, n: nat)
    requires c.Valid() && m < n
    ensures Iterate(c, t, m) < Iterate(c, t, n)
    decreases n
  {
    if m < n - 1 {
      IteratesIncrease(c, t, m, n - 1);
    }
  }

  /** The dates of a request are all the period starts from that of its own start up to its end, in order. */
  lemma DatesAreThePeriodStarts(c: Calendar, startDate: int, endDate: int)
    requires c.Valid()
    ensures var ds, first := RequestDates(c, startDate, endDate), c.startOf(startDate);
            && (forall n :: 0 <= n < |ds| ==> ds[n] == Iterate(c, first, n) && ds[n] <= endDate)
            && Iterate(c, first, |ds|) > endDate
            && (forall m, n :: 0 <= m < n < |ds| ==> ds[m] < ds[n])
  {
    var ds, first := RequestDates(c, startDate, endDate), c.startOf(startDate);
    forall n | 0 <= n < |ds|
      ensures ds[n] == Iterate(c, first, n) && ds[n] <= endDate
    {
      DateIsIterate(c, first, endDate, n);
    }
    forall m, n | 0 <= m < n < |ds|
      ensures ds[m] < ds[n]
    {
      IteratesIncrease(c, first, m, n);
    }
    NoDateIsLeftOut(c, first, endDate);
  }

  // ----- Missing dates -----

  function Missing<T>(cached: seq<EstimationResult<T>>, dates: seq<int>): seq<int> {
    if dates == [] then []
    else
      var rest := Missing(cached, dates[..|dates| - 1]);
      var d := dates[|dates| - 1];
      if HasDate(cached, d) then rest else rest + [d]
  }

  method GetMissingDates<T>(cached: seq<EstimationResult<T>>, c: Calendar, startDate: int, endDate: int)
    returns (missing: seq<int>)
    requires c.Valid()
    ensures missing == Missing(cached, RequestDates(c, startDate, endDate))
  {
    var dates := GetDatesWithinRequestTimeFrame(c, startDate, endDate);
    missing := [];
    for n := 0 to |dates|
      invariant missing == Missing(cached, dates[..n])
    {
      assert dates[..n + 1][..n] == dates[..n];
      var i := 0;
      while i < |cached| && cached[i].timestamp != dates[n]
        invariant i <= |cached|
        invariant forall j :: 0 <= j < i ==> cached[j].timestamp != dates[n]
      {
        i := i + 1;
      }
      if i == |cached| {
        missing := missing + [dates[n]];
      }
    }
    assert dates[..|dates|] == dates;
  }

  lemma {:induction false} MissingMembers<T>(cached: seq<EstimationResult<T>>, dates: seq<int>, t: int)
    ensures t in Missing(cached, dates) <==> t in dates && !HasDate(cached, t)
  {
    if dates == [] {
    } else {
      var front, d := dates[..|dates| - 1], dates[|dates| - 1];
      assert dates == front + [d];
      MissingMembers(cached, front, t);
    }
  }

  lemma {:induction false} NothingIsMissing<T>(cached: seq<EstimationResult<T>>, dates: seq<int>)
    requires forall d :: d in dates ==> HasDate(cached, d)
    ensures Missing(cached, dates) == []
  {
    if dates == [] {
    } else {
      NothingIsMissing(cached, dates[..|dates| - 1]);
    }
  }

  // ----- Filling -----

  function InsertByTime<T>(e: EstimationResult<T>, es: seq<EstimationResult<T>>): seq<EstimationResult<T>> {
    if es == [] || e.timestamp <= es[0].timestamp then [e] + es
    else [es[0]] + InsertByTime(e, es[1..])
  }

  /** The stable sort of the runtime, by timestamp. */
  function SortByTime<T>(es: seq<EstimationResult<T>>): seq<EstimationResult<T>> {
    if es == [] then [] else InsertByTime(es[0], SortByTime(es[1..]))
  }

  /** The elements of the first list that are not in the second, each once. */
  function Difference(xs: seq<int>, ys: seq<int>): seq<int> {
    if xs == [] then []
    else
      var rest := Difference(xs[..|xs| - 1], ys);
      var x := xs[|xs| - 1];
      if x in ys || x in rest then rest else rest + [x]
  }

  function Timestamps<T>(es: seq<EstimationResult<T>>): seq<int> {
    seq(|es|, i requires 0 <= i < |es| => es[i].timestamp)
  }

  function Empties<T>(ts: seq<int>): seq<EstimationResult<T>> {
    seq(|ts|, i requires 0 <= i < |ts| => EstimationResult(ts[i], []))
  }

  function FillDates<T>(missing: seq<int>, estimates: seq<EstimationResult<T>>): seq<EstimationResult<T>> {
    SortByTime(Empties(Difference(missing, Timestamps(estimates))) + estimates)
  }

  lemma {:induction false} InsertFacts<T>(e: EstimationResult<T>, es: seq<EstimationResult<T>>, t: int)
    ensures At(InsertByTime(e, es), t) == if e.timestamp == t then Some(e) else At(es, t)
    ensures multiset(InsertByTime(e, es)) == multiset(es) + multiset{e}
  {
    if es == [] || e.timestamp <= es[0].timestamp {
      AtCons(e, es, t);
    } else {
      var rest := InsertByTime(e, es[1..]);
      InsertFacts(e, es[1..], t);
      AtCons(es[0], rest, t);
      AtCons(es[0], es[1..], t);
      assert es == [es[0]] + es[1..];
    }
  }

  lemma {:induction false} InsertDistinct<T>(e: EstimationResult<T>, es: seq<EstimationResult<T>>)
    requires StrictlySorted(es) && !HasDate(es, e.timestamp)
    ensures StrictlySorted(InsertByTime(e, es))
    ensures var head := InsertByTime(e, es)[0]; head == e || (es != [] && head == es[0])
  {
    if es == [] || e.timestamp <= es[0].timestamp {
      assert es != [] ==> es[0].timestamp != e.timestamp;
      SortedCons(e, es);
    } else {
      assert forall i :: 0 <= i < |es[1..]| ==> es[1..][i] == es[i + 1];
      InsertDistinct(e, es[1..]);
      SortedCons(es[0], InsertByTime(e, es[1..]));
    }
  }

  /** Sorting keeps the entries, and for each date keeps the one that came first. */
  lemma {:induction false} SortFacts<T>(es: seq<EstimationResult<T>>, t: int)
    ensures At(SortByTime(es), t) == At(es, t)
    ensures multiset(SortByTime(es)) == multiset(es)
  {
    if es == [] {
    } else {
      SortFacts(es[1..], t);
      InsertFacts(es[0], SortByTime(es[1..]), t);
      assert es == [es[0]] + es[1..];
      AtCons(es[0], es[1..], t);
    }
  }

  lemma {:induction false} SortDistinct<T>(es: seq<EstimationResult<T>>)
    requires Distinct(es)
    ensures StrictlySorted(SortByTime(es))
  {
    if es == [] {
    } else {
      SortDistinct(es[1..]);
      SortFacts(es[1..], es[0].timestamp);
      assert !HasDate(es[1..], es[0].timestamp);
      assert At(SortByTime(es[1..]), es[0].timestamp).None?;
      InsertDistinct(es[0], SortByTime(es[1..]));
    }
  }

  lemma {:induction false} DifferenceFacts(xs: seq<int>, ys: seq<int>)
    ensures forall x :: x in Difference(xs, ys) <==> x in xs && x !in ys
    ensures forall i, j :: 0 <= i < j < |Difference(xs, ys)| ==> Difference(xs, ys)[i] != Difference(xs, ys)[j]
  {
    if xs == [] {
    } else {
      var front, x := xs[..|xs| - 1], xs[|xs| - 1];
      assert xs == front + [x];
      DifferenceFacts(front, ys);
    }
  }

  lemma {:induction false} AtAppend<T>(a: seq<EstimationResult<T>>, b: seq<EstimationResult<T>>, t: int)
    ensures At(a + b, t) == if At(a, t).Some? then At(a, t) else At(b, t)
  {
    if a == [] {
      assert a + b == b;
    } else {
      AtAppend(a[1..], b, t);
      assert a + b == [a[0]] + (a[1..] + b) && a == [a[0]] + a[1..];
      AtCons(a[0], a[1..] + b, t);
      AtCons(a[0], a[1..], t);
    }
  }

  lemma AtEmpties<T>(ts: seq<int>, t: int)
    ensures At(Empties<T>(ts), t) == if t in ts then Some(EstimationResult(t, [])) else None
  {
    var es := Empties<T>(ts);
    if t in ts {
      var i :| 0 <= i < |ts| && ts[i] == t;
      assert es[i].timestamp == t;
    }
    if HasDate(es, t) {
      var i :| 0 <= i < |es| && es[i].timestamp == t;
      assert ts[i] == t;
      assert At(es, t).value in es;
      var j :| 0 <= j < |es| && es[j] == At(es, t).value;
    }
  }

  lemma TimestampMembers<T>(es: seq<EstimationResult<T>>, t: int)
    ensures t in Timestamps(es) <==> HasDate(es, t)
  {
    if HasDate(es, t) {
      var i :| 0 <= i < |es| && es[i].timestamp == t;
      assert Timestamps(es)[i] == t;
    }
  }

  /** Filling keeps every estimate and adds an empty one for each other missing date. */
  lemma FillFacts<T>(missing: seq<int>, estimates: seq<EstimationResult<T>>, t: int)
    ensures At(FillDates(missing, estimates), t) ==
            if HasDate(estimates, t) then At(estimates, t)
            else if t in missing then Some(EstimationResult(t, []))
            else None
  {
    var difference := Difference(missing, Timestamps(estimates));
    DifferenceFacts(missing, Timestamps(estimates));
    TimestampMembers(estimates, t);
    AtEmpties<T>(difference, t);
    AtAppend(Empties(difference), estimates, t);
    SortFacts(Empties(difference) + estimates, t);
  }

  lemma FillIsSorted<T>(missing: seq<int>, estimates: seq<EstimationResult<T>>)
    requires Distinct(estimates)
    ensures StrictlySorted(FillDates(missing, estimates))
  {
    var difference := Difference(missing, Timestamps(estimates));
    DifferenceFacts(missing, Timestamps(estimates));
    var all := Empties<T>(difference) + estimates;
    forall i, j | 0 <= i < j < |all|
      ensures all[i].timestamp != all[j].timestamp
    {
      if i < |difference| <= j {
        assert Timestamps(estimates)[j - |difference|] == all[j].timestamp;
        assert all[i].timestamp == difference[i] && difference[i] in difference;
      }
    }
    SortDistinct(all);
  }

  // ----- One round -----

  function Round<T>(c: Calendar, startDate: int, endDate: int,
                    cached: seq<EstimationResult<T>>, fetched: seq<EstimationResult<T>>): seq<EstimationResult<T>>
    requires c.Valid()
  {
    Merge(FillDates(Missing(cached, RequestDates(c, startDate, endDate)), fetched), cached)
  }

  /** After one round nothing of the request is missing, whatever was cached and whatever the
      fetch brought. */
  lemma OneRoundClosesAllGaps<T>(c: Calendar, startDate: int, endDate: int,
                                 cached: seq<EstimationResult<T>>, fetched: seq<EstimationResult<T>>)
    requires c.Valid()
    ensures Missing(Round(c, startDate, endDate, cached, fetched), RequestDates(c, startDate, endDate)) == []
  {
    var dates := RequestDates(c, startDate, endDate);
    var missing := Missing(cached, dates);
    var filled := FillDates(missing, fetched);
    forall t | t in dates
      ensures HasDate(Merge(filled, cached), t)
    {
      MissingMembers(cached, dates, t);
      MergeHasAllDates(filled, cached, t);
      FillFacts(missing, fetched, t);
    }
    NothingIsMissing(Merge(filled, cached), dates);
  }

  /** What the cache holds after a round: for each date the fetched estimate, or else the cached one,
      or else an empty one if the request asks for the date.  The list stays strictly sorted. */
  lemma RoundContents<T>(c: Calendar, startDate: int, endDate: int,
                         cached: seq<EstimationResult<T>>, fetched: seq<EstimationResult<T>>)
    requires c.Valid() && StrictlySorted(cached) && Distinct(fetched)
    ensures var result := Round(c, startDate, endDate, cached, fetched);
            && StrictlySorted(result)
            && forall t :: At(result, t) ==
                 if HasDate(fetched, t) then At(fetched, t)
                 else if HasDate(cached, t) then At(cached, t)
                 else if t in RequestDates(c, startDate, endDate) then Some(EstimationResult(t, []))
                 else None
  {
    var dates := RequestDates(c, startDate, endDate);
    var missing := Missing(cached, dates);
    FillIsSorted(missing, fetched);
    MergeIsLeftBiasedUnion(FillDates(missing, fetched), cached);
    forall t
      ensures At(Merge(FillDates(missing, fetched), cached), t) ==
              if HasDate(fetched, t) then At(fetched, t)
              else if HasDate(cached, t) then At(cached, t)
              else if t in dates then Some(EstimationResult(t, []))
              else None
    {
      FillFacts(missing, fetched, t);
      MissingMembers(cached, dates, t);
    }
  }
}
