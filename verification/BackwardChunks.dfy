/** Cutting a time range into windows, the most recent first.  Times are milliseconds in UTC. */
module BackwardChunks {
  import opened Folding
  import opened Options

  const DAY: int := 86_400_000

  /** The length of some days. */
  function Days(n: int): int { n * 86_400_000 }

  datatype Window = Window(start: int, end: int)

  function WindowStart(start: int, end: int, days: int): int {
    if end - Days(days) < start then start else end - Days(days)
  }

  function Windows(start: int, end: int, days: int): seq<Window>
    requires days >= 1
    decreases end - start
  {
    if end <= start then []
    else
      var s := WindowStart(start, end, days);
      [Window(s, end)] + Windows(start, s, days)
  }

  function Queried<R>(query: Window -> R, ws: seq<Window>): seq<R> {
    seq(|ws|, i requires 0 <= i < |ws| => query(ws[i]))
  }

  /** Runs a query for each window in turn, backwards from the end. */
  method GetQueryByInterval<R>(days: int, query: Window -> R, start: int, end: int) returns (results: seq<R>)
    requires days >= 1
    ensures results == Queried(query, Windows(start, end, days))
    ensures start >= end ==> results == []
    ensures start < end ==> Back(end, |results|, days) <= start < Back(end, |results| - 1, days)
    ensures forall i :: 0 <= i < |results| ==>
              results[i] == query(Window(Later(start, Back(end, i + 1, days)), Back(end, i, days)))
  {
    results := [];
    ghost var ws: seq<Window> := [];
    var chunkEnd := end;
    while chunkEnd > start
      invariant ws + Windows(start, chunkEnd, days) == Windows(start, end, days)
      invariant results == Queried(query, ws)
      decreases chunkEnd - start
    {
      var chunkStart := chunkEnd - Days(days);
      if chunkStart < start {
        chunkStart := start;
      }
      var w := Window(chunkStart, chunkEnd);
      assert ws + [w] + Windows(start, chunkStart, days) == ws + Windows(start, chunkEnd, days);
      results := results + [query(w)];
      ws := ws + [w];
      chunkEnd := chunkStart;
    }
    assert ws == Windows(start, end, days);
    WindowsByIndex(start, end, days);
  }

  // ----- The windows by their number -----

  /** The end of the range, some steps of some days earlier. */
  function Back(end: int, steps: int, days: int): int { end - steps * days * 86_400_000 }

  function Later(s: int, t: int): int { if s < t then t else s }

  lemma OneStepBack(end: int, steps: int, days: int)
    ensures Back(end - days * 86_400_000, steps, days) == Back(end, steps + 1, days)
    ensures Back(end, 0, days) == end
  {}

  /** The windows, the most recent first, are whole steps back from the end, cut off at the start. */
  lemma {:induction false} WindowsByIndex(start: int, end: int, days: int)
    requires days >= 1
    ensures var ws := Windows(start, end, days);
            && (start >= end ==> ws == [])
            && (start < end ==> Back(end, |ws|, days) <= start < Back(end, |ws| - 1, days))
            && forall i :: 0 <= i < |ws| ==>
                 ws[i] == Window(Later(start, Back(end, i + 1, days)), Back(end, i, days))
    decreases end - start
  {
    if start < end {
      var s, next := WindowStart(start, end, days), end - days * 86_400_000;
      var ws, rest := Windows(start, end, days), Windows(start, s, days);
      WindowsByIndex(start, s, days);
      OneStepBack(end, 0, days);
      if s == next {
        OneStepBack(end, |rest|, days);
        OneStepBack(end, |rest| - 1, days);
        forall i | 0 < i < |ws|
          ensures ws[i] == Window(Later(start, Back(end, i + 1, days)), Back(end, i, days))
        {
          assert ws[i] == rest[i - 1];
          OneStepBack(end, i, days);
          OneStepBack(end, i - 1, days);
        }
      }
    }
  }

  // ----- The windows tile the range -----

  predicate IsTiling(ws: seq<Window>, start: int, end: int) {
    && ws != []
    && ws[0].end == end
    && ws[|ws| - 1].start == start
    && (forall i :: 0 <= i < |ws| - 1 ==> ws[i].start == ws[i + 1].end)
    && (forall i :: 0 <= i < |ws| ==> ws[i].start < ws[i].end)
  }

  /** The windows are end to end from the end of the range back to its start; all are as long as
      the interval except perhaps the oldest, and there are as few of them as possible. */
  lemma {:induction false} WindowsTile(start: int, end: int, days: int)
    requires days >= 1 && start < end
    ensures var ws := Windows(start, end, days);
            && IsTiling(ws, start, end)
            && (forall i :: 0 <= i < |ws| - 1 ==> ws[i].end - ws[i].start == Days(days))
            && ws[|ws| - 1].end - ws[|ws| - 1].start <= Days(days)
            && (|ws| - 1) * Days(days) < end - start <= |ws| * Days(days)
            && ws[|ws| - 1].end == end - (|ws| - 1) * Days(days)
    decreases end - start
  {
    var ws, s := Windows(start, end, days), WindowStart(start, end, days);
    var rest := Windows(start, s, days);
    assert ws == [Window(s, end)] + rest;
    if s > start {
      WindowsTile(start, s, days);
      assert ws[|ws| - 1] == rest[|rest| - 1];
      assert (|ws| - 1) * Days(days) == (|rest| - 1) * Days(days) + Days(days);
      assert |ws| * Days(days) == |rest| * Days(days) + Days(days);
      forall i | 0 < i < |ws|
        ensures ws[i] == rest[i - 1]
      {}
    }
  }

  /** Boundaries only go back in time. */
  lemma {:induction false} TilingDescends(ws: seq<Window>, start: int, end: int, i: nat, j: nat)
    requires IsTiling(ws, start, end) && i < j < |ws|
    ensures ws[j].end <= ws[i].start
    decreases j
  {
    if j > i + 1 {
      TilingDescends(ws, start, end, i, j - 1);
    }
  }

  function WindowAt(ws: seq<Window>, t: int): nat {
    if ws == [] || ws[0].start <= t then 0 else 1 + WindowAt(ws[1..], t)
  }

  /** Every instant of the range lies in exactly one window, and no other instant in any. */
  lemma {:induction false} TilingCoversOnce(ws: seq<Window>, start: int, end: int, t: int)
    requires IsTiling(ws, start, end)
    ensures start <= t < end ==>
              && WindowAt(ws, t) < |ws|
              && (forall i :: 0 <= i < |ws| ==> (ws[i].start <= t < ws[i].end <==> i == WindowAt(ws, t)))
    ensures !(start <= t < end) ==> forall i :: 0 <= i < |ws| ==> !(ws[i].start <= t < ws[i].end)
  {
    var rest := ws[1..];
    if rest != [] {
      assert forall i :: 0 <= i < |rest| ==> rest[i] == ws[i + 1];
      TilingCoversOnce(rest, start, ws[0].start, t);
      TilingDescends(ws, start, end, 0, |ws| - 1);
      forall i | 0 < i < |ws|
        ensures ws[i] == rest[i - 1] && ws[i].end <= ws[0].start
      {
        TilingDescends(ws, start, end, 0, i);
      }
    }
  }

  /** Cutting a window again gives just the window. */
  lemma RecuttingAWindow(start: int, end: int, days: int, i: nat)
    requires days >= 1 && i < |Windows(start, end, days)|
    ensures var w := Windows(start, end, days)[i]; Windows(w.start, w.end, days) == [w]
  {
    WindowsTile(start, end, days);
    var ws := Windows(start, end, days);
    var w := ws[i];
    assert w.end - w.start <= Days(days);
    assert WindowStart(w.start, w.end, days) == w.start;
    assert Windows(w.start, w.start, days) == [];
  }

  // ----- Windows cut down to days -----

  /** The day of an instant; the cost explorer is asked for days only. */
  function Day(t: int): int { t / 86_400_000 }

  function DaysOf(ws: seq<Window>): seq<Window> {
    seq(|ws|, i requires 0 <= i < |ws| => Window(Day(ws[i].start), Day(ws[i].end)))
  }

  lemma DayIsMonotone(s: int, t: int)
    requires s <= t
    ensures Day(s) <= Day(t)
  {}

  function DayWindowAt(ws: seq<Window>, d: int): nat {
    if ws == [] || Day(ws[0].start) <= d then 0 else 1 + DayWindowAt(ws[1..], d)
  }

  /** Every day from the start's day up to, not including, the end's day is asked for exactly once. */
  lemma {:induction false} DaysAreCoveredOnce(ws: seq<Window>, start: int, end: int, d: int)
    requires IsTiling(ws, start, end)
    ensures Day(start) <= d < Day(end) ==>
              && DayWindowAt(ws, d) < |ws|
              && (forall i :: 0 <= i < |ws| ==>
                    (DaysOf(ws)[i].start <= d < DaysOf(ws)[i].end <==> i == DayWindowAt(ws, d)))
    ensures !(Day(start) <= d < Day(end)) ==>
              forall i :: 0 <= i < |ws| ==> !(DaysOf(ws)[i].start <= d < DaysOf(ws)[i].end)
  {
    var rest := ws[1..];
    DayIsMonotone(ws[0].start, ws[0].end);
    if rest != [] {
      assert forall i :: 0 <= i < |rest| ==> rest[i] == ws[i + 1];
      DaysAreCoveredOnce(rest, start, ws[0].start, d);
      DaysOfRest(ws, start, end);
    }
  }

  lemma DaysOfRest(ws: seq<Window>, start: int, end: int)
    requires IsTiling(ws, start, end) && |ws| > 1
    ensures Day(start) <= Day(ws[0].start)
    ensures forall i :: 0 < i < |ws| ==>
              DaysOf(ws)[i] == DaysOf(ws[1..])[i - 1] && DaysOf(ws)[i].end <= Day(ws[0].start)
  {
    TilingDescends(ws, start, end, 0, |ws| - 1);
    DayIsMonotone(start, ws[0].start);
    forall i | 0 < i < |ws|
      ensures DaysOf(ws)[i] == DaysOf(ws[1..])[i - 1] && DaysOf(ws)[i].end <= Day(ws[0].start)
    {
      TilingDescends(ws, start, end, 0, i);
      DayIsMonotone(ws[i].end, ws[0].start);
    }
  }

  /** Exactly when some request comes out empty, with the same first and last day: only the oldest
      window can, when what is left over for it does not cross a midnight. */
  lemma EmptyDayRange(start: int, end: int, days: int)
    requires days >= 1 && start < end
    ensures var left := (end - start - 1) % Days(days) + 1;
            (exists w :: w in DaysOf(Windows(start, end, days)) && w.start == w.end)
            <==> Day(start) == Day(start + left)
  {
    var ws := Windows(start, end, days);
    var n, step := |ws| - 1, Days(days);
    WindowsTile(start, end, days);
    var left := end - n * step - start;
    Remainder(end - start - 1, n, step, left - 1);
    assert ws[n] == Window(start, start + left);
    forall i | 0 <= i < n
      ensures DaysOf(ws)[i].start < DaysOf(ws)[i].end
    {
      assert ws[i].end >= ws[i].start + DAY;
      DayIsMonotone(ws[i].start + DAY, ws[i].end);
    }
    assert DaysOf(ws)[n] in DaysOf(ws);
  }

  /** A request for thirty days and a millisecond from midnight on asks for the first day up to itself. */
  lemma OneMillisecondTooMany()
    ensures Window(0, 0) in DaysOf(Windows(0, Days(30) + 1, 30))
  {
    assert Windows(0, 1, 30) == [Window(0, 1)] + Windows(0, 0, 30) == [Window(0, 1)];
    var ws := Windows(0, Days(30) + 1, 30);
    assert ws == [Window(1, Days(30) + 1)] + Windows(0, 1, 30);
    assert DaysOf(ws)[1] == Window(0, 0);
  }

  lemma TimesMonotone(a: int, b: int, m: int)
    requires a <= b && m > 0
    ensures a * m <= b * m
  {}

  lemma Remainder(x: int, q: int, m: int, r: int)
    requires m > 0 && 0 <= r < m && x == q * m + r
    ensures x % m == r
  {
    var q' := x / m;
    if q < q' {
      TimesMonotone(q + 1, q', m);
    } else if q' < q {
      TimesMonotone(q' + 1, q, m);
    }
  }

  // ----- Regions, with windows that may fail -----

  /** How many windows of a region are read before the first that fails. */
  function Reached<T>(fetch: (string, Window) -> Option<seq<T>>, region: string, ws: seq<Window>): (k: nat)
    ensures k <= |ws|
    ensures forall i :: 0 <= i < k ==> fetch(region, ws[i]).Some?
    ensures k < |ws| ==> fetch(region, ws[k]).None?
  {
    if ws == [] || fetch(region, ws[0]).None? then 0 else 1 + Reached(fetch, region, ws[1..])
  }

  function RegionData<T>(fetch: (string, Window) -> Option<seq<T>>, region: string, ws: seq<Window>): seq<T> {
    if ws == [] || fetch(region, ws[0]).None? then []
    else fetch(region, ws[0]).value + RegionData(fetch, region, ws[1..])
  }

  function AllRegionsData<T>(fetch: (string, Window) -> Option<seq<T>>, regions: seq<string>, ws: seq<Window>): seq<T> {
    if regions == [] then []
    else AllRegionsData(fetch, regions[..|regions| - 1], ws) + RegionData(fetch, regions[|regions| - 1], ws)
  }

  lemma NextWindow<T>(fetch: (string, Window) -> Option<seq<T>>, region: string, start: int, chunkEnd: int)
    requires start < chunkEnd
    ensures var s := WindowStart(start, chunkEnd, 30);
            RegionData(fetch, region, Windows(start, chunkEnd, 30)) ==
            match fetch(region, Window(s, chunkEnd))
            case None => []
            case Some(data) => data + RegionData(fetch, region, Windows(start, s, 30))
  {
    var left, s := Windows(start, chunkEnd, 30), WindowStart(start, chunkEnd, 30);
    assert left[0] == Window(s, chunkEnd) && left[1..] == Windows(start, s, 30);
  }

  lemma AllRegionsOneMore<T>(fetch: (string, Window) -> Option<seq<T>>, regions: seq<string>, r: nat, ws: seq<Window>)
    requires r < |regions|
    ensures AllRegionsData(fetch, regions[..r + 1], ws)
            == AllRegionsData(fetch, regions[..r], ws) + RegionData(fetch, regions[r], ws)
  {
    assert regions[..r + 1][..r] == regions[..r];
  }

  /** Reads a region window by window and gives it up at its first failure. */
  method GetDataForWindows<T>(fetch: (string, Window) -> Option<seq<T>>, regionId: string, start: int, end: int,
                              results: seq<seq<T>>)
    returns (results': seq<seq<T>>)
    ensures Flatten(results') == Flatten(results) + RegionData(fetch, regionId, Windows(start, end, 30))
  {
    results' := results;
    var chunkEnd := end;
    ghost var all := Flatten(results) + RegionData(fetch, regionId, Windows(start, end, 30));
    while chunkEnd > start
      invariant Flatten(results') + RegionData(fetch, regionId, Windows(start, chunkEnd, 30)) == all
      decreases chunkEnd - start
    {
      var chunkStart := chunkEnd - Days(30);
      if chunkStart < start {
        chunkStart := start;
      }
      NextWindow(fetch, regionId, start, chunkEnd);
      var regionEstimates := fetch(regionId, Window(chunkStart, chunkEnd));
      if regionEstimates.None? {
        break;
      }
      FlattenAppend(results', regionEstimates.value);
      results' := results' + [regionEstimates.value];
      chunkEnd := chunkStart;
    }
  }

  /** Reads the regions in turn. */
  method GetDataForRegions<T>(fetch: (string, Window) -> Option<seq<T>>, regions: seq<string>, start: int, end: int)
    returns (data: seq<T>)
    ensures data == AllRegionsData(fetch, regions, Windows(start, end, 30))
  {
    var results: seq<seq<T>> := [];
    ghost var ws := Windows(start, end, 30);
    for r := 0 to |regions|
      invariant Flatten(results) == AllRegionsData(fetch, regions[..r], ws)
    {
      AllRegionsOneMore(fetch, regions, r, ws);
      results := GetDataForWindows(fetch, regions[r], start, end, results);
    }
    assert regions[..|regions|] == regions;
    data := Flatten(results);
  }

  lemma PrefixTiles(ws: seq<Window>, start: int, end: int, k: nat)
    requires IsTiling(ws, start, end) && 0 < k <= |ws|
    ensures IsTiling(ws[..k], ws[k - 1].start, end)
  {}

  /** For every pattern of failures, what is kept of a region is one unbroken range that ends at the
      end of the request: the windows before the first failure, each read once. */
  lemma {:induction false} KeptDataIsOneRange<T>(fetch: (string, Window) -> Option<seq<T>>, region: string, start: int,
                                                 end: int)
    requires start < end
    ensures var ws := Windows(start, end, 30);
            var k := Reached(fetch, region, ws);
            && (k > 0 ==> IsTiling(ws[..k], ws[k - 1].start, end))
            && (k == |ws| ==> k > 0 && ws[k - 1].start == start)
            && RegionData(fetch, region, ws) == Flatten(Fetched(fetch, region, ws[..k]))
  {
    WindowsTile(start, end, 30);
    var ws := Windows(start, end, 30);
    if Reached(fetch, region, ws) > 0 {
      PrefixTiles(ws, start, end, Reached(fetch, region, ws));
    }
    KeptDataIsThePrefix(fetch, region, Windows(start, end, 30));
  }

  function Fetched<T>(fetch: (string, Window) -> Option<seq<T>>, region: string, ws: seq<Window>): seq<seq<T>> {
    seq(|ws|, i requires 0 <= i < |ws| => fetch(region, ws[i]).GetOr([]))
  }

  lemma {:induction false} KeptDataIsThePrefix<T>(fetch: (string, Window) -> Option<seq<T>>, region: string,
                                                  ws: seq<Window>)
    ensures RegionData(fetch, region, ws) == Flatten(Fetched(fetch, region, ws[..Reached(fetch, region, ws)]))
  {
    var k := Reached(fetch, region, ws);
    var kept := Fetched(fetch, region, ws[..k]);
    if k > 0 {
      KeptDataIsThePrefix(fetch, region, ws[1..]);
      assert ws[..k][1..] == ws[1..][..k - 1];
      assert kept[1..] == Fetched(fetch, region, ws[1..][..k - 1]);
    }
  }

  /** What one region returns does not depend on how the requests for other regions turn out. */
  lemma {:induction false} RegionsAreIndependent<T>(fetch: (string, Window) -> Option<seq<T>>,
                                                    fetch': (string, Window) -> Option<seq<T>>,
                                  before: seq<string>, region: string, after: seq<string>, ws: seq<Window>)
    requires forall w :: fetch(region, w) == fetch'(region, w)
    ensures AllRegionsData(fetch, before + [region] + after, ws)
            == AllRegionsData(fetch, before, ws) + RegionData(fetch', region, ws) + AllRegionsData(fetch, after, ws)
  {
    AllRegionsAppend(fetch, before + [region], after, ws);
    AllRegionsAppend(fetch, before, [region], ws);
    assert [region][..0] == [];
    assert AllRegionsData(fetch, [region], ws)
        == AllRegionsData(fetch, [region][..0], ws) + RegionData(fetch, region, ws);
    SameFetchSameData(fetch, fetch', region, ws);
  }

  lemma {:induction false} SameFetchSameData<T>(fetch: (string, Window) -> Option<seq<T>>,
                                                fetch': (string, Window) -> Option<seq<T>>,
                                                region: string, ws: seq<Window>)
    requires forall w :: fetch(region, w) == fetch'(region, w)
    ensures RegionData(fetch, region, ws) == RegionData(fetch', region, ws)
  {
    if ws == [] {
    } else {
      SameFetchSameData(fetch, fetch', region, ws[1..]);
    }
  }

  lemma {:induction false} AllRegionsAppend<T>(fetch: (string, Window) -> Option<seq<T>>, a: seq<string>,
                                               b: seq<string>, ws: seq<Window>)
    ensures AllRegionsData(fetch, a + b, ws) == AllRegionsData(fetch, a, ws) + AllRegionsData(fetch, b, ws)
  {
    if b == [] {
      assert a + b == a;
    } else {
      assert (a + b)[..|a + b| - 1] == a + b[..|b| - 1];
      AllRegionsAppend(fetch, a, b[..|b| - 1], ws);
    }
  }
}
