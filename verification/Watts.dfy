/** The watts of a group of processors, and the energy computed with them. */
module Watts {
  import opened Options

  datatype Processor = SandyBridge | IvyBridge | Other(name: string)

  /** Watts by processor; a processor that is not listed reads as undefined. */
  type WattsTable = map<Processor, real>

  function SumOf(xs: seq<real>): real {
    if xs == [] then 0.0 else SumOf(xs[..|xs| - 1]) + xs[|xs| - 1]
  }

  function Mean(xs: seq<real>): real
    requires xs != []
  {
    SumOf(xs) / |xs| as real
  }

  predicate IsMean(mean: real, total: real, count: nat) {
    mean * count as real == total
  }

  lemma MeanIsMean(xs: seq<real>)
    requires xs != []
    ensures IsMean(Mean(xs), SumOf(xs), |xs|)
  {}

  function Insert(x: real, xs: seq<real>): seq<real> {
    if xs == [] || x <= xs[0] then [x] + xs else [xs[0]] + Insert(x, xs[1..])
  }

  function Sort(xs: seq<real>): (r: seq<real>)
    ensures |r| == |xs|
  {
    if xs == [] then [] else InsertLength(xs[0], Sort(xs[1..])); Insert(xs[0], Sort(xs[1..]))
  }

  lemma {:induction false} InsertLength(x: real, xs: seq<real>)
    ensures |Insert(x, xs)| == |xs| + 1
    ensures multiset(Insert(x, xs)) == multiset(xs) + multiset{x}
  {
    if xs != [] && x > xs[0] {
      InsertLength(x, xs[1..]);
      assert xs == [xs[0]] + xs[1..];
    }
  }

  // ----- Lists with holes -----

  function Lookup(table: WattsTable, ps: seq<Processor>): seq<Option<real>> {
    seq(|ps|, i requires 0 <= i < |ps| => if ps[i] in table then Some(table[ps[i]]) else None)
  }

  /** The numbers of a list, without the undefined elements. */
  function Defined(xs: seq<Option<real>>): seq<real> {
    if xs == [] then []
    else if xs[|xs| - 1].Some? then Defined(xs[..|xs| - 1]) + [xs[|xs| - 1].value]
    else Defined(xs[..|xs| - 1])
  }

  /** The mean of a list; one undefined element makes it undefined. */
  function Average(xs: seq<Option<real>>): Option<real> {
    if xs == [] then Some(0.0)
    else if |Defined(xs)| < |xs| then None
    else Some(Mean(Defined(xs)))
  }

  /** The mean of the middle one or two of n elements, of which only the first are defined. */
  function MeanOfMiddle(sorted: seq<real>, n: nat): Option<real> {
    if n == 0 then None
    else
      var width := 2 - n % 2;
      var idx := (n - width) / 2;
      if idx + width > |sorted| then None else Some(Mean(sorted[idx..idx + width]))
  }

  /** The middle of the sorted list, in which undefined elements come last; the mean of the two
      middle ones if the length is even.  Undefined if a middle element is, or the list is empty. */
  function Median(xs: seq<Option<real>>): Option<real> {
    MeanOfMiddle(Sort(Defined(xs)), |xs|)
  }

  function GetWattsByAverageOrMedian(ps: seq<Processor>, watts: seq<Option<real>>): Option<real> {
    if SandyBridge in ps || IvyBridge in ps then Median(watts) else Average(watts)
  }

  /** An undefined or zero result falls back on the average of all processors. */
  function GetWatts(ps: seq<Processor>, table: WattsTable, average: real): real {
    match GetWattsByAverageOrMedian(ps, Lookup(table, ps))
    case Some(w) => if w != 0.0 then w else average
    case None => average
  }

  // ----- What a group gets -----

  /** The watts of the listed processors of a group. */
  function KnownWatts(table: WattsTable, ps: seq<Processor>): seq<real> {
    if ps == [] then []
    else
      var p := ps[|ps| - 1];
      KnownWatts(table, ps[..|ps| - 1]) + if p in table then [table[p]] else []
  }

  lemma {:induction false} DefinedAreKnown(table: WattsTable, ps: seq<Processor>)
    ensures Defined(Lookup(table, ps)) == KnownWatts(table, ps)
    ensures |KnownWatts(table, ps)| <= |ps|
    ensures |KnownWatts(table, ps)| == |ps| <==> forall p :: p in ps ==> p in table
  {
    if ps == [] {
    } else {
      var front, p := ps[..|ps| - 1], ps[|ps| - 1];
      DefinedAreKnown(table, front);
      assert Lookup(table, ps)[..|ps| - 1] == Lookup(table, front);
      assert forall q :: q in ps <==> q in front || q == p;
    }
  }

  lemma MeanIsZero(xs: seq<real>)
    requires xs != []
    ensures Mean(xs) == 0.0 <==> SumOf(xs) == 0.0
  {}

  /** Without Sandy Bridge and Ivy Bridge the watts are the mean of the group's, unless one is unknown
      or they are zero. */
  lemma WattsAreTheMean(table: WattsTable, ps: seq<Processor>, average: real)
    requires SandyBridge !in ps && IvyBridge !in ps && ps != []
    ensures var total := SumOf(KnownWatts(table, ps));
            if (forall p :: p in ps ==> p in table) && total != 0.0
              then IsMean(GetWatts(ps, table, average), total, |ps|)
              else GetWatts(ps, table, average) == average
  {
    DefinedAreKnown(table, ps);
    var known := KnownWatts(table, ps);
    if |known| == |ps| {
      MeanIsMean(known);
      MeanIsZero(known);
    }
  }

  /** With either of them the watts are the middle of the sorted watts, or the mean of the two middle
      ones; the unknown ones count as the largest, and the average is taken if one is in the middle or
      the result is zero. */
  lemma WattsAreTheMiddle(table: WattsTable, ps: seq<Processor>, average: real) returns (sorted: seq<real>)
    requires SandyBridge in ps || IvyBridge in ps
    ensures Sorted(sorted) && multiset(sorted) == multiset(KnownWatts(table, ps))
    ensures var half, w := |ps| / 2, GetWatts(ps, table, average);
            if half >= |sorted| then w == average
            else
              var middle := if |ps| % 2 == 1 then sorted[half] else (sorted[half - 1] + sorted[half]) / 2.0;
              w == if middle != 0.0 then middle else average
  {
    DefinedAreKnown(table, ps);
    sorted := Sort(KnownWatts(table, ps));
    SortSorts(KnownWatts(table, ps));
    MiddleByIndex(sorted, |ps|);
  }

  lemma MiddleByIndex(sorted: seq<real>, n: nat)
    requires n > 0 && |sorted| <= n
    ensures var half := n / 2;
            MeanOfMiddle(sorted, n)
            == if half >= |sorted| then None
               else if n % 2 == 1 then Some(sorted[half])
               else Some((sorted[half - 1] + sorted[half]) / 2.0)
  {
    var half := n / 2;
    if half < |sorted| {
      if n % 2 == 1 {
        MeanOfOne(sorted[half..half + 1]);
      } else {
        MeanOfTwo(sorted[half - 1..half + 1]);
      }
    }
  }

  lemma MeanOfOne(xs: seq<real>)
    requires |xs| == 1
    ensures Mean(xs) == xs[0]
  {
    assert xs[..|xs| - 1] == [];
    assert SumOf(xs) == 0.0 + xs[0];
  }

  lemma MeanOfTwo(xs: seq<real>)
    requires |xs| == 2
    ensures Mean(xs) == (xs[0] + xs[1]) / 2.0
  {
    assert xs[..1][..0] == [] && SumOf(xs[..1]) == xs[0];
    assert SumOf(xs) == SumOf(xs[..1]) + xs[1];
  }

  // ----- Both statistics keep the order of their inputs -----

  predicate Below(xs: seq<real>, ys: seq<real>) {
    |xs| == |ys| && forall i :: 0 <= i < |xs| ==> xs[i] <= ys[i]
  }

  predicate Sorted(xs: seq<real>) {
    forall i, j :: 0 <= i < j < |xs| ==> xs[i] <= xs[j]
  }

  lemma {:induction false} InsertSorted(x: real, xs: seq<real>)
    requires Sorted(xs)
    ensures Sorted(Insert(x, xs))
  {
    if xs != [] && x > xs[0] {
      InsertSorted(x, xs[1..]);
      InsertLength(x, xs[1..]);
      var rest := Insert(x, xs[1..]);
      forall i | 0 <= i < |rest|
        ensures xs[0] <= rest[i]
      {
        assert rest[i] in multiset(rest);
        assert rest[i] == x || rest[i] in xs[1..];
      }
    }
  }

  lemma {:induction false} SortSorts(xs: seq<real>)
    ensures Sorted(Sort(xs)) && multiset(Sort(xs)) == multiset(xs)
  {
    if xs == [] {
    } else {
      var rest := Sort(xs[1..]);
      SortSorts(xs[1..]);
      InsertSorted(xs[0], rest);
      InsertLength(xs[0], rest);
      assert xs == [xs[0]] + xs[1..];
      assert multiset(xs) == multiset{xs[0]} + multiset(xs[1..]);
    }
  }

  lemma BelowCons(x: real, xs: seq<real>, y: real, ys: seq<real>)
    requires x <= y && Below(xs, ys)
    ensures Below([x] + xs, [y] + ys)
  {}

  lemma {:induction false} InsertKeepsBelow(x: real, xs: seq<real>, y: real, ys: seq<real>)
    requires x <= y && Below(xs, ys) && Sorted(xs) && Sorted(ys)
    ensures Below(Insert(x, xs), Insert(y, ys))
    decreases |xs|
  {
    if xs == [] || (x <= xs[0] && y <= ys[0]) {
      BelowCons(x, xs, y, ys);
    } else if x <= xs[0] {
      InsertKeepsBelow(xs[0], xs[1..], y, ys[1..]);
      InsertHead(xs);
      BelowCons(x, xs, ys[0], Insert(y, ys[1..]));
    } else if y <= ys[0] {
      InsertKeepsBelow(x, xs[1..], ys[0], ys[1..]);
      InsertHead(ys);
      BelowCons(xs[0], Insert(x, xs[1..]), y, ys);
    } else {
      InsertKeepsBelow(x, xs[1..], y, ys[1..]);
      BelowCons(xs[0], Insert(x, xs[1..]), ys[0], Insert(y, ys[1..]));
    }
  }

  lemma InsertHead(xs: seq<real>)
    requires xs != [] && Sorted(xs)
    ensures Insert(xs[0], xs[1..]) == xs
  {
    assert xs == [xs[0]] + xs[1..];
    if |xs| > 1 { assert xs[0] <= xs[1]; }
  }

  /** Sorting two lists, one below the other element by element, leaves it below. */
  lemma {:induction false} SortKeepsBelow(xs: seq<real>, ys: seq<real>)
    requires Below(xs, ys)
    ensures Below(Sort(xs), Sort(ys))
  {
    if xs == [] {
    } else {
      SortKeepsBelow(xs[1..], ys[1..]);
      SortSorts(xs[1..]);
      SortSorts(ys[1..]);
      InsertKeepsBelow(xs[0], Sort(xs[1..]), ys[0], Sort(ys[1..]));
    }
  }

  lemma {:induction false} SumKeepsBelow(xs: seq<real>, ys: seq<real>)
    requires Below(xs, ys)
    ensures SumOf(xs) <= SumOf(ys)
  {
    if xs == [] {
    } else {
      SumKeepsBelow(xs[..|xs| - 1], ys[..|ys| - 1]);
    }
  }

  lemma {:induction false} SumWithin(xs: seq<real>, lo: real, hi: real)
    requires forall i :: 0 <= i < |xs| ==> lo <= xs[i] <= hi
    ensures lo * |xs| as real <= SumOf(xs) <= hi * |xs| as real
  {
    if xs == [] {
    } else {
      var n := |xs| - 1;
      SumWithin(xs[..n], lo, hi);
      assert lo * |xs| as real == lo * n as real + lo;
      assert hi * |xs| as real == hi * n as real + hi;
    }
  }

  lemma DivideBounds(s: real, n: real, lo: real, hi: real)
    requires n > 0.0 && lo * n <= s <= hi * n
    ensures lo <= s / n <= hi
  {
    assert s / n * n == s;
  }

  lemma DivideKeepsOrder(s: real, t: real, n: real)
    requires n > 0.0 && s <= t
    ensures s / n <= t / n
  {
    assert s / n * n == s && t / n * n == t;
  }

  lemma MeanWithin(xs: seq<real>, lo: real, hi: real)
    requires xs != [] && forall i :: 0 <= i < |xs| ==> lo <= xs[i] <= hi
    ensures lo <= Mean(xs) <= hi
  {
    SumWithin(xs, lo, hi);
    DivideBounds(SumOf(xs), |xs| as real, lo, hi);
  }

  lemma MeanKeepsBelow(xs: seq<real>, ys: seq<real>)
    requires xs != [] && Below(xs, ys)
    ensures Mean(xs) <= Mean(ys)
  {
    SumKeepsBelow(xs, ys);
    DivideKeepsOrder(SumOf(xs), SumOf(ys), |xs| as real);
  }

  // ----- Minimum and maximum watts of a group -----

  /** The same processors are listed in both tables, each with positive and ordered watts. */
  predicate Consistent(low: WattsTable, high: WattsTable) {
    low.Keys == high.Keys && forall p :: p in low ==> 0.0 < low[p] <= high[p]
  }

  predicate IsKnownWatts(w: real, table: WattsTable, ps: seq<Processor>) {
    exists p :: p in ps && p in table && table[p] == w
  }

  lemma {:induction false} DefinedFacts(low: WattsTable, high: WattsTable, ps: seq<Processor>)
    requires Consistent(low, high)
    ensures Below(Defined(Lookup(low, ps)), Defined(Lookup(high, ps)))
    ensures |Defined(Lookup(low, ps))| <= |ps|
    ensures forall i :: 0 <= i < |Defined(Lookup(low, ps))| ==> IsKnownWatts(Defined(Lookup(low, ps))[i], low, ps)
  {
    if ps == [] {
    } else {
      var front, p := ps[..|ps| - 1], ps[|ps| - 1];
      DefinedFacts(low, high, front);
      assert Lookup(low, ps)[..|ps| - 1] == Lookup(low, front);
      assert Lookup(high, ps)[..|ps| - 1] == Lookup(high, front);
      var ds, before := Defined(Lookup(low, ps)), Defined(Lookup(low, front));
      forall i | 0 <= i < |ds|
        ensures IsKnownWatts(ds[i], low, ps)
      {
        if i < |before| {
          assert IsKnownWatts(before[i], low, front);
          var q :| q in front && q in low && low[q] == before[i];
          assert q in ps;
        } else {
          assert p in ps;
        }
      }
    }
  }

  predicate InOrder(l: Option<real>, h: Option<real>) {
    (l.Some? <==> h.Some?) && (l.Some? ==> l.value <= h.value)
  }

  lemma MiddleKeepsOrder(ls: seq<real>, hs: seq<real>, n: nat)
    requires Below(ls, hs)
    ensures InOrder(MeanOfMiddle(ls, n), MeanOfMiddle(hs, n))
  {
    var width := 2 - n % 2;
    var idx := (n - width) / 2;
    if n > 0 && idx + width <= |ls| {
      MeanKeepsBelow(ls[idx..idx + width], hs[idx..idx + width]);
    }
  }

  lemma MiddleWithin(xs: seq<real>, n: nat, lo: real, hi: real)
    requires forall i :: 0 <= i < |xs| ==> lo <= xs[i] <= hi
    ensures MeanOfMiddle(xs, n).Some? ==> lo <= MeanOfMiddle(xs, n).value <= hi
  {
    var width := 2 - n % 2;
    var idx := (n - width) / 2;
    if n > 0 && idx + width <= |xs| {
      MeanWithin(xs[idx..idx + width], lo, hi);
    }
  }

  lemma MedianKeepsOrder(low: WattsTable, high: WattsTable, ps: seq<Processor>)
    requires Consistent(low, high)
    ensures InOrder(Median(Lookup(low, ps)), Median(Lookup(high, ps)))
  {
    var ls, hs := Defined(Lookup(low, ps)), Defined(Lookup(high, ps));
    DefinedFacts(low, high, ps);
    SortKeepsBelow(ls, hs);
    MiddleKeepsOrder(Sort(ls), Sort(hs), |ps|);
  }

  lemma AverageKeepsOrder(low: WattsTable, high: WattsTable, ps: seq<Processor>)
    requires Consistent(low, high)
    ensures InOrder(Average(Lookup(low, ps)), Average(Lookup(high, ps)))
  {
    var ls, hs := Defined(Lookup(low, ps)), Defined(Lookup(high, ps));
    DefinedFacts(low, high, ps);
    if ps != [] && |ls| == |ps| {
      MeanKeepsBelow(ls, hs);
    }
  }

  /** Both statistics of the low watts are defined just when those of the high watts are, and do not
      exceed them. */
  lemma StatisticsKeepOrder(low: WattsTable, high: WattsTable, ps: seq<Processor>)
    requires Consistent(low, high)
    ensures InOrder(GetWattsByAverageOrMedian(ps, Lookup(low, ps)), GetWattsByAverageOrMedian(ps, Lookup(high, ps)))
  {
    MedianKeepsOrder(low, high, ps);
    AverageKeepsOrder(low, high, ps);
  }

  /** A defined statistic lies between any bounds of the listed watts of the group. */
  lemma StatisticsStayInRange(table: WattsTable, ps: seq<Processor>, lo: real, hi: real)
    requires forall p :: p in table ==> table[p] > 0.0
    requires ps != [] && forall p :: p in ps && p in table ==> lo <= table[p] <= hi
    ensures var w := GetWattsByAverageOrMedian(ps, Lookup(table, ps));
            w.Some? ==> lo <= w.value <= hi
  {
    var ds := Defined(Lookup(table, ps));
    DefinedFacts(table, table, ps);
    forall i | 0 <= i < |ds|
      ensures lo <= ds[i] <= hi
    {
      assert IsKnownWatts(ds[i], table, ps);
    }
    if SandyBridge in ps || IvyBridge in ps {
      SortWithin(ds, lo, hi);
      MiddleWithin(Sort(ds), |ps|, lo, hi);
    } else if |ds| == |ps| {
      MeanWithin(ds, lo, hi);
    }
  }

  lemma SortWithin(xs: seq<real>, lo: real, hi: real)
    requires forall i :: 0 <= i < |xs| ==> lo <= xs[i] <= hi
    ensures forall i :: 0 <= i < |xs| ==> lo <= Sort(xs)[i] <= hi
  {
    SortSorts(xs);
    forall i | 0 <= i < |xs|
      ensures lo <= Sort(xs)[i] <= hi
    {
      assert Sort(xs)[i] in multiset(Sort(xs));
      assert Sort(xs)[i] in xs;
    }
  }

  lemma {:induction false} SmallestWatts(table: WattsTable, keys: set<Processor>) returns (lo: real)
    requires keys <= table.Keys && forall p :: p in table ==> table[p] > 0.0
    ensures lo > 0.0 && forall p :: p in keys ==> lo <= table[p]
    decreases |keys|
  {
    if keys == {} {
      lo := 1.0;
    } else {
      var p :| p in keys;
      lo := SmallestWatts(table, keys - {p});
      if table[p] < lo { lo := table[p]; }
    }
  }

  /** For every group of processors, known, unknown or mixed, the minimum watts do not exceed the
      maximum watts. */
  lemma MinWattsAtMostMaxWatts(low: WattsTable, high: WattsTable, ps: seq<Processor>, lowAverage: real,
                               highAverage: real)
    requires Consistent(low, high) && 0.0 < lowAverage <= highAverage
    ensures 0.0 < GetWatts(ps, low, lowAverage) <= GetWatts(ps, high, highAverage)
  {
    StatisticsKeepOrder(low, high, ps);
    if ps != [] {
      var lo := SmallestWatts(low, low.Keys);
      var hi := LargestWatts(low, low.Keys);
      StatisticsStayInRange(low, ps, lo, hi);
    }
  }

  lemma {:induction false} LargestWatts(table: WattsTable, keys: set<Processor>) returns (hi: real)
    requires keys <= table.Keys
    ensures forall p :: p in keys ==> table[p] <= hi
    decreases |keys|
  {
    if keys == {} {
      hi := 0.0;
    } else {
      var p :| p in keys;
      hi := LargestWatts(table, keys - {p});
      if table[p] > hi { hi := table[p]; }
    }
  }

  // ----- Energy -----

  function AverageWatts(utilization: real, minWatts: real, maxWatts: real): real {
    minWatts + utilization / 100.0 * (maxWatts - minWatts)
  }

  /** Kilowatt hours of some hours of virtual CPUs at a utilization given in percent. */
  function Energy(utilization: real, vCpuHours: real, minWatts: real, maxWatts: real, pue: real,
                  replicationFactor: real, averageWatts: Option<real>): real
  {
    var watts := if averageWatts.Some? && averageWatts.value != 0.0 then averageWatts.value
                 else AverageWatts(utilization, minWatts, maxWatts);
    Scaled(watts, vCpuHours, pue, replicationFactor)
  }

  function Scaled(watts: real, vCpuHours: real, pue: real, replicationFactor: real): real {
    watts * vCpuHours * pue * replicationFactor / 1000.0
  }

  lemma ScaledSum(w: real, w': real, vCpuHours: real, pue: real, replicationFactor: real)
    ensures Scaled(w + w', vCpuHours, pue, replicationFactor)
            == Scaled(w, vCpuHours, pue, replicationFactor) + Scaled(w', vCpuHours, pue, replicationFactor)
  {
    assert (w + w') * vCpuHours == w * vCpuHours + w' * vCpuHours;
    assert (w + w') * vCpuHours * pue == w * vCpuHours * pue + w' * vCpuHours * pue;
  }

  lemma ScaledMultiple(k: real, w: real, vCpuHours: real, pue: real, replicationFactor: real)
    ensures Scaled(k * w, vCpuHours, pue, replicationFactor) == k * Scaled(w, vCpuHours, pue, replicationFactor)
  {
    assert k * w * vCpuHours == k * (w * vCpuHours);
    assert k * w * vCpuHours * pue == k * (w * vCpuHours * pue);
    assert k * w * vCpuHours * pue * replicationFactor == k * (w * vCpuHours * pue * replicationFactor);
  }

  /** Average watts are used as they are.  Without them, or if they are zero, an idle processor takes the
      minimum watts, a busy one the maximum watts, and any other a proportional share of the difference. */
  lemma EnergyIsLinear(u: real, vCpuHours: real, minWatts: real, maxWatts: real, pue: real, replicationFactor: real,
                       averageWatts: Option<real>)
    ensures averageWatts.Some? && averageWatts.value != 0.0 ==>
              Energy(u, vCpuHours, minWatts, maxWatts, pue, replicationFactor, averageWatts)
              == averageWatts.value * vCpuHours * pue * replicationFactor / 1000.0
    ensures !(averageWatts.Some? && averageWatts.value != 0.0) ==>
              var idle := Energy(0.0, vCpuHours, minWatts, maxWatts, pue, replicationFactor, averageWatts);
              var busy := Energy(100.0, vCpuHours, minWatts, maxWatts, pue, replicationFactor, averageWatts);
              && idle == minWatts * vCpuHours * pue * replicationFactor / 1000.0
              && busy == maxWatts * vCpuHours * pue * replicationFactor / 1000.0
              && Energy(u, vCpuHours, minWatts, maxWatts, pue, replicationFactor, averageWatts)
                 == idle + u / 100.0 * (busy - idle)
  {
    if !(averageWatts.Some? && averageWatts.value != 0.0) {
      var d := maxWatts - minWatts;
      assert AverageWatts(0.0, minWatts, maxWatts) == minWatts;
      assert AverageWatts(100.0, minWatts, maxWatts) == maxWatts == minWatts + d;
      ScaledSum(minWatts, u / 100.0 * d, vCpuHours, pue, replicationFactor);
      ScaledSum(minWatts, d, vCpuHours, pue, replicationFactor);
      ScaledMultiple(u / 100.0, d, vCpuHours, pue, replicationFactor);
    }
  }

  lemma ScaledKeepsOrder(w: real, w': real, vCpuHours: real, pue: real, replicationFactor: real)
    requires w <= w' && vCpuHours >= 0.0 && pue >= 0.0 && replicationFactor >= 0.0
    ensures Scaled(w, vCpuHours, pue, replicationFactor) <= Scaled(w', vCpuHours, pue, replicationFactor)
  {
    ProductKeepsOrder(w, w', vCpuHours);
    ProductKeepsOrder(w * vCpuHours, w' * vCpuHours, pue);
    ProductKeepsOrder(w * vCpuHours * pue, w' * vCpuHours * pue, replicationFactor);
  }

  lemma ProductKeepsOrder(a: real, b: real, c: real)
    requires a <= b && c >= 0.0
    ensures a * c <= b * c
  {}

  lemma AverageWattsGrow(u: real, u': real, minWatts: real, maxWatts: real)
    requires u <= u' && minWatts <= maxWatts
    ensures AverageWatts(u, minWatts, maxWatts) <= AverageWatts(u', minWatts, maxWatts)
  {
    ProductKeepsOrder(u / 100.0, u' / 100.0, maxWatts - minWatts);
  }

  lemma EnergyKeepsOrder(u: real, u': real, minWatts: real, maxWatts: real, vCpuHours: real, pue: real,
                         replicationFactor: real, averageWatts: Option<real>)
    requires u <= u' && minWatts <= maxWatts && vCpuHours >= 0.0 && pue >= 0.0 && replicationFactor >= 0.0
    ensures Energy(u, vCpuHours, minWatts, maxWatts, pue, replicationFactor, averageWatts)
            <= Energy(u', vCpuHours, minWatts, maxWatts, pue, replicationFactor, averageWatts)
  {
    if averageWatts.Some? && averageWatts.value != 0.0 {
    } else {
      AverageWattsGrow(u, u', minWatts, maxWatts);
      ScaledKeepsOrder(AverageWatts(u, minWatts, maxWatts), AverageWatts(u', minWatts, maxWatts),
                       vCpuHours, pue, replicationFactor);
    }
  }

  lemma EnergyIgnoresUtilization(u: real, u': real, minWatts: real, maxWatts: real, vCpuHours: real, pue: real,
                                 replicationFactor: real, averageWatts: Option<real>)
    requires averageWatts.Some? && averageWatts.value != 0.0
    ensures Energy(u, vCpuHours, minWatts, maxWatts, pue, replicationFactor, averageWatts)
            == Energy(u', vCpuHours, minWatts, maxWatts, pue, replicationFactor, averageWatts)
  {}

  /** With the watts of any group of processors, more utilization never takes less energy, unless
      average watts are given, and then it makes no difference. */
  lemma EnergyIsMonotone(low: WattsTable, high: WattsTable, ps: seq<Processor>, lowAverage: real, highAverage: real,
                         u: real, u': real, vCpuHours: real, pue: real, replicationFactor: real,
                         averageWatts: Option<real>)
    requires Consistent(low, high) && 0.0 < lowAverage <= highAverage
    requires u <= u' && vCpuHours >= 0.0 && pue >= 0.0 && replicationFactor >= 0.0
    ensures var lo, hi := GetWatts(ps, low, lowAverage), GetWatts(ps, high, highAverage);
            && Energy(u, vCpuHours, lo, hi, pue, replicationFactor, averageWatts)
               <= Energy(u', vCpuHours, lo, hi, pue, replicationFactor, averageWatts)
            && (averageWatts.Some? && averageWatts.value != 0.0 ==>
                  Energy(u, vCpuHours, lo, hi, pue, replicationFactor, averageWatts)
                  == Energy(u', vCpuHours, lo, hi, pue, replicationFactor, averageWatts))
  {
    MinWattsAtMostMaxWatts(low, high, ps, lowAverage, highAverage);
    var lo, hi := GetWatts(ps, low, lowAverage), GetWatts(ps, high, highAverage);
    EnergyKeepsOrder(u, u', lo, hi, vCpuHours, pue, replicationFactor, averageWatts);
    if averageWatts.Some? && averageWatts.value != 0.0 {
      EnergyIgnoresUtilization(u, u', lo, hi, vCpuHours, pue, replicationFactor, averageWatts);
    }
  }
}
