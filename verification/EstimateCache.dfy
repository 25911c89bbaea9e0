/** The cache of estimates: which dates a request is missing, filling them in, and merging what was
    fetched with what was cached.  Dates are milliseconds in UTC. */
module EstimateCache {
  import opened Options

  datatype EstimationResult<+T> = EstimationResult(timestamp: int, serviceEstimates: seq<T>)

  // ----- Lists of estimates as maps -----

  predicate HasDate<T>(es: seq<EstimationResult<T>>, t: int) {
    exists i :: 0 <= i < |es| && es[i].timestamp == t
  }

  predicate StrictlySorted<T>(es: seq<EstimationResult<T>>) {
    forall i, j :: 0 <= i < j < |es| ==> es[i].timestamp < es[j].timestamp
  }

  predicate Distinct<T>(es: seq<EstimationResult<T>>) {
    forall i, j :: 0 <= i < j < |es| ==> es[i].timestamp != es[j].timestamp
  }

  /** The first entry for a date. */
  function At<T>(es: seq<EstimationResult<T>>, t: int): (r: Option<EstimationResult<T>>)
    ensures r.Some? <==> HasDate(es, t)
    ensures r.Some? ==> r.value in es && r.value.timestamp == t
  {
    if es == [] then None
    else if es[0].timestamp == t then Some(es[0])
    else
      assert forall i :: 0 < i < |es| ==> es[i] == es[1..][i - 1];
      At(es[1..], t)
  }

  lemma AtCons<T>(e: EstimationResult<T>, es: seq<EstimationResult<T>>, t: int)
    ensures At([e] + es, t) == if e.timestamp == t then Some(e) else At(es, t)
    ensures HasDate([e] + es, t) <==> e.timestamp == t || HasDate(es, t)
  {
    assert ([e] + es)[1..] == es;
    assert forall i :: 0 <= i < |es| ==> es[i] == ([e] + es)[i + 1];
  }

  lemma {:induction false} AtUnique<T>(es: seq<EstimationResult<T>>, i: nat)
    requires Distinct(es) && i < |es|
    ensures At(es, es[i].timestamp) == Some(es[i])
  {
    if i == 0 {
    } else {
      AtUnique(es[1..], i - 1);
    }
  }

  /** A strictly sorted list is determined by what it holds for each date. */
  lemma {:induction false} SortedListsAreMaps<T>(a: seq<EstimationResult<T>>, b: seq<EstimationResult<T>>)
    requires StrictlySorted(a) && StrictlySorted(b)
    requires forall t :: At(a, t) == At(b, t)
    ensures a == b
  {
    assert b != [] ==> At(b, b[0].timestamp).Some? && At(a, b[0].timestamp) == At(b, b[0].timestamp);
    assert a != [] ==> At(a, a[0].timestamp).Some? && At(b, a[0].timestamp) == At(a, a[0].timestamp);
    if a != [] && b != [] {
      var ta, tb := a[0].timestamp, b[0].timestamp;
      assert HasDate(a, ta) && HasDate(b, tb);
      assert At(b, ta).Some? && At(a, tb).Some?;
      assert ta == tb;
      assert At(a, ta) == Some(a[0]) && At(b, ta) == Some(b[0]);
      forall t
        ensures At(a[1..], t) == At(b[1..], t)
      {
        assert At(a, t) == At(b, t);
        if t == ta {
          assert !HasDate(a[1..], t) && !HasDate(b[1..], t);
        }
      }
      SortedListsAreMaps(a[1..], b[1..]);
      assert a == [a[0]] + a[1..] && b == [b[0]] + b[1..];
    }
  }

  // ----- Merging -----

  function Merge<T>(one: seq<EstimationResult<T>>, two: seq<EstimationResult<T>>): seq<EstimationResult<T>> {
    if one == [] then two
    else if two == [] then one
    else if one[0].timestamp < two[0].timestamp then [one[0]] + Merge(one[1..], two)
    else if two[0].timestamp < one[0].timestamp then [two[0]] + Merge(one, two[1..])
    else [one[0]] + Merge(one[1..], two[1..])
  }

  /** Merges up to the end of one of the lists. */
  method MergeWhileBoth<T>(one: seq<EstimationResult<T>>, two: seq<EstimationResult<T>>)
    returns (merged: seq<EstimationResult<T>>, i: nat, j: nat)
    ensures i <= |one| && j <= |two| && (i == |one| || j == |two|)
    ensures merged + Merge(one[i..], two[j..]) == Merge(one, two)
  {
    merged, i, j := [], 0, 0;
    while i < |one| && j < |two|
      invariant i <= |one| && j <= |two|
      invariant merged + Merge(one[i..], two[j..]) == Merge(one, two)
    {
      if one[i].timestamp < two[j].timestamp {
        TakeFromOne(one, two, i, j, merged);
        merged := merged + [one[i]];
        i := i + 1;
      } else if two[j].timestamp < one[i].timestamp {
        TakeFromTwo(one, two, i, j, merged);
        merged := merged + [two[j]];
        j := j + 1;
      } else {
        TakeFromBoth(one, two, i, j, merged);
        merged := merged + [one[i]];
        i, j := i + 1, j + 1;
      }
    }
  }

  /** Appends the remaining entries of a list. */
  method PushRest<T>(merged: seq<EstimationResult<T>>, es: seq<EstimationResult<T>>, start: nat)
    returns (merged': seq<EstimationResult<T>>)
    requires start <= |es|
    ensures merged' == merged + es[start..]
  {
    merged' := merged;
    for i := start to |es|
      invariant merged' == merged + es[start..i]
    {
      merged' := merged' + [es[i]];
    }
    assert es[start..|es|] == es[start..];
  }

  lemma PushAssociates<T>(a: seq<T>, x: T, b: seq<T>)
    ensures a + ([x] + b) == (a + [x]) + b
  {}

  lemma ConcatAssociates<T>(a: seq<T>, b: seq<T>, c: seq<T>)
    ensures a + (b + c) == (a + b) + c
  {}

  lemma MergeLeftover<T>(one: seq<EstimationResult<T>>, two: seq<EstimationResult<T>>)
    requires one == [] || two == []
    ensures Merge(one, two) == one + two
  {}

  /** What is pushed is the head of what is still to be merged. */
  lemma TakeFromOne<T>(one: seq<EstimationResult<T>>, two: seq<EstimationResult<T>>, i: nat, j: nat,
                       merged: seq<EstimationResult<T>>)
    requires i < |one| && j < |two| && one[i].timestamp < two[j].timestamp
    ensures (merged + [one[i]]) + Merge(one[i + 1..], two[j..]) == merged + Merge(one[i..], two[j..])
  {
    assert one[i..][1..] == one[i + 1..];
    PushAssociates(merged, one[i], Merge(one[i + 1..], two[j..]));
  }

  lemma TakeFromTwo<T>(one: seq<EstimationResult<T>>, two: seq<EstimationResult<T>>, i: nat, j: nat,
                       merged: seq<EstimationResult<T>>)
    requires i < |one| && j < |two| && two[j].timestamp < one[i].timestamp
    ensures (merged + [two[j]]) + Merge(one[i..], two[j + 1..]) == merged + Merge(one[i..], two[j..])
  {
    assert two[j..][1..] == two[j + 1..];
    PushAssociates(merged, two[j], Merge(one[i..], two[j + 1..]));
  }

  lemma TakeFromBoth<T>(one: seq<EstimationResult<T>>, two: seq<EstimationResult<T>>, i: nat, j: nat,
                        merged: seq<EstimationResult<T>>)
    requires i < |one| && j < |two| && one[i].timestamp == two[j].timestamp
    ensures (merged + [one[i]]) + Merge(one[i + 1..], two[j + 1..]) == merged + Merge(one[i..], two[j..])
  {
    assert one[i..][1..] == one[i + 1..] && two[j..][1..] == two[j + 1..];
    PushAssociates(merged, one[i], Merge(one[i + 1..], two[j + 1..]));
  }

  /** Merges two sorted lists; where both have an entry for a date, the first list's is taken. */
  method MergeEstimates<T>(one: seq<EstimationResult<T>>, two: seq<EstimationResult<T>>)
    returns (merged: seq<EstimationResult<T>>)
    ensures merged == Merge(one, two)
  {
    var i, j;
    merged, i, j := MergeWhileBoth(one, two);
    MergeLeftover(one[i..], two[j..]);
    ConcatAssociates(merged, one[i..], two[j..]);
    merged := PushRest(merged, one, i);
    merged := PushRest(merged, two, j);
  }

  /** For any two lists, sorted or not, the merged list has exactly the dates of both. */
  lemma {:induction false} MergeHasAllDates<T>(one: seq<EstimationResult<T>>, two: seq<EstimationResult<T>>, t: int)
    ensures HasDate(Merge(one, two), t) <==> HasDate(one, t) || HasDate(two, t)
    decreases |one| + |two|
  {
    if one != [] && two != [] {
      var one', two', head := MergeHead(one, two);
      AtCons(one[0], one[1..], t);
      AtCons(two[0], two[1..], t);
      AtCons(head, Merge(one', two'), t);
      MergeHasAllDates(one', two', t);
    }
  }

  /** The head of a merged list and what is still to be merged. */
  lemma MergeHead<T>(one: seq<EstimationResult<T>>, two: seq<EstimationResult<T>>)
    returns (one': seq<EstimationResult<T>>, two': seq<EstimationResult<T>>, head: EstimationResult<T>)
    requires one != [] && two != []
    ensures one' == if one[0].timestamp <= two[0].timestamp then one[1..] else one
    ensures two' == if two[0].timestamp <= one[0].timestamp then two[1..] else two
    ensures head == if one[0].timestamp <= two[0].timestamp then one[0] else two[0]
    ensures Merge(one, two) == [head] + Merge(one', two')
    ensures one == [one[0]] + one[1..] && two == [two[0]] + two[1..]
  {
    one' := if one[0].timestamp <= two[0].timestamp then one[1..] else one;
    two' := if two[0].timestamp <= one[0].timestamp then two[1..] else two;
    head := if one[0].timestamp <= two[0].timestamp then one[0] else two[0];
    assert one == [one[0]] + one[1..] && two == [two[0]] + two[1..];
    if one[0].timestamp < two[0].timestamp {
      assert Merge(one, two) == [one[0]] + Merge(one[1..], two);
    } else if two[0].timestamp < one[0].timestamp {
      assert Merge(one, two) == [two[0]] + Merge(one, two[1..]);
    } else {
      assert Merge(one, two) == [one[0]] + Merge(one[1..], two[1..]);
    }
  }

  lemma SortedCons<T>(e: EstimationResult<T>, es: seq<EstimationResult<T>>)
    requires StrictlySorted(es) && forall i :: 0 <= i < |es| ==> e.timestamp < es[i].timestamp
    ensures StrictlySorted([e] + es)
  {}

  lemma BelowAll<T>(t: int, es: seq<EstimationResult<T>>, t': int)
    requires StrictlySorted(es) && (es != [] ==> t < es[0].timestamp) && HasDate(es, t')
    ensures t < t'
  {}

  lemma {:induction false} MergeIsSorted<T>(one: seq<EstimationResult<T>>, two: seq<EstimationResult<T>>)
    requires StrictlySorted(one) && StrictlySorted(two)
    ensures StrictlySorted(Merge(one, two))
    decreases |one| + |two|
  {
    if one != [] && two != [] {
      var one', two', head := MergeHead(one, two);
      var rest := Merge(one', two');
      MergeIsSorted(one', two');
      forall i | 0 <= i < |rest|
        ensures head.timestamp < rest[i].timestamp
      {
        var t := rest[i].timestamp;
        MergeHasAllDates(one', two', t);
        if HasDate(one', t) {
          BelowAll(head.timestamp, one', t);
        } else {
          assert HasDate(rest, t);
          BelowAll(head.timestamp, two', t);
        }
      }
      SortedCons(head, rest);
    }
  }

  lemma HeadIsFirst<T>(es: seq<EstimationResult<T>>)
    requires StrictlySorted(es) && es != []
    ensures StrictlySorted(es[1..]) && At(es[1..], es[0].timestamp).None?
    ensures forall t :: t < es[0].timestamp ==> At(es, t).None?
  {}

  lemma {:induction false} MergeTakesFirst<T>(one: seq<EstimationResult<T>>, two: seq<EstimationResult<T>>, t: int)
    requires StrictlySorted(one) && StrictlySorted(two)
    ensures At(Merge(one, two), t) == if At(one, t).Some? then At(one, t) else At(two, t)
    decreases |one| + |two|
  {
    if one != [] && two != [] {
      var one', two', head := MergeHead(one, two);
      HeadIsFirst(one);
      HeadIsFirst(two);
      MergeTakesFirst(one', two', t);
      AtCons(one[0], one[1..], t);
      AtCons(two[0], two[1..], t);
      AtCons(head, Merge(one', two'), t);
    }
  }

  /** On strictly sorted lists, merging is the union of maps in which the first one wins. */
  lemma {:induction false} MergeIsLeftBiasedUnion<T>(one: seq<EstimationResult<T>>, two: seq<EstimationResult<T>>)
    requires StrictlySorted(one) && StrictlySorted(two)
    ensures StrictlySorted(Merge(one, two))
    ensures forall t :: At(Merge(one, two), t) == if At(one, t).Some? then At(one, t) else At(two, t)
  {
    MergeIsSorted(one, two);
    forall t
      ensures At(Merge(one, two), t) == if At(one, t).Some? then At(one, t) else At(two, t)
    {
      MergeTakesFirst(one, two, t);
    }
  }

  lemma {:induction false} MergeIsAssociative<T>(a: seq<EstimationResult<T>>, b: seq<EstimationResult<T>>,
                                                 c: seq<EstimationResult<T>>)
    requires StrictlySorted(a) && StrictlySorted(b) && StrictlySorted(c)
    ensures Merge(Merge(a, b), c) == Merge(a, Merge(b, c))
  {
    MergeIsLeftBiasedUnion(a, b);
    MergeIsLeftBiasedUnion(b, c);
    MergeIsLeftBiasedUnion(Merge(a, b), c);
    MergeIsLeftBiasedUnion(a, Merge(b, c));
    SortedListsAreMaps(Merge(Merge(a, b), c), Merge(a, Merge(b, c)));
  }

  lemma {:induction false} MergeIsIdempotent<T>(a: seq<EstimationResult<T>>, b: seq<EstimationResult<T>>)
    requires StrictlySorted(a) && StrictlySorted(b)
    ensures Merge(a, a) == a
    ensures Merge(a, Merge(a, b)) == Merge(a, b)
  {
    MergeIsLeftBiasedUnion(a, b);
    MergeIsLeftBiasedUnion(a, a);
    MergeIsLeftBiasedUnion(a, Merge(a, b));
    SortedListsAreMaps(Merge(a, a), a);
    SortedListsAreMaps(Merge(a, Merge(a, b)), Merge(a, b));
  }
}
