/** Left folds whose step does not care in which order two elements arrive. */
module Folding {

  function Fold<S, X>(step: (S, X) -> S, start: S, xs: seq<X>): S {
    if xs == [] then start
    else step(Fold(step, start, xs[..|xs| - 1]), xs[|xs| - 1])
  }

  ghost predicate Commutes<S(!new), X(!new)>(step: (S, X) -> S) {
    forall s, x, y :: step(step(s, x), y) == step(step(s, y), x)
  }

  function Without<X>(xs: seq<X>, i: nat): seq<X>
    requires i < |xs|
  {
    xs[..i] + xs[i + 1..]
  }

  lemma {:induction false} FoldAppend<S, X>(step: (S, X) -> S, start: S, xs: seq<X>, ys: seq<X>)
    ensures Fold(step, start, xs + ys) == Fold(step, Fold(step, start, xs), ys)
  {
    if ys == [] {
      assert xs + ys == xs;
    } else {
      var n := |ys| - 1;
      assert (xs + ys)[..|xs + ys| - 1] == xs + ys[..n];
      FoldAppend(step, start, xs, ys[..n]);
    }
  }

  /** Any one element can be folded last. */
  lemma {:induction false} FoldMoveToEnd<S(!new), X(!new)>(step: (S, X) -> S, start: S, xs: seq<X>, i: nat)
    requires Commutes(step) && i < |xs|
    ensures Fold(step, start, xs) == step(Fold(step, start, Without(xs, i)), xs[i])
  {
    var n := |xs| - 1;
    if i == n {
      assert Without(xs, i) == xs[..n];
    } else {
      var front := xs[..n];
      FoldMoveToEnd(step, start, front, i);
      var rest := Without(xs, i);
      assert rest[..|rest| - 1] == Without(front, i);
      assert rest[|rest| - 1] == xs[n];
      var s := Fold(step, start, Without(front, i));
      assert step(step(s, xs[i]), xs[n]) == step(step(s, xs[n]), xs[i]);
    }
  }

  lemma WithoutMultiset<X>(xs: seq<X>, i: nat)
    requires i < |xs|
    ensures multiset(xs) == multiset(Without(xs, i)) + multiset{xs[i]}
  {
    assert xs == xs[..i] + [xs[i]] + xs[i + 1..];
  }

  /** A commuting fold depends on its elements only as a multiset. */
  lemma {:induction false} FoldPermutation<S(!new), X(!new)>(step: (S, X) -> S, start: S, xs: seq<X>, ys: seq<X>)
    requires Commutes(step) && multiset(xs) == multiset(ys)
    ensures Fold(step, start, xs) == Fold(step, start, ys)
    decreases |xs|
  {
    if xs == [] {
      assert |multiset(ys)| == 0;
    } else {
      var n := |xs| - 1;
      var x := xs[n];
      assert x in multiset(ys);
      var i :| 0 <= i < |ys| && ys[i] == x;
      WithoutMultiset(xs, n);
      WithoutMultiset(ys, i);
      assert Without(xs, n) == xs[..n];
      assert multiset(xs[..n]) == multiset(xs) - multiset{x};
      assert multiset(Without(ys, i)) == multiset(ys) - multiset{x};
      FoldPermutation(step, start, xs[..n], Without(ys, i));
      FoldMoveToEnd(step, start, ys, i);
    }
  }

  lemma TakeOneMore<X>(xs: seq<X>, i: nat)
    requires i < |xs|
    ensures xs[..i + 1] == xs[..i] + [xs[i]]
  {}

  // ----- Collecting -----

  function FlatMap<X, Y>(f: X -> seq<Y>, xs: seq<X>): seq<Y> {
    if xs == [] then [] else FlatMap(f, xs[..|xs| - 1]) + f(xs[|xs| - 1])
  }

  function Adder<X, Y>(f: X -> seq<Y>): (multiset<Y>, X) -> multiset<Y> {
    (m: multiset<Y>, x: X) => m + multiset(f(x))
  }

  lemma {:induction false} FlatMapIsAFold<X, Y>(f: X -> seq<Y>, xs: seq<X>)
    ensures multiset(FlatMap(f, xs)) == Fold(Adder(f), multiset{}, xs)
  {
    if xs == [] {
    } else {
      FlatMapIsAFold(f, xs[..|xs| - 1]);
    }
  }

  /** What is collected from a permutation is a permutation of what is collected. */
  lemma FlatMapPermutation<X(!new), Y(!new)>(f: X -> seq<Y>, xs: seq<X>, ys: seq<X>)
    requires multiset(xs) == multiset(ys)
    ensures multiset(FlatMap(f, xs)) == multiset(FlatMap(f, ys))
  {
    FlatMapIsAFold(f, xs);
    FlatMapIsAFold(f, ys);
    var step := Adder(f);
    forall m, x, y
      ensures step(step(m, x), y) == step(step(m, y), x)
    {
      assert m + multiset(f(x)) + multiset(f(y)) == m + multiset(f(y)) + multiset(f(x));
    }
    FoldPermutation(Adder(f), multiset{}, xs, ys);
  }

  lemma {:induction false} FlatMapMember<X, Y>(f: X -> seq<Y>, xs: seq<X>, y: Y)
    ensures y in FlatMap(f, xs) <==> exists x :: x in xs && y in f(x)
  {
    if xs == [] {
    } else {
      var front, x := xs[..|xs| - 1], xs[|xs| - 1];
      assert xs == front + [x];
      FlatMapMember(f, front, y);
    }
  }

  /** Collecting twice is collecting once with both steps. */
  lemma {:induction false} FlatMapFlatMap<X, Y, Z>(f: X -> seq<Y>, g: Y -> seq<Z>, h: X -> seq<Z>, xs: seq<X>)
    requires forall x :: x in xs ==> FlatMap(g, f(x)) == h(x)
    ensures FlatMap(g, FlatMap(f, xs)) == FlatMap(h, xs)
  {
    if xs == [] {
    } else {
      var front, x := xs[..|xs| - 1], xs[|xs| - 1];
      FlatMapFlatMap(f, g, h, front);
      FlatMapAppend(g, FlatMap(f, front), f(x));
    }
  }

  lemma {:induction false} FlatMapAppend<X, Y>(f: X -> seq<Y>, xs: seq<X>, ys: seq<X>)
    ensures FlatMap(f, xs + ys) == FlatMap(f, xs) + FlatMap(f, ys)
  {
    if ys == [] {
      assert xs + ys == xs;
    } else {
      var n := |ys| - 1;
      assert (xs + ys)[..|xs + ys| - 1] == xs + ys[..n];
      FlatMapAppend(f, xs, ys[..n]);
    }
  }

  lemma FlatMapOfOne<X, Y>(f: X -> seq<Y>, x: X)
    ensures FlatMap(f, [x]) == f(x)
  {
    var xs := [x];
    assert xs[..0] == [];
    assert FlatMap(f, xs) == FlatMap(f, xs[..0]) + f(xs[0]);
  }

  lemma {:induction false} FlatMapCongruent<X, Y>(f: X -> seq<Y>, g: X -> seq<Y>, xs: seq<X>)
    requires forall x :: x in xs ==> f(x) == g(x)
    ensures FlatMap(f, xs) == FlatMap(g, xs)
  {
    if xs == [] {
    } else {
      FlatMapCongruent(f, g, xs[..|xs| - 1]);
    }
  }

  function Flatten<X>(xss: seq<seq<X>>): seq<X> {
    if xss == [] then [] else xss[0] + Flatten(xss[1..])
  }

  lemma {:induction false} FlattenAppend<X>(xss: seq<seq<X>>, xs: seq<X>)
    ensures Flatten(xss + [xs]) == Flatten(xss) + xs
  {
    if xss == [] {
      assert [xs][1..] == [];
      assert Flatten([xs]) == xs + Flatten([]);
    } else {
      assert (xss + [xs])[1..] == xss[1..] + [xs];
      FlattenAppend(xss[1..], xs);
    }
  }
}
