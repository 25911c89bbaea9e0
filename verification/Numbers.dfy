/** Results of the estimators' arithmetic.

    The source computes with floating point numbers and never checks for NaN or
    infinity before adding.  Rounding is not modelled; a value that is not finite
    is, and it absorbs everything it is added to or multiplied with. */
module Numbers {

  datatype Num = Finite(value: real) | NonFinite {
    function Plus(other: Num): Num {
      if Finite? && other.Finite? then Finite(value + other.value) else NonFinite
    }

    function Times(other: Num): Num {
      if Finite? && other.Finite? then Finite(value * other.value) else NonFinite
    }

    function Over(divisor: real): Num {
      if Finite? && divisor != 0.0 then Finite(value / divisor) else NonFinite
    }
  }

  /** The quantities that are accumulated per cell of a report. */
  datatype Amounts = Amounts(kilowattHours: Num, co2e: Num, cost: Num, usesAverageCPUConstant: bool) {
    function Plus(other: Amounts): Amounts {
      Amounts(kilowattHours.Plus(other.kilowattHours), co2e.Plus(other.co2e), cost.Plus(other.cost),
              usesAverageCPUConstant || other.usesAverageCPUConstant)
    }
  }

  const ZERO := Amounts(Finite(0.0), Finite(0.0), Finite(0.0), false)

  function Total(xs: seq<Amounts>): Amounts {
    if xs == [] then ZERO else Total(xs[..|xs| - 1]).Plus(xs[|xs| - 1])
  }

  lemma PlusLaws(a: Amounts, b: Amounts, c: Amounts)
    ensures a.Plus(b) == b.Plus(a)
    ensures a.Plus(b).Plus(c) == a.Plus(b.Plus(c))
    ensures ZERO.Plus(a) == a == a.Plus(ZERO)
  {}

  lemma {:induction false} TotalAppend(xs: seq<Amounts>, ys: seq<Amounts>)
    ensures Total(xs + ys) == Total(xs).Plus(Total(ys))
  {
    if ys == [] {
      assert xs + ys == xs;
      PlusLaws(Total(xs), ZERO, ZERO);
    } else {
      var n := |ys| - 1;
      assert (xs + ys)[..|xs + ys| - 1] == xs + ys[..n];
      TotalAppend(xs, ys[..n]);
      PlusLaws(Total(xs), Total(ys[..n]), ys[n]);
    }
  }

  /** Adding to one element adds to the total. */
  lemma {:induction false} TotalUpdate(xs: seq<Amounts>, i: nat, a: Amounts)
    requires i < |xs|
    ensures Total(xs[i := xs[i].Plus(a)]) == Total(xs).Plus(a)
  {
    var ys := xs[i := xs[i].Plus(a)];
    var n := |xs| - 1;
    if i == n {
      assert ys[..n] == xs[..n];
      PlusLaws(Total(xs[..n]), xs[n], a);
    } else {
      assert ys[..n] == xs[..n][i := xs[i].Plus(a)];
      TotalUpdate(xs[..n], i, a);
      PlusLaws(Total(xs[..n]), a, xs[n]);
      PlusLaws(Total(xs[..n]), xs[n], a);
      PlusLaws(a, xs[n], ZERO);
    }
  }
}
