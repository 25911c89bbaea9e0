/** The ledger of kilowatt hours per service and usage unit, and the rates read off it. */
module LedgerSpec {
  import opened Folding
  import opened Options

  /** What kilowatt hours are set against: the cost or the usage amount of a row. */
  datatype Measure = Cost | UsageAmount

  datatype Totals = Totals(usageAmount: Option<real>, cost: Option<real>, kilowattHours: real) {
    function Measured(basis: Measure): Option<real> {
      match basis
      case Cost => cost
      case UsageAmount => usageAmount
    }

    function WithMeasured(basis: Measure, v: real): Totals {
      match basis
      case Cost => this.(cost := Some(v))
      case UsageAmount => this.(usageAmount := Some(v))
    }
  }

  const TOTAL := "total"

  type ByUnit = map<string, Totals>

  /** The running totals per unit live in the same object as the services, under the key "total". */
  type Entries = e: map<string, ByUnit> | TOTAL in e witness map[TOTAL := map[]]

  const EMPTY: Entries := map[TOTAL := map[]]

  /** One call of the accumulator: a row's service and unit, its measure, and its kilowatt hours. */
  datatype Posting = Posting(serviceName: string, usageUnit: string, measured: real, kilowattHours: real)

  function NewTotals(p: Posting, basis: Measure): Totals {
    Totals(None, None, p.kilowattHours).WithMeasured(basis, p.measured)
  }

  function AddTo(t: Totals, p: Posting, basis: Measure): Totals {
    var more := t.WithMeasured(basis, t.Measured(basis).GetOr(0.0) + p.measured);
    more.(kilowattHours := t.kilowattHours + p.kilowattHours)
  }

  function PostUnit(units: ByUnit, p: Posting, basis: Measure): ByUnit {
    units[p.usageUnit :=
      if p.usageUnit in units then AddTo(units[p.usageUnit], p, basis) else NewTotals(p, basis)]
  }

  function UnitsOf(e: Entries, service: string): ByUnit {
    if service in e then e[service] else map[]
  }

  function PostService(e: Entries, p: Posting, basis: Measure): Entries {
    e[p.serviceName := PostUnit(UnitsOf(e, p.serviceName), p, basis)]
  }

  function PostTotal(e: Entries, p: Posting, basis: Measure): Entries {
    e[TOTAL := PostUnit(e[TOTAL], p, basis)]
  }

  function Post(e: Entries, p: Posting, basis: Measure): Entries {
    PostTotal(PostService(e, p, basis), p, basis)
  }

  function Poster(basis: Measure): (Entries, Posting) -> Entries {
    (e: Entries, p: Posting) => Post(e, p, basis)
  }

  function PostAll(e: Entries, ps: seq<Posting>, basis: Measure): Entries {
    Fold(Poster(basis), e, ps)
  }

  // ----- The order of the postings does not matter -----

  lemma PostUnitCommutes(units: ByUnit, p: Posting, q: Posting, basis: Measure)
    ensures PostUnit(PostUnit(units, p, basis), q, basis) == PostUnit(PostUnit(units, q, basis), p, basis)
  {}

  /** What one posting does to the units under one key. */
  function UnitsStep(units: ByUnit, p: Posting, key: string, basis: Measure): ByUnit {
    var own := if key == p.serviceName then PostUnit(units, p, basis) else units;
    if key == TOTAL then PostUnit(own, p, basis) else own
  }

  lemma PostAt(e: Entries, p: Posting, key: string, basis: Measure)
    ensures key in Post(e, p, basis) <==> key in e || key == p.serviceName
    ensures UnitsOf(Post(e, p, basis), key) == UnitsStep(UnitsOf(e, key), p, key, basis)
  {}

  lemma UnitsStepCommutes(units: ByUnit, p: Posting, q: Posting, key: string, basis: Measure)
    ensures UnitsStep(UnitsStep(units, p, key, basis), q, key, basis)
            == UnitsStep(UnitsStep(units, q, key, basis), p, key, basis)
  {
    PostUnitCommutes(units, p, q, basis);
    if key == TOTAL {
      var up, uq := PostUnit(units, p, basis), PostUnit(units, q, basis);
      PostUnitCommutes(up, p, q, basis);
      PostUnitCommutes(uq, p, q, basis);
      PostUnitCommutes(PostUnit(up, q, basis), p, q, basis);
    }
  }

  lemma PostCommutes(e: Entries, p: Posting, q: Posting, basis: Measure)
    ensures Post(Post(e, p, basis), q, basis) == Post(Post(e, q, basis), p, basis)
  {
    var ep, eq := Post(e, p, basis), Post(e, q, basis);
    var a, b := Post(ep, q, basis), Post(eq, p, basis);
    forall key
      ensures key in a <==> key in b
      ensures UnitsOf(a, key) == UnitsOf(b, key)
    {
      PostAt(e, p, key, basis);
      PostAt(e, q, key, basis);
      PostAt(ep, q, key, basis);
      PostAt(eq, p, key, basis);
      UnitsStepCommutes(UnitsOf(e, key), p, q, key, basis);
    }
    assert a.Keys == b.Keys;
    assert forall key :: key in a ==> a[key] == UnitsOf(a, key) && b[key] == UnitsOf(b, key);
  }

  lemma PosterCommutes(basis: Measure)
    ensures Commutes(Poster(basis))
  {
    var step := Poster(basis);
    forall e: Entries, p, q
      ensures step(step(e, p), q) == step(step(e, q), p)
    {
      PostCommutes(e, p, q, basis);
    }
  }

  /** The ledger after a run does not depend on the order of its postings. */
  lemma LedgerIgnoresOrder(e: Entries, ps: seq<Posting>, qs: seq<Posting>, basis: Measure)
    requires multiset(ps) == multiset(qs)
    ensures PostAll(e, ps, basis) == PostAll(e, qs, basis)
  {
    PosterCommutes(basis);
    FoldPermutation(Poster(basis), e, ps, qs);
  }
}
