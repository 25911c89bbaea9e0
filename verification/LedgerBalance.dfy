/** The running totals of the ledger are the sums over its services. */
module LedgerBalance {
  import opened LedgerSpec

  /** A number kept per service and unit; an absent measure counts as zero. */
  datatype Quantity = KilowattHours | Measured(basis: Measure)

  function QuantityOf(t: Totals, q: Quantity): real {
    match q
    case KilowattHours => t.kilowattHours
    case Measured(basis) => t.Measured(basis).GetOr(0.0)
  }

  function AmountAt(e: Entries, key: string, unit: string, q: Quantity): real {
    if key in e && unit in e[key] then QuantityOf(e[key][unit], q) else 0.0
  }

  function Contribution(p: Posting, unit: string, q: Quantity, basis: Measure): real {
    if p.usageUnit != unit then 0.0
    else match q
         case KilowattHours => p.kilowattHours
         case Measured(b) => if b == basis then p.measured else 0.0
  }

  function Services(e: Entries): set<string> {
    e.Keys - {TOTAL}
  }

  ghost function SumOver(e: Entries, services: set<string>, unit: string, q: Quantity): real {
    if services == {} then 0.0
    else
      var s :| s in services;
      AmountAt(e, s, unit, q) + SumOver(e, services - {s}, unit, q)
  }

  ghost predicate HeldBySome(e: Entries, unit: string) {
    exists s :: s in Services(e) && unit in e[s]
  }

  /** A unit has a running total just when some service has the unit, and the total is their sum. */
  ghost predicate BalancedAt(e: Entries, unit: string) {
    && (unit in e[TOTAL] <==> HeldBySome(e, unit))
    && forall q :: AmountAt(e, TOTAL, unit, q) == SumOver(e, Services(e), unit, q)
  }

  ghost predicate Balanced(e: Entries) {
    forall unit :: BalancedAt(e, unit)
  }

  lemma {:induction false} SumWithout(e: Entries, services: set<string>, x: string, unit: string, q: Quantity)
    requires x in services
    ensures SumOver(e, services, unit, q) == AmountAt(e, x, unit, q) + SumOver(e, services - {x}, unit, q)
    decreases |services|
  {
    var s :| s in services && SumOver(e, services, unit, q)
                              == AmountAt(e, s, unit, q) + SumOver(e, services - {s}, unit, q);
    if s != x {
      SumWithout(e, services - {s}, x, unit, q);
      SumWithout(e, services - {x}, s, unit, q);
      assert services - {s} - {x} == services - {x} - {s};
    }
  }

  lemma {:induction false} SumCongruent(e: Entries, e': Entries, services: set<string>, unit: string, q: Quantity)
    requires forall s :: s in services ==> AmountAt(e, s, unit, q) == AmountAt(e', s, unit, q)
    ensures SumOver(e, services, unit, q) == SumOver(e', services, unit, q)
    decreases |services|
  {
    if services == {} {
    } else {
      var s :| s in services;
      SumWithout(e, services, s, unit, q);
      SumWithout(e', services, s, unit, q);
      SumCongruent(e, e', services - {s}, unit, q);
    }
  }

  // ----- One posting -----

  /** What a posting brings to one key and unit; to a service called "total" it comes twice. */
  function Brought(p: Posting, key: string, unit: string, q: Quantity, basis: Measure): real {
    (if key == p.serviceName then Contribution(p, unit, q, basis) else 0.0)
    + if key == TOTAL then Contribution(p, unit, q, basis) else 0.0
  }

  lemma AmountAfterPost(e: Entries, p: Posting, key: string, unit: string, q: Quantity, basis: Measure)
    ensures AmountAt(Post(e, p, basis), key, unit, q) == AmountAt(e, key, unit, q) + Brought(p, key, unit, q, basis)
  {
    PostAt(e, p, key, basis);
  }

  lemma SumAfterPost(e: Entries, p: Posting, unit: string, q: Quantity, basis: Measure)
    ensures var e' := Post(e, p, basis);
            SumOver(e', Services(e'), unit, q)
            == SumOver(e, Services(e), unit, q)
               + (if p.serviceName == TOTAL then 0.0 else Contribution(p, unit, q, basis))
  {
    var e' := Post(e, p, basis);
    forall s | s in Services(e)
      ensures s != p.serviceName ==> AmountAt(e', s, unit, q) == AmountAt(e, s, unit, q)
    {
      AmountAfterPost(e, p, s, unit, q, basis);
    }
    if p.serviceName == TOTAL {
      assert Services(e') == Services(e);
      SumCongruent(e, e', Services(e), unit, q);
    } else {
      var others := Services(e) - {p.serviceName};
      assert Services(e') - {p.serviceName} == others;
      SumCongruent(e, e', others, unit, q);
      SumWithout(e', Services(e'), p.serviceName, unit, q);
      AmountAfterPost(e, p, p.serviceName, unit, q, basis);
      if p.serviceName in e {
        SumWithout(e, Services(e), p.serviceName, unit, q);
      } else {
        assert others == Services(e);
      }
    }
  }

  lemma HeldAfterPost(e: Entries, p: Posting, unit: string, basis: Measure)
    ensures HeldBySome(Post(e, p, basis), unit)
            <==> HeldBySome(e, unit) || (p.serviceName != TOTAL && unit == p.usageUnit)
    ensures unit in Post(e, p, basis)[TOTAL] <==> unit in e[TOTAL] || unit == p.usageUnit
  {
    var e' := Post(e, p, basis);
    if HeldBySome(e, unit) {
      var s :| s in Services(e) && unit in e[s];
      assert s in Services(e') && unit in e'[s];
    }
    if p.serviceName != TOTAL && unit == p.usageUnit {
      assert p.serviceName in Services(e') && unit in e'[p.serviceName];
    }
    if HeldBySome(e', unit) {
      var s :| s in Services(e') && unit in e'[s];
      assert s in e && unit in e[s] ==> s in Services(e);
    }
  }

  // ----- Runs of postings -----

  /** What a run of postings brings to one key and unit. */
  function RunSum(ps: seq<Posting>, key: string, unit: string, q: Quantity, basis: Measure): real {
    if ps == [] then 0.0
    else RunSum(ps[..|ps| - 1], key, unit, q, basis) + Brought(ps[|ps| - 1], key, unit, q, basis)
  }

  predicate HasUnit(e: Entries, key: string, unit: string) {
    key in e && unit in e[key]
  }

  predicate AddsTo(p: Posting, key: string, unit: string) {
    p.usageUnit == unit && (key == p.serviceName || key == TOTAL)
  }

  predicate PostedTo(ps: seq<Posting>, key: string, unit: string) {
    exists p :: p in ps && AddsTo(p, key, unit)
  }

  /** Every amount of the ledger gains exactly what the postings to it bring. */
  lemma {:induction false} AmountAfterRun(e: Entries, ps: seq<Posting>, key: string, unit: string, q: Quantity,
                                          basis: Measure)
    ensures AmountAt(PostAll(e, ps, basis), key, unit, q) == AmountAt(e, key, unit, q) + RunSum(ps, key, unit, q, basis)
  {
    if ps == [] {
    } else {
      var front, p := ps[..|ps| - 1], ps[|ps| - 1];
      AmountAfterRun(e, front, key, unit, q, basis);
      AmountAfterPost(PostAll(e, front, basis), p, key, unit, q, basis);
    }
  }

  lemma {:induction false} UnitsAfterRun(e: Entries, ps: seq<Posting>, key: string, unit: string, basis: Measure)
    ensures HasUnit(PostAll(e, ps, basis), key, unit) <==> HasUnit(e, key, unit) || PostedTo(ps, key, unit)
  {
    if ps == [] {
    } else {
      var front, p := ps[..|ps| - 1], ps[|ps| - 1];
      assert ps == front + [p];
      UnitsAfterRun(e, front, key, unit, basis);
      PostAt(PostAll(e, front, basis), p, key, basis);
      assert PostedTo(ps, key, unit) <==> PostedTo(front, key, unit) || AddsTo(p, key, unit);
    }
  }

  // ----- When a run keeps the balance -----

  /** What the postings to a service that is itself called "total" bring. */
  function TotalServiceSum(ps: seq<Posting>, unit: string, q: Quantity, basis: Measure): real {
    if ps == [] then 0.0
    else
      var p := ps[|ps| - 1];
      TotalServiceSum(ps[..|ps| - 1], unit, q, basis)
      + if p.serviceName == TOTAL then Contribution(p, unit, q, basis) else 0.0
  }

  predicate PostedByService(ps: seq<Posting>, unit: string) {
    exists p :: p in ps && p.usageUnit == unit && p.serviceName != TOTAL
  }

  predicate PostedByTotal(ps: seq<Posting>, unit: string) {
    exists p :: p in ps && p.usageUnit == unit && p.serviceName == TOTAL
  }

  lemma {:induction false} ImbalanceAfterRun(e: Entries, ps: seq<Posting>, unit: string, q: Quantity, basis: Measure)
    ensures var e' := PostAll(e, ps, basis);
            AmountAt(e', TOTAL, unit, q) - SumOver(e', Services(e'), unit, q)
            == AmountAt(e, TOTAL, unit, q) - SumOver(e, Services(e), unit, q)
               + 2.0 * TotalServiceSum(ps, unit, q, basis)
  {
    if ps == [] {
    } else {
      var front, p := ps[..|ps| - 1], ps[|ps| - 1];
      ImbalanceAfterRun(e, front, unit, q, basis);
      AmountAfterPost(PostAll(e, front, basis), p, TOTAL, unit, q, basis);
      SumAfterPost(PostAll(e, front, basis), p, unit, q, basis);
    }
  }

  lemma {:induction false} HeldAfterRun(e: Entries, ps: seq<Posting>, unit: string, basis: Measure)
    ensures HeldBySome(PostAll(e, ps, basis), unit) <==> HeldBySome(e, unit) || PostedByService(ps, unit)
    ensures unit in PostAll(e, ps, basis)[TOTAL]
            <==> unit in e[TOTAL] || PostedByService(ps, unit) || PostedByTotal(ps, unit)
  {
    if ps == [] {
    } else {
      var front, p := ps[..|ps| - 1], ps[|ps| - 1];
      assert ps == front + [p];
      HeldAfterRun(e, front, unit, basis);
      HeldAfterPost(PostAll(e, front, basis), p, unit, basis);
      assert PostedByService(ps, unit)
        <==> PostedByService(front, unit) || (p.usageUnit == unit && p.serviceName != TOTAL);
      assert PostedByTotal(ps, unit)
        <==> PostedByTotal(front, unit) || (p.usageUnit == unit && p.serviceName == TOTAL);
    }
  }

  /** Postings to a service called "total" cancel out, and the unit has another service as well. */
  ghost predicate TotalsCancel(e: Entries, ps: seq<Posting>, unit: string, basis: Measure) {
    && (forall q :: TotalServiceSum(ps, unit, q, basis) == 0.0)
    && (PostedByTotal(ps, unit) ==> unit in e[TOTAL] || PostedByService(ps, unit))
  }

  lemma RunKeepsBalanceAt(e: Entries, ps: seq<Posting>, unit: string, basis: Measure)
    requires BalancedAt(e, unit)
    ensures BalancedAt(PostAll(e, ps, basis), unit) <==> TotalsCancel(e, ps, unit, basis)
  {
    HeldAfterRun(e, ps, unit, basis);
    forall q
      ensures var e' := PostAll(e, ps, basis);
              AmountAt(e', TOTAL, unit, q) == SumOver(e', Services(e'), unit, q)
              <==> TotalServiceSum(ps, unit, q, basis) == 0.0
    {
      ImbalanceAfterRun(e, ps, unit, q, basis);
      assert AmountAt(e, TOTAL, unit, q) == SumOver(e, Services(e), unit, q);
    }
  }

  /** Exactly when a run of postings keeps a balanced ledger balanced.  A posting to a service called
      "total" is counted twice in the running totals and not at all in the sums over services. */
  lemma RunKeepsBalance(e: Entries, ps: seq<Posting>, basis: Measure)
    requires Balanced(e)
    ensures Balanced(PostAll(e, ps, basis)) <==> forall unit :: TotalsCancel(e, ps, unit, basis)
  {
    forall unit
      ensures BalancedAt(PostAll(e, ps, basis), unit) <==> TotalsCancel(e, ps, unit, basis)
    {
      assert BalancedAt(e, unit);
      RunKeepsBalanceAt(e, ps, unit, basis);
    }
  }

  /** Exactly when one posting does. */
  lemma PostKeepsBalance(e: Entries, p: Posting, basis: Measure)
    requires Balanced(e)
    ensures Balanced(Post(e, p, basis)) <==>
            p.serviceName != TOTAL || (p.usageUnit in e[TOTAL] && p.kilowattHours == 0.0 && p.measured == 0.0)
  {
    var ps := [p];
    assert ps[..0] == [];
    assert PostAll(e, ps, basis) == Post(PostAll(e, ps[..0], basis), p, basis) == Post(e, p, basis);
    RunKeepsBalance(e, ps, basis);
    forall unit
      ensures TotalsCancel(e, ps, unit, basis) <==>
              (p.serviceName == TOTAL && p.usageUnit == unit ==>
                 unit in e[TOTAL] && p.kilowattHours == 0.0 && p.measured == 0.0)
    {
      OnePostingCancels(e, p, unit, basis);
    }
  }

  lemma OnePostingCancels(e: Entries, p: Posting, unit: string, basis: Measure)
    ensures TotalsCancel(e, [p], unit, basis) <==>
            (p.serviceName == TOTAL && p.usageUnit == unit ==>
               unit in e[TOTAL] && p.kilowattHours == 0.0 && p.measured == 0.0)
  {
    var ps := [p];
    assert ps[..0] == [];
    forall q
      ensures TotalServiceSum(ps, unit, q, basis)
              == if p.serviceName == TOTAL then Contribution(p, unit, q, basis) else 0.0
    {
      assert TotalServiceSum(ps, unit, q, basis)
          == TotalServiceSum(ps[..0], unit, q, basis)
             + if p.serviceName == TOTAL then Contribution(p, unit, q, basis) else 0.0;
    }
    assert Contribution(p, p.usageUnit, KilowattHours, basis) == p.kilowattHours;
    assert Contribution(p, p.usageUnit, Measured(basis), basis) == p.measured;
    assert TotalsCancel(e, ps, unit, basis) ==>
        && TotalServiceSum(ps, unit, KilowattHours, basis) == 0.0
        && TotalServiceSum(ps, unit, Measured(basis), basis) == 0.0;
    assert p in ps;
    assert PostedByTotal(ps, unit) <==> p.usageUnit == unit && p.serviceName == TOTAL;
    assert PostedByService(ps, unit) <==> p.usageUnit == unit && p.serviceName != TOTAL;
  }

  lemma {:induction false} NoTotalsNoSum(ps: seq<Posting>, unit: string, q: Quantity, basis: Measure)
    requires !PostedByTotal(ps, unit)
    ensures TotalServiceSum(ps, unit, q, basis) == 0.0
  {
    if ps == [] {
    } else {
      var front, p := ps[..|ps| - 1], ps[|ps| - 1];
      assert p in ps;
      assert forall x :: x in front ==> x in ps;
      NoTotalsNoSum(front, unit, q, basis);
    }
  }

  /** Without a service called "total" a run keeps every unit balanced. */
  lemma ProperRunsBalance(ps: seq<Posting>, unit: string, basis: Measure)
    requires !PostedByTotal(ps, unit)
    ensures BalancedAt(PostAll(EMPTY, ps, basis), unit)
  {
    EmptyIsBalanced(unit);
    forall q
      ensures TotalServiceSum(ps, unit, q, basis) == 0.0
    {
      NoTotalsNoSum(ps, unit, q, basis);
    }
    RunKeepsBalanceAt(EMPTY, ps, unit, basis);
  }

  lemma EmptyIsBalanced(unit: string)
    ensures BalancedAt(EMPTY, unit)
  {
    assert Services(EMPTY) == {};
  }

  /** A first posting to a service called "total" breaks the balance. */
  lemma TotalServiceBreaksBalance()
    ensures var ps := [Posting(TOTAL, "Hrs", 1.0, 1.0)];
            !BalancedAt(PostAll(EMPTY, ps, Cost), "Hrs")
  {
    var ps := [Posting(TOTAL, "Hrs", 1.0, 1.0)];
    EmptyIsBalanced("Hrs");
    RunKeepsBalanceAt(EMPTY, ps, "Hrs", Cost);
    assert ps[..0] == [];
    assert TotalServiceSum(ps, "Hrs", KilowattHours, Cost)
        == TotalServiceSum(ps[..0], "Hrs", KilowattHours, Cost) + 1.0;
  }

  // ----- Rates -----

  ghost function HoldersIn(e: Entries, services: set<string>, unit: string): set<string> {
    set s | s in services && s in e && unit in e[s]
  }

  ghost function Holders(e: Entries, unit: string): set<string> {
    HoldersIn(e, Services(e), unit)
  }

  predicate PositiveAt(e: Entries, key: string, unit: string, basis: Measure) {
    AmountAt(e, key, unit, Measured(basis)) > 0.0
  }

  function RateAt(e: Entries, key: string, unit: string, basis: Measure): real
    requires PositiveAt(e, key, unit, basis)
  {
    AmountAt(e, key, unit, KilowattHours) / AmountAt(e, key, unit, Measured(basis))
  }

  ghost predicate AllPositive(e: Entries, services: set<string>, unit: string, basis: Measure) {
    forall s :: s in services ==> PositiveAt(e, s, unit, basis)
  }

  lemma QuotientBounds(k: real, m: real, r: real)
    requires m > 0.0
    ensures r <= k / m <==> RateIsAtLeast(r, k, m)
    ensures k / m <= r <==> RateIsAtMost(r, k, m)
  {
    assert k / m * m == k;
    if r <= k / m { assert r * m <= k / m * m; }
    if r > k / m { assert r * m > k / m * m; }
    if r < k / m { assert r * m < k / m * m; }
  }

  predicate RateIsAtLeast(r: real, k: real, m: real) { r * m <= k }

  predicate RateIsAtMost(r: real, k: real, m: real) { k <= r * m }

  lemma BoundsAdd(r: real, k: real, m: real, k': real, m': real, kSum: real, mSum: real)
    requires kSum == k + k' && mSum == m + m'
    ensures RateIsAtLeast(r, k, m) && RateIsAtLeast(r, k', m') ==> RateIsAtLeast(r, kSum, mSum)
    ensures RateIsAtMost(r, k, m) && RateIsAtMost(r, k', m') ==> RateIsAtMost(r, kSum, mSum)
  {
    assert r * mSum == r * m + r * m';
  }

  /** A bound on the rate of every service bounds the rate of their sums. */
  lemma {:induction false} SumsKeepBounds(e: Entries, services: set<string>, unit: string, basis: Measure, lo: real,
                                          hi: real)
    requires forall s :: s in services ==>
               && RateIsAtLeast(lo, AmountAt(e, s, unit, KilowattHours), AmountAt(e, s, unit, Measured(basis)))
               && RateIsAtMost(hi, AmountAt(e, s, unit, KilowattHours), AmountAt(e, s, unit, Measured(basis)))
    ensures RateIsAtLeast(lo, SumOver(e, services, unit, KilowattHours), SumOver(e, services, unit, Measured(basis)))
    ensures RateIsAtMost(hi, SumOver(e, services, unit, KilowattHours), SumOver(e, services, unit, Measured(basis)))
    decreases |services|
  {
    if services == {} {
    } else {
      var s :| s in services;
      SumWithout(e, services, s, unit, KilowattHours);
      SumWithout(e, services, s, unit, Measured(basis));
      SumsKeepBounds(e, services - {s}, unit, basis, lo, hi);
      var k, m := AmountAt(e, s, unit, KilowattHours), AmountAt(e, s, unit, Measured(basis));
      var k', m' := SumOver(e, services - {s}, unit, KilowattHours), SumOver(e, services - {s}, unit, Measured(basis));
      var kSum, mSum := SumOver(e, services, unit, KilowattHours), SumOver(e, services, unit, Measured(basis));
      BoundsAdd(lo, k, m, k', m', kSum, mSum);
      BoundsAdd(hi, k, m, k', m', kSum, mSum);
    }
  }

  lemma {:induction false} SumIsPositive(e: Entries, services: set<string>, unit: string, basis: Measure)
    requires AllPositive(e, services, unit, basis)
    ensures SumOver(e, services, unit, Measured(basis)) >= 0.0
    ensures services != {} ==> SumOver(e, services, unit, Measured(basis)) > 0.0
    decreases |services|
  {
    if services == {} {
    } else {
      var s :| s in services;
      SumWithout(e, services, s, unit, Measured(basis));
      SumIsPositive(e, services - {s}, unit, basis);
      assert PositiveAt(e, s, unit, basis);
    }
  }

  lemma {:induction false} ExtremeRates(e: Entries, services: set<string>, unit: string, basis: Measure)
    returns (cheapest: string, dearest: string)
    requires services != {} && AllPositive(e, services, unit, basis)
    ensures cheapest in services && dearest in services
    ensures forall s :: s in services ==>
              RateAt(e, cheapest, unit, basis) <= RateAt(e, s, unit, basis) <= RateAt(e, dearest, unit, basis)
    decreases |services|
  {
    var s :| s in services;
    cheapest, dearest := s, s;
    if services != {s} {
      cheapest, dearest := ExtremeRates(e, services - {s}, unit, basis);
      if RateAt(e, s, unit, basis) < RateAt(e, cheapest, unit, basis) { cheapest := s; }
      if RateAt(e, s, unit, basis) > RateAt(e, dearest, unit, basis) { dearest := s; }
    } else {
      assert forall x :: x in services ==> x == s;
    }
  }

  lemma {:induction false} NonHoldersAddNothing(e: Entries, services: set<string>, unit: string, q: Quantity)
    ensures SumOver(e, services, unit, q) == SumOver(e, HoldersIn(e, services, unit), unit, q)
    decreases |services|
  {
    var holders := HoldersIn(e, services, unit);
    if services != {} {
      var s :| s in services;
      SumWithout(e, services, s, unit, q);
      NonHoldersAddNothing(e, services - {s}, unit, q);
      var rest := HoldersIn(e, services - {s}, unit);
      if s in e && unit in e[s] {
        SumWithout(e, holders, s, unit, q);
        assert holders - {s} == rest;
      } else {
        assert holders == rest;
      }
    }
  }

  /** The rate of the running total lies between the smallest and the largest rate of a service. */
  lemma TotalRateIsAMediant(e: Entries, unit: string, basis: Measure) returns (cheapest: string, dearest: string)
    requires BalancedAt(e, unit) && unit in e[TOTAL]
    requires AllPositive(e, Holders(e, unit), unit, basis)
    ensures PositiveAt(e, TOTAL, unit, basis)
    ensures cheapest in Holders(e, unit) && dearest in Holders(e, unit)
    ensures forall s :: s in Holders(e, unit) ==>
              RateAt(e, cheapest, unit, basis) <= RateAt(e, s, unit, basis) <= RateAt(e, dearest, unit, basis)
    ensures RateAt(e, cheapest, unit, basis) <= RateAt(e, TOTAL, unit, basis) <= RateAt(e, dearest, unit, basis)
  {
    var holders := Holders(e, unit);
    assert HeldBySome(e, unit);
    var s :| s in Services(e) && unit in e[s];
    assert s in holders;
    cheapest, dearest := ExtremeRates(e, holders, unit, basis);
    var lo, hi := RateAt(e, cheapest, unit, basis), RateAt(e, dearest, unit, basis);
    forall x | x in holders
      ensures RateIsAtLeast(lo, AmountAt(e, x, unit, KilowattHours), AmountAt(e, x, unit, Measured(basis)))
      ensures RateIsAtMost(hi, AmountAt(e, x, unit, KilowattHours), AmountAt(e, x, unit, Measured(basis)))
    {
      assert PositiveAt(e, x, unit, basis);
      QuotientBounds(AmountAt(e, x, unit, KilowattHours), AmountAt(e, x, unit, Measured(basis)), lo);
      QuotientBounds(AmountAt(e, x, unit, KilowattHours), AmountAt(e, x, unit, Measured(basis)), hi);
    }
    SumsKeepBounds(e, holders, unit, basis, lo, hi);
    SumIsPositive(e, holders, unit, basis);
    NonHoldersAddNothing(e, Services(e), unit, KilowattHours);
    NonHoldersAddNothing(e, Services(e), unit, Measured(basis));
    var k, m := AmountAt(e, TOTAL, unit, KilowattHours), AmountAt(e, TOTAL, unit, Measured(basis));
    assert k == SumOver(e, Services(e), unit, KilowattHours);
    assert m == SumOver(e, Services(e), unit, Measured(basis));
    QuotientBounds(k, m, lo);
    QuotientBounds(k, m, hi);
  }
}
