/** Budget accounting of the greedy driver: the `Cost` accumulator, the
    per-aggregate surcharge that emulates an aggregate limit, and the running
    totals folded over the picks the driver accepts. */
module CostAccounting {
  import opened JavaLang

  /** The value of a `Cost` accumulator: spent cost, realized benefit and the
      number of queries that benefit. */
  datatype CostTriple = CostTriple(cost: real, benefit: real, benefitCount: int)

  const ZERO: CostTriple := CostTriple(0.0, 0.0, 0)

  /** Absolute floor below which a candidate's benefit stops the run. */
  const MIN_BENEFIT: real := 1.0

  /** The mutable `Cost` accumulator, filled in place by the lattice and by
      the driver. */
  class Cost {
    var cost: real
    var benefit: real
    var benefitCount: int

    constructor ()
      ensures Triple() == ZERO
    {
      cost, benefit, benefitCount := 0.0, 0.0, 0;
    }

    function Triple(): (t: CostTriple)
      reads this
    {
      CostTriple(cost, benefit, benefitCount)
    }

    /** The driver's `totalCost.cost += ...; totalCost.benefit += ...;
        totalCost.benefitCount += ...` for one accepted pick. */
    method Add(pick: CostTriple, surcharge: real)
      modifies this
      ensures Triple() == Charge(old(Triple()), pick, surcharge)
    {
      cost := cost + (pick.cost + surcharge);
      benefit := benefit + pick.benefit;
      benefitCount := benefitCount + pick.benefitCount;
    }
  }

  /** Surcharge added to every pick: with a finite limit `L`, one pick costs at
      least a `1/(L+1)` share of the budget; with no limit (`Integer.MAX_VALUE`)
      nothing is added. A limit of -1 would divide by zero. */
  function CostPerAggregate(costLimit: real, aggregateLimit: Int32): (s: real)
    requires aggregateLimit != -1
    ensures aggregateLimit == INT_MAX ==> s == 0.0
    ensures aggregateLimit < INT_MAX ==> s * (aggregateLimit + 1) as real == costLimit
    ensures 0 <= aggregateLimit && 0.0 <= costLimit ==> 0.0 <= s
  {
    if aggregateLimit < INT_MAX then costLimit / (aggregateLimit + 1) as real else 0.0
  }

  /** One accepted pick folded into the running total: its raw cost plus the
      surcharge, its benefit and its benefit count. */
  function Charge(total: CostTriple, pick: CostTriple, surcharge: real): (t: CostTriple)
    // a pick with non-negative raw cost and surcharge never lowers the total cost,
    // and one that clears the benefit floor raises the total benefit by at least the floor
    ensures 0.0 <= pick.cost && 0.0 <= surcharge ==> total.cost <= t.cost
    ensures pick.benefit >= MIN_BENEFIT ==> t.benefit >= total.benefit + MIN_BENEFIT
  {
    CostTriple(total.cost + pick.cost + surcharge,
               total.benefit + pick.benefit,
               total.benefitCount + pick.benefitCount)
  }

  /** The running total after the accepted picks, in order. Picks that each
      clear the benefit floor realize at least one floor's worth of benefit
      apiece. */
  function Totals(picks: seq<CostTriple>, surcharge: real): (t: CostTriple)
    ensures (forall k :: 0 <= k < |picks| ==> picks[k].benefit >= MIN_BENEFIT) ==>
              t.benefit >= |picks| as real * MIN_BENEFIT
  {
    if picks == [] then ZERO
    else Charge(Totals(picks[..|picks| - 1], surcharge), picks[|picks| - 1], surcharge)
  }

  /** The budget left after the accepted picks: the whole budget before any
      pick and, with non-negative raw costs, at most the budget less one
      surcharge per pick. */
  function Remaining(costLimit: real, surcharge: real, picks: seq<CostTriple>): (r: real)
    ensures picks == [] ==> r == costLimit
    ensures NonNegativeCosts(picks) ==> r <= costLimit - |picks| as real * surcharge
  {
    TotalsCostAtLeast(picks, surcharge);
    costLimit - Totals(picks, surcharge).cost
  }

  ghost predicate NonNegativeCosts(picks: seq<CostTriple>)
  {
    forall k :: 0 <= k < |picks| ==> 0.0 <= picks[k].cost
  }

  /** Appending a pick charges it onto the running total of the earlier ones. */
  lemma {:induction false} TotalsAppend(picks: seq<CostTriple>, pick: CostTriple, surcharge: real)
    ensures Totals(picks + [pick], surcharge) == Charge(Totals(picks, surcharge), pick, surcharge)
  {
    assert (picks + [pick])[..|picks|] == picks;
  }

  /** Each accepted pick consumes at least the surcharge when raw costs are
      non-negative. */
  lemma {:induction false} TotalsCostAtLeast(picks: seq<CostTriple>, surcharge: real)
    ensures NonNegativeCosts(picks) ==> Totals(picks, surcharge).cost >= |picks| as real * surcharge
  {
    if picks != [] && NonNegativeCosts(picks) {
      var init := picks[..|picks| - 1];
      assert NonNegativeCosts(init) by {
        forall k | 0 <= k < |init| ensures 0.0 <= init[k].cost {
          assert init[k] == picks[k];
        }
      }
      TotalsCostAtLeast(init, surcharge);
      var n := |init| as real;
      assert Totals(picks, surcharge).cost == Totals(init, surcharge).cost + picks[|picks| - 1].cost + surcharge;
      assert picks[|picks| - 1].cost >= 0.0;
      assert |picks| as real * surcharge == n * surcharge + surcharge;
    }
  }

  /** Picks with no raw cost consume exactly the surcharge each. */
  lemma {:induction false} TotalsOfFreePicks(picks: seq<CostTriple>, surcharge: real)
    requires forall k :: 0 <= k < |picks| ==> picks[k].cost == 0.0
    ensures Totals(picks, surcharge).cost == |picks| as real * surcharge
  {
    if picks != [] {
      var init := picks[..|picks| - 1];
      forall k | 0 <= k < |init| ensures init[k].cost == 0.0 {
        assert init[k] == picks[k];
      }
      TotalsOfFreePicks(init, surcharge);
    }
  }

  /** A budget of 100 with an aggregate limit of 4: the surcharge is 20, so
      four free picks leave 20 and are materialized, while the fifth leaves 0
      and stops the run before it is materialized. */
  lemma AggregateLimitFourScenario(picks: seq<CostTriple>)
    requires |picks| == 5 && forall k :: 0 <= k < 5 ==> picks[k].cost == 0.0
    ensures CostPerAggregate(100.0, 4) == 20.0
    ensures Remaining(100.0, 20.0, picks[..4]) == 20.0
    ensures Remaining(100.0, 20.0, picks) == 0.0
  {
    TotalsOfFreePicks(picks, 20.0);
    var four := picks[..4];
    forall k | 0 <= k < |four| ensures four[k].cost == 0.0 {
      assert four[k] == picks[k];
    }
    TotalsOfFreePicks(four, 20.0);
  }

  /** Remaining budget never grows from one accepted pick to the next. */
  lemma {:induction false} RemainingNonIncreasing(costLimit: real, surcharge: real, picks: seq<CostTriple>, k: nat)
    requires k < |picks|
    requires 0.0 <= picks[k].cost && 0.0 <= surcharge
    ensures Remaining(costLimit, surcharge, picks[..k + 1]) <= Remaining(costLimit, surcharge, picks[..k])
  {
    assert picks[..k + 1] == picks[..k] + [picks[k]];
    TotalsAppend(picks[..k], picks[k], surcharge);
  }

  /** Dividing both sides of `a * f < c == b * f` by a positive factor. */
  lemma CancelPositiveFactor(a: real, b: real, f: real, c: real)
    requires 0.0 < f && a * f < c && c == b * f
    ensures a < b
  {
    assert (b - a) * f > 0.0;
  }

  /** With a positive budget, non-negative raw costs and a finite aggregate
      limit `L`, a sequence of picks that still leaves budget has at most `L`
      elements: the `(L+1)`-th pick always exhausts the budget. */
  lemma MaterializedWithinLimit(costLimit: real, aggregateLimit: Int32, picks: seq<CostTriple>)
    requires 0.0 < costLimit && 0 <= aggregateLimit < INT_MAX
    requires NonNegativeCosts(picks)
    requires picks != [] ==> Remaining(costLimit, CostPerAggregate(costLimit, aggregateLimit), picks) > 0.0
    ensures |picks| <= aggregateLimit
  {
    var s := CostPerAggregate(costLimit, aggregateLimit);
    var slots := (aggregateLimit + 1) as real;
    assert s == costLimit / slots;
    assert 0.0 < s;
    if picks != [] {
      var n := |picks| as real;
      assert n * s < costLimit;
      assert slots * s == costLimit;
      CancelPositiveFactor(n, slots, s, costLimit);
    }
  }
}
