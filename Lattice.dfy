/** The lattice of candidate aggregates, seen only through the contract the
    driver relies on. Its estimator and its search are external:
    `score(a, m)` is the cost and benefit assigned to candidate `a` when `m`
    is already materialized, and `choose(m, remainingCost, minRatio)` is the
    candidate its search offers then (`None` for `null`). */
module LatticeModel {
  import opened JavaLang
  import opened CostAccounting

  ghost predicate Distinct<A>(s: seq<A>)
  {
    forall i, j :: 0 <= i < j < |s| ==> s[i] != s[j]
  }

  /** `s` has no repetitions and all its elements are in `u`. */
  ghost predicate DistinctIn<A>(s: seq<A>, u: set<A>)
  {
    Distinct(s) && forall i :: 0 <= i < |s| ==> s[i] in u
  }

  /** A sequence without repetitions drawn from a finite set is no longer than
      the set. */
  lemma {:induction false} DistinctWithin<A>(s: seq<A>, u: set<A>)
    requires DistinctIn(s, u)
    ensures |s| <= |u|
  {
    if s != [] {
      var rest := s[1..];
      forall i | 0 <= i < |rest| ensures rest[i] in u - {s[0]} {
        assert rest[i] == s[i + 1];
      }
      assert Distinct(rest) by {
        forall i, j | 0 <= i < j < |rest| ensures rest[i] != rest[j] {
          assert rest[i] == s[i + 1] && rest[j] == s[j + 1];
        }
      }
      DistinctWithin(rest, u - {s[0]});
    }
  }

  /** Appending an element that does not occur keeps a sequence free of
      repetitions. */
  lemma DistinctAppend<A>(s: seq<A>, a: A)
    requires Distinct(s) && a !in s
    ensures Distinct(s + [a])
  {
    forall i, j | 0 <= i < j < |s| + 1 ensures (s + [a])[i] != (s + [a])[j] {
      if j == |s| {
        assert (s + [a])[i] == s[i];
      }
    }
  }

  /** The search only offers candidates of the universe that are not yet
      materialized. */
  ghost predicate FreshChoices<A(!new)>(universe: set<A>, choose: (seq<A>, real, real) -> Option<A>)
  {
    forall m, r, q :: choose(m, r, q).Some? ==> choose(m, r, q).value in universe && choose(m, r, q).value !in m
  }

  class Lattice<A(==,!new)> {
    /** The finite universe of candidates. */
    const universe: set<A>
    /** External cost/benefit estimator. */
    const score: (A, seq<A>) -> CostTriple
    /** External search policy of `chooseAggregate`. */
    const choose: (seq<A>, real, real) -> Option<A>
    /** Candidates materialized so far, in materialization order. */
    var materialized: seq<A>

    ghost predicate ChoiceFresh()
    {
      FreshChoices(universe, choose)
    }

    ghost predicate Valid()
      reads this
    {
      ChoiceFresh() && DistinctIn(materialized, universe)
    }

    constructor (universe: set<A>, score: (A, seq<A>) -> CostTriple, choose: (seq<A>, real, real) -> Option<A>)
      requires FreshChoices(universe, choose)
      ensures Valid() && this.universe == universe && this.score == score && this.choose == choose
      ensures materialized == []
    {
      this.universe := universe;
      this.score := score;
      this.choose := choose;
      materialized := [];
    }

    /** At most one candidate per member of the universe can be materialized. */
    lemma MaterializedBounded()
      requires Valid()
      ensures |materialized| <= |universe|
    {
      DistinctWithin(materialized, universe);
    }

    /** `chooseAggregate(remainingCost, minCostBenefitRatio, aggCost)`: the
        search's offer (`None` for `null`), a candidate of the universe that is
        not yet materialized; `aggCost` then holds its score. */
    method ChooseAggregate(remainingCost: real, minCostBenefitRatio: real, aggCost: Cost)
      returns (aggregate: Option<A>)
      requires Valid()
      modifies aggCost
      ensures aggregate == choose(materialized, remainingCost, minCostBenefitRatio)
      ensures aggregate.Some? ==> aggregate.value in universe && aggregate.value !in materialized
      ensures aggregate.Some? ==> aggCost.Triple() == score(aggregate.value, materialized)
    {
      aggregate := choose(materialized, remainingCost, minCostBenefitRatio);
      if aggregate.Some? {
        var t := score(aggregate.value, materialized);
        aggCost.cost, aggCost.benefit, aggCost.benefitCount := t.cost, t.benefit, t.benefitCount;
      }
    }

    /** `materialize`: commits a candidate that is not yet materialized. */
    method Materialize(aggregate: A)
      requires Valid() && aggregate in universe && aggregate !in materialized
      modifies this
      ensures Valid()
      ensures materialized == old(materialized) + [aggregate]
    {
      DistinctAppend(materialized, aggregate);
      materialized := materialized + [aggregate];
    }

    /** `getMaterializedAggregates`. */
    function MaterializedAggregates(): (r: seq<A>)
      reads this
      requires Valid()
      ensures DistinctIn(r, universe)
    {
      materialized
    }
  }
}
