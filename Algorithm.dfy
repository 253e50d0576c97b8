/** `AlgorithmImpl`: the base of the aggregate-selection algorithms. It owns the
    cancel/timeout fields and the progress sink, builds ad-hoc aggregates, and
    runs the greedy selection loop over a lattice. */
module Algorithm {
  import opened JavaLang
  import opened CostAccounting
  import opened CancelTimeout
  import opened LatticeModel
  import opened Aggregates
  import opened Selection

  /** `getBaseName`: a class name without its package prefix. */
  function GetBaseName(className: string): (r: string)
    ensures '.' !in r
    ensures |r| <= |className| && className[|className| - |r|..] == r
    ensures '.' !in className ==> r == className
    ensures '.' in className ==> |r| < |className| && className[|className| - |r| - 1] == '.'
  {
    var dot := LastIndexOf(className, '.');
    if dot >= 0 then className[dot + 1..] else className
  }

  /** The middle of one turn of `runAlgorithm`: ask the lattice for a
      candidate with the remaining budget, give up on `null` or below the
      benefit floor, and otherwise charge the pick (raw cost plus surcharge)
      to the totals and the budget. The ghost `picks'` extends `picks` by the
      charged pick. */
  method ChooseAndCharge(lattice: Lattice<AggregateImpl>, costLimit: real, minCostBenefitRatio: real,
                         costPerAggregate: real, aggCost: Cost, totalCost: Cost, remainingCost: real,
                         ghost picks: seq<CostTriple>)
    returns (charged: Option<AggregateImpl>, remaining: real, ghost picks': seq<CostTriple>)
    requires lattice.Valid() && aggCost != totalCost
    requires totalCost.Triple() == Totals(picks, costPerAggregate)
    requires remainingCost == costLimit - totalCost.cost
    modifies aggCost, totalCost
    ensures var offer := lattice.choose(lattice.materialized, remainingCost, minCostBenefitRatio);
      if offer.None? || lattice.score(offer.value, lattice.materialized).benefit < MIN_BENEFIT then
        charged.None? && picks' == picks
      else
        charged == offer && picks' == picks + [lattice.score(offer.value, lattice.materialized)]
    ensures totalCost.Triple() == Totals(picks', costPerAggregate)
    ensures remaining == costLimit - totalCost.cost
  {
    picks' := picks;
    remaining := remainingCost;
    charged := lattice.ChooseAggregate(remainingCost, minCostBenefitRatio, aggCost);
    if charged.None? {
      return;
    }
    if aggCost.benefit < MIN_BENEFIT {
      return None, remaining, picks';
    }
    var pick := aggCost.Triple();
    var cost := pick.cost + costPerAggregate;
    TotalsAppend(picks, pick, costPerAggregate);
    totalCost.Add(pick, costPerAggregate);
    remaining := remaining - cost;
    picks' := picks + [pick];
  }

  /** What `runAlgorithm` returns: the materialized aggregates in order, the
      cost limit, and the realized total cost and benefit. */
  datatype ResultImpl = ResultImpl(aggregates: seq<AggregateImpl>, costLimit: real,
                                   totalCost: real, totalBenefit: real)

  class AlgorithmImpl {
    var cancelRequested: bool
    var canceled: bool
    var timeoutMillis: Long
    /** Every `Progress.report` call made so far. */
    ghost var progressLog: seq<Report>
    /** The schema of the last run or ad-hoc aggregate (`null` before). */
    var schema: Option<Schema>

    constructor ()
      ensures !cancelRequested && !canceled && timeoutMillis == 0
      ensures progressLog == [] && schema == None
    {
      cancelRequested, canceled, timeoutMillis := false, false, 0;
      progressLog := [];
      schema := None;
    }

    function Flags(): (f: CancelTimeout.Flags)
      reads this
    {
      CancelTimeout.Flags(cancelRequested, canceled, timeoutMillis)
    }

    /** `cancel()`. */
    method Cancel()
      modifies this`cancelRequested
      ensures Flags() == Requested(old(Flags()))
    {
      cancelRequested := true;
    }

    /** `onStart(parameterValues, progress)`, with the `TIME_LIMIT_SECONDS`
        parameter (`null` when absent) and the current time. */
    method OnStart(timeLimitSeconds: Option<Int32>, now: Long)
      modifies this`canceled, this`timeoutMillis
      ensures Flags() == Started(old(Flags()), timeLimitSeconds, now)
      ensures !canceled && cancelRequested == old(cancelRequested)
    {
      canceled := false;
      if timeLimitSeconds.None? {
        timeoutMillis := LONG_MAX;
      } else {
        timeoutMillis := WrapLong(now + 1000 * timeLimitSeconds.value);
      }
    }

    /** `checkCancelTimeout()` at clock reading `now`. */
    method CheckCancelTimeout(now: Long) returns (stop: bool)
      modifies this`cancelRequested, this`canceled, this`progressLog
      ensures var r := Check(old(Flags()), now);
        Flags() == r.flags && stop == r.stop && progressLog == old(progressLog) + r.reports
    {
      if canceled {
        return true;
      }
      if cancelRequested {
        canceled := true;
        cancelRequested := false;
        progressLog := progressLog + [Report(CANCELED_MESSAGE, 1.0)];
        return true;
      }
      if now > timeoutMillis {
        canceled := true;
        progressLog := progressLog + [Report(TIMEOUT_MESSAGE, 1.0)];
        return true;
      }
      return false;
    }

    /** `createAggregate(schema, attributeList)`; `None` is the exception thrown
        for an attribute that is not in the schema. */
    method CreateAggregate(s: Schema, attributeList: seq<Attribute>) returns (agg: Option<AggregateImpl>)
      modifies this`schema
      ensures schema == Some(s)
      ensures agg.None? <==> exists k :: 0 <= k < |attributeList| && attributeList[k] !in s.attributes
      ensures agg.Some? ==> agg.value == AggregateImpl(s, BitsOf(s.attributes, attributeList))
    {
      schema := Some(s);
      var bits := SetAttributeBits(s.attributes, attributeList);
      if bits.None? {
        return None;
      }
      agg := Some(AggregateImpl(s, bits.value));
    }

    /** One turn of the `while (true)` loop of `runAlgorithm`, the `checks`-th:
        check for cancel/timeout, choose and charge a candidate, and
        materialize it while budget remains. Either the loop is `done`, and the
        state is the end of the run `Select` specifies from this turn, or the
        turn charged and materialized exactly the lattice's offer and the rest
        of the run is `Select` from the next turn. */
    method Turn(lattice: Lattice<AggregateImpl>, costLimit: real, minCostBenefitRatio: real,
                costPerAggregate: real, aggCost: Cost, totalCost: Cost, clock: nat -> Long,
                checks: nat, remainingCost: real, ghost picks: seq<CostTriple>)
      returns (done: bool, remaining: real, ghost picks': seq<CostTriple>)
      requires lattice.Valid() && aggCost != totalCost
      requires totalCost.Triple() == Totals(picks, costPerAggregate)
      requires remainingCost == costLimit - totalCost.cost
      modifies this`cancelRequested, this`canceled, this`progressLog, lattice, aggCost, totalCost
      ensures lattice.Valid()
      ensures totalCost.Triple() == Totals(picks', costPerAggregate)
      ensures remaining == costLimit - totalCost.cost
      ensures done ==>
        var o := Select(lattice, costLimit, minCostBenefitRatio, costPerAggregate, clock,
                        old(Flags()), old(lattice.materialized), picks, checks);
        Flags() == o.flags && lattice.materialized == o.materialized && picks' == o.picks &&
        progressLog == old(progressLog) + o.reports
      ensures !done ==>
        Flags() == old(Flags()) && progressLog == old(progressLog) &&
        |old(lattice.materialized)| < |lattice.materialized| <= |lattice.universe| &&
        (var offer := lattice.choose(old(lattice.materialized), remainingCost, minCostBenefitRatio);
         offer.Some? && lattice.materialized == old(lattice.materialized) + [offer.value] &&
         picks' == picks + [lattice.score(offer.value, old(lattice.materialized))]) &&
        Select(lattice, costLimit, minCostBenefitRatio, costPerAggregate, clock,
               old(Flags()), old(lattice.materialized), picks, checks)
        == Select(lattice, costLimit, minCostBenefitRatio, costPerAggregate, clock,
                  Flags(), lattice.materialized, picks', checks + 1)
    {
      ghost var f, m := Flags(), lattice.materialized;
      remaining, picks' := remainingCost, picks;
      done := CheckCancelTimeout(clock(checks));
      if done {
        SelectStopsAtCheck(lattice, costLimit, minCostBenefitRatio, costPerAggregate, clock, f, m, picks, checks);
        return;
      }
      var aggregate;
      aggregate, remaining, picks' := ChooseAndCharge(lattice, costLimit, minCostBenefitRatio, costPerAggregate,
                                                      aggCost, totalCost, remainingCost, picks);
      ghost var offer := lattice.choose(m, remainingCost, minCostBenefitRatio);
      if aggregate.None? {
        SelectDeclines(lattice, costLimit, minCostBenefitRatio, costPerAggregate, clock, f, m, picks, checks, offer);
        return true, remaining, picks';
      }
      SelectCharges(lattice, costLimit, minCostBenefitRatio, costPerAggregate, clock, f, m, picks, checks,
                    aggregate.value);
      if remaining <= 0.0 {
        return true, remaining, picks';
      }
      lattice.Materialize(aggregate.value);
    }

    /** The `while (true)` loop of `runAlgorithm`. The run is the one `Select`
        specifies. */
    method SelectAggregates(lattice: Lattice<AggregateImpl>, costLimit: real, minCostBenefitRatio: real,
                            costPerAggregate: real, aggCost: Cost, totalCost: Cost, clock: nat -> Long)
      returns (ghost outcome: RunOutcome<AggregateImpl>)
      requires lattice.Valid() && aggCost != totalCost && totalCost.Triple() == ZERO
      modifies this`cancelRequested, this`canceled, this`progressLog, lattice, aggCost, totalCost
      ensures lattice.Valid()
      ensures outcome == Select(lattice, costLimit, minCostBenefitRatio, costPerAggregate, clock,
                                old(Flags()), old(lattice.materialized), [], 0)
      ensures Flags() == outcome.flags && lattice.materialized == outcome.materialized
      ensures progressLog == old(progressLog) + outcome.reports
      ensures totalCost.Triple() == Totals(outcome.picks, costPerAggregate)
    {
      outcome := Select(lattice, costLimit, minCostBenefitRatio, costPerAggregate, clock,
                        Flags(), lattice.materialized, [], 0);
      var remainingCost := costLimit;
      ghost var picks: seq<CostTriple> := [];
      var checks: nat := 0;
      var done := false;
      while !done
        invariant lattice.Valid()
        invariant totalCost.Triple() == Totals(picks, costPerAggregate)
        invariant remainingCost == costLimit - totalCost.cost
        invariant !done ==>
          Flags() == old(Flags()) && progressLog == old(progressLog) &&
          outcome == Select(lattice, costLimit, minCostBenefitRatio, costPerAggregate, clock,
                            Flags(), lattice.materialized, picks, checks)
        invariant done ==>
          Flags() == outcome.flags && lattice.materialized == outcome.materialized && picks == outcome.picks &&
          progressLog == old(progressLog) + outcome.reports
        decreases !done, |lattice.universe| - |lattice.materialized|
      {
        done, remainingCost, picks := Turn(lattice, costLimit, minCostBenefitRatio, costPerAggregate,
                                           aggCost, totalCost, clock, checks, remainingCost, picks);
        checks := checks + 1;
      }
    }

    /** `runAlgorithm(lattice, costLimit, minCostBenefitRatio, aggregateLimit)`.
        `clock(k)` is the time the `k`-th cancel/timeout check reads if it
        gets past the `canceled` and `cancelRequested` tests. The
        ghost result `outcome` is the run as `Select` specifies it: why it
        stopped, and the picks that were charged to the budget, in order. */
    method RunAlgorithm(lattice: Lattice<AggregateImpl>, costLimit: real,
                        minCostBenefitRatio: real, aggregateLimit: Int32, clock: nat -> Long)
      returns (result: ResultImpl, ghost outcome: RunOutcome<AggregateImpl>)
      requires lattice.Valid() && aggregateLimit != -1
      modifies this`cancelRequested, this`canceled, this`progressLog, lattice
      ensures lattice.Valid()
      // the run, its final fields and its reports are those of the loop's specification
      ensures outcome == Select(lattice, costLimit, minCostBenefitRatio, CostPerAggregate(costLimit, aggregateLimit),
                                clock, old(Flags()), old(lattice.materialized), [], 0)
      ensures Flags() == outcome.flags && lattice.materialized == outcome.materialized
      ensures progressLog == old(progressLog) + outcome.reports
      ensures result == ResultImpl(lattice.materialized, costLimit,
                                   Totals(outcome.picks, CostPerAggregate(costLimit, aggregateLimit)).cost,
                                   Totals(outcome.picks, CostPerAggregate(costLimit, aggregateLimit)).benefit)
      // every charged pick is materialized except possibly the last, which is
      // then the one that exhausted the budget
      ensures StoppedRun(lattice.score, costLimit, CostPerAggregate(costLimit, aggregateLimit),
                         old(lattice.materialized), lattice.materialized, outcome.picks)
      ensures outcome.reason == Exhausted <==>
        |outcome.picks| == |lattice.materialized| - |old(lattice.materialized)| + 1
      ensures outcome.reason == Exhausted ==>
        Remaining(costLimit, CostPerAggregate(costLimit, aggregateLimit), outcome.picks) <= 0.0
      // the other exits: a cancel/timeout stop, or the lattice's last offer
      ensures outcome.reason == Canceled <==> canceled
      ensures outcome.reason == NoCandidate ==>
        lattice.choose(lattice.materialized,
                       Remaining(costLimit, CostPerAggregate(costLimit, aggregateLimit), outcome.picks),
                       minCostBenefitRatio).None?
      ensures outcome.reason == BelowFloor ==>
        var offer := lattice.choose(lattice.materialized,
                                    Remaining(costLimit, CostPerAggregate(costLimit, aggregateLimit), outcome.picks),
                                    minCostBenefitRatio);
        offer.Some? && lattice.score(offer.value, lattice.materialized).benefit < MIN_BENEFIT
      // the finite aggregate limit is respected when raw costs are non-negative
      ensures 0.0 < costLimit && 0 <= aggregateLimit < INT_MAX && NonNegativeCosts(outcome.picks) ==>
        |lattice.materialized| - |old(lattice.materialized)| <= aggregateLimit
      // a run that starts canceled, or with a pending cancel, charges and
      // materializes nothing; a pending cancel is observed and reported
      ensures old(canceled) || old(cancelRequested) ==>
        outcome.reason == Canceled && outcome.picks == [] && lattice.materialized == old(lattice.materialized)
      ensures old(canceled) ==> Flags() == old(Flags()) && progressLog == old(progressLog)
      ensures !old(canceled) && old(cancelRequested) ==>
        canceled && !cancelRequested && progressLog == old(progressLog) + [Report(CANCELED_MESSAGE, 1.0)]
      // progress hears of a stop once, exactly when this run newly became canceled
      ensures |progressLog| <= |old(progressLog)| + 1
      ensures |progressLog| == |old(progressLog)| + 1 <==> !old(canceled) && canceled
    {
      var costPerAggregate := CostPerAggregate(costLimit, aggregateLimit);
      var aggCost := new Cost();
      var totalCost := new Cost();
      outcome := SelectAggregates(lattice, costLimit, minCostBenefitRatio, costPerAggregate, aggCost, totalCost, clock);
      ghost var f := old(Flags());
      ghost var start := old(lattice.materialized);
      SelectStopped(lattice, costLimit, minCostBenefitRatio, costPerAggregate, clock, f, start, start, [], 0);
      SelectExitsAreDue(lattice, costLimit, minCostBenefitRatio, costPerAggregate, clock, f, start, [], 0);
      SelectReportsAtMostOnce(lattice, costLimit, minCostBenefitRatio, costPerAggregate, clock, f, start, [], 0);
      if f.canceled || f.cancelRequested {
        PendingCancelStopsAtOnce(lattice, costLimit, minCostBenefitRatio, costPerAggregate, clock, f, start, [], 0);
      }
      if 0.0 < costLimit && 0 <= aggregateLimit < INT_MAX && NonNegativeCosts(outcome.picks) {
        ChargedWithinLimit(lattice.score, costLimit, aggregateLimit, start, lattice.materialized,
                           outcome.picks, |lattice.materialized| - |start|);
      }
      result := ResultImpl(lattice.MaterializedAggregates(), costLimit, totalCost.cost, totalCost.benefit);
    }
  }
}
