/** The specification of the selection loop of `runAlgorithm`: `Select`
    replays the loop turn by turn, and the lemmas below say why a run stops,
    what it charged and materialized, and what it reported. */
module Selection {
  import opened JavaLang
  import opened CostAccounting
  import opened CancelTimeout
  import opened LatticeModel

  /** Why the loop of `runAlgorithm` broke out. */
  datatype StopReason =
    | Canceled     // `checkCancelTimeout()` returned true
    | NoCandidate  // the lattice offered `null`
    | BelowFloor   // the offer's benefit was below 1.0
    | Exhausted    // the last charge left no budget

  /** The end of a run: why it stopped, the final cancel/timeout fields, the
      materialized candidates, the charged picks, the progress reports and
      the number of cancel/timeout checks made. */
  datatype RunOutcome<A> = RunOutcome(reason: StopReason, flags: Flags, materialized: seq<A>,
                                      picks: seq<CostTriple>, reports: seq<Report>, checks: nat)

  /** The loop of `runAlgorithm` from a turn that starts with fields `f`,
      materialized candidates `m`, charged picks `picks` and `k`
      cancel/timeout checks made. Turn `k` checks for cancel/timeout with
      `clock(k)` as the time the check reads if it gets that far,
      asks the lattice for an offer with the remaining budget, stops below
      the benefit floor, charges the pick, stops when no budget is left and
      otherwise materializes the offer. */
  ghost function Select<A(!new)>(lattice: Lattice<A>, costLimit: real, minCostBenefitRatio: real,
                                    surcharge: real, clock: nat -> Long,
                                    f: Flags, m: seq<A>, picks: seq<CostTriple>, k: nat): (o: RunOutcome<A>)
    requires lattice.ChoiceFresh() && DistinctIn(m, lattice.universe)
    ensures k < o.checks
    decreases |lattice.universe| - |m|
  {
    var c := Check(f, clock(k));
    if c.stop then RunOutcome(Canceled, c.flags, m, picks, c.reports, k + 1)
    else
      var offer := lattice.choose(m, Remaining(costLimit, surcharge, picks), minCostBenefitRatio);
      if offer.None? then RunOutcome(NoCandidate, f, m, picks, [], k + 1)
      else
        var pick := lattice.score(offer.value, m);
        if pick.benefit < MIN_BENEFIT then RunOutcome(BelowFloor, f, m, picks, [], k + 1)
        else if Remaining(costLimit, surcharge, picks + [pick]) <= 0.0 then
          RunOutcome(Exhausted, f, m, picks + [pick], [], k + 1)
        else
          DistinctAppend(m, offer.value);
          DistinctWithin(m + [offer.value], lattice.universe);
          Select(lattice, costLimit, minCostBenefitRatio, surcharge, clock, f, m + [offer.value], picks + [pick], k + 1)
  }

  /** The bookkeeping of a run so far: starting from `start`, the first `n`
      charged picks were materialized, each pick is the score of the candidate
      it materialized, each cleared the benefit floor, and each materialized
      pick left budget after being charged. */
  ghost predicate ChargedRun<A>(score: (A, seq<A>) -> CostTriple, costLimit: real, surcharge: real,
                                start: seq<A>, materialized: seq<A>, picks: seq<CostTriple>, n: nat)
  {
    n <= |picks| && |materialized| == |start| + n && materialized[..|start|] == start &&
    (forall k :: 0 <= k < n ==> picks[k] == score(materialized[|start| + k], materialized[..|start| + k])) &&
    (forall k :: 0 <= k < |picks| ==> picks[k].benefit >= MIN_BENEFIT) &&
    (forall m :: 1 <= m <= n ==> Remaining(costLimit, surcharge, picks[..m]) > 0.0)
  }

  /** The bookkeeping of a finished run: every charged pick is materialized,
      except possibly the last one, and only if that one exhausted the budget. */
  ghost predicate StoppedRun<A>(score: (A, seq<A>) -> CostTriple, costLimit: real, surcharge: real,
                                start: seq<A>, materialized: seq<A>, picks: seq<CostTriple>)
  {
    |start| <= |materialized| &&
    var n := |materialized| - |start|;
    ChargedRun(score, costLimit, surcharge, start, materialized, picks, n) &&
    (|picks| == n || (|picks| == n + 1 && Remaining(costLimit, surcharge, picks) <= 0.0))
  }

  /** Charging a pick that clears the benefit floor keeps the bookkeeping. */
  lemma ChargePick<A>(score: (A, seq<A>) -> CostTriple, costLimit: real, surcharge: real,
                      start: seq<A>, materialized: seq<A>, picks: seq<CostTriple>, pick: CostTriple)
    requires ChargedRun(score, costLimit, surcharge, start, materialized, picks, |picks|)
    requires pick.benefit >= MIN_BENEFIT
    ensures ChargedRun(score, costLimit, surcharge, start, materialized, picks + [pick], |picks|)
  {
    var p := picks + [pick];
    forall m | 1 <= m <= |picks| ensures p[..m] == picks[..m] {
    }
  }

  /** Materializing the candidate of the last charged pick, when that pick
      left budget, keeps the bookkeeping. */
  lemma MaterializePick<A>(score: (A, seq<A>) -> CostTriple, costLimit: real, surcharge: real,
                           start: seq<A>, materialized: seq<A>, picks: seq<CostTriple>, a: A)
    requires picks != []
    requires ChargedRun(score, costLimit, surcharge, start, materialized, picks, |picks| - 1)
    requires picks[|picks| - 1] == score(a, materialized)
    requires Remaining(costLimit, surcharge, picks) > 0.0
    ensures ChargedRun(score, costLimit, surcharge, start, materialized + [a], picks, |picks|)
  {
    var m' := materialized + [a];
    assert m'[..|start|] == materialized[..|start|];
    forall k | 0 <= k < |picks|
      ensures picks[k] == score(m'[|start| + k], m'[..|start| + k])
    {
      if k < |picks| - 1 {
        assert m'[|start| + k] == materialized[|start| + k];
        assert m'[..|start| + k] == materialized[..|start| + k];
      } else {
        assert m'[..|start| + k] == materialized;
      }
    }
    assert picks[..|picks|] == picks;
  }

  /** The aggregate limit is respected by the materialized picks of a run
      whose raw costs are non-negative. */
  lemma ChargedWithinLimit<A>(score: (A, seq<A>) -> CostTriple, costLimit: real, aggregateLimit: Int32,
                              start: seq<A>, materialized: seq<A>, picks: seq<CostTriple>, n: nat)
    requires 0.0 < costLimit && 0 <= aggregateLimit < INT_MAX && NonNegativeCosts(picks)
    requires ChargedRun(score, costLimit, CostPerAggregate(costLimit, aggregateLimit), start, materialized, picks, n)
    ensures n <= aggregateLimit
  {
    var charged := picks[..n];
    assert NonNegativeCosts(charged) by {
      forall k | 0 <= k < |charged| ensures 0.0 <= charged[k].cost {
        assert charged[k] == picks[k];
      }
    }
    MaterializedWithinLimit(costLimit, aggregateLimit, charged);
  }

  /** The bookkeeping holds at the end of every run: each charged pick is the
      score of the candidate it materialized, except possibly a last one,
      which is then exactly the pick that exhausted the budget. */
  lemma {:induction false} SelectStopped<A(!new)>(lattice: Lattice<A>, costLimit: real, minCostBenefitRatio: real,
                                                    surcharge: real, clock: nat -> Long, f: Flags,
                                                    start: seq<A>, m: seq<A>, picks: seq<CostTriple>, k: nat)
    requires lattice.ChoiceFresh() && DistinctIn(m, lattice.universe)
    requires ChargedRun(lattice.score, costLimit, surcharge, start, m, picks, |picks|)
    ensures var o := Select(lattice, costLimit, minCostBenefitRatio, surcharge, clock, f, m, picks, k);
      StoppedRun(lattice.score, costLimit, surcharge, start, o.materialized, o.picks) &&
      (o.reason == Exhausted <==> |o.picks| == |o.materialized| - |start| + 1)
    decreases |lattice.universe| - |m|
  {
    if Check(f, clock(k)).stop {
      SelectStopsAtCheck(lattice, costLimit, minCostBenefitRatio, surcharge, clock, f, m, picks, k);
    } else {
      var offer := lattice.choose(m, Remaining(costLimit, surcharge, picks), minCostBenefitRatio);
      if offer.None? || lattice.score(offer.value, m).benefit < MIN_BENEFIT {
        SelectDeclines(lattice, costLimit, minCostBenefitRatio, surcharge, clock, f, m, picks, k, offer);
      } else {
        var a := offer.value;
        var pick := lattice.score(a, m);
        ChargePick(lattice.score, costLimit, surcharge, start, m, picks, pick);
        SelectCharges(lattice, costLimit, minCostBenefitRatio, surcharge, clock, f, m, picks, k, a);
        if Remaining(costLimit, surcharge, picks + [pick]) > 0.0 {
          MaterializePick(lattice.score, costLimit, surcharge, start, m, picks + [pick], a);
          SelectStopped(lattice, costLimit, minCostBenefitRatio, surcharge, clock, f,
                        start, m + [a], picks + [pick], k + 1);
        }
      }
    }
  }

  /** A turn whose check stops ends the run there, with that check's fields
      and report. */
  lemma SelectStopsAtCheck<A(!new)>(lattice: Lattice<A>, costLimit: real, minCostBenefitRatio: real,
                                    surcharge: real, clock: nat -> Long, f: Flags,
                                    m: seq<A>, picks: seq<CostTriple>, k: nat)
    requires lattice.ChoiceFresh() && DistinctIn(m, lattice.universe)
    requires Check(f, clock(k)).stop
    ensures Select(lattice, costLimit, minCostBenefitRatio, surcharge, clock, f, m, picks, k)
            == RunOutcome(Canceled, Check(f, clock(k)).flags, m, picks, Check(f, clock(k)).reports, k + 1)
  {
  }

  /** A turn whose offer is `null` or below the benefit floor ends the run
      without charging it. */
  lemma SelectDeclines<A(!new)>(lattice: Lattice<A>, costLimit: real, minCostBenefitRatio: real,
                                surcharge: real, clock: nat -> Long, f: Flags,
                                m: seq<A>, picks: seq<CostTriple>, k: nat, offer: Option<A>)
    requires lattice.ChoiceFresh() && DistinctIn(m, lattice.universe)
    requires !Check(f, clock(k)).stop
    requires offer == lattice.choose(m, Remaining(costLimit, surcharge, picks), minCostBenefitRatio)
    requires offer.None? || lattice.score(offer.value, m).benefit < MIN_BENEFIT
    ensures Select(lattice, costLimit, minCostBenefitRatio, surcharge, clock, f, m, picks, k)
            == RunOutcome(if offer.None? then NoCandidate else BelowFloor, f, m, picks, [], k + 1)
  {
  }

  /** A turn whose offer clears the floor charges it; the run ends there if
      that spends the budget, and otherwise goes on with the offer
      materialized. */
  lemma SelectCharges<A(!new)>(lattice: Lattice<A>, costLimit: real, minCostBenefitRatio: real,
                               surcharge: real, clock: nat -> Long, f: Flags,
                               m: seq<A>, picks: seq<CostTriple>, k: nat, a: A)
    requires lattice.ChoiceFresh() && DistinctIn(m, lattice.universe)
    requires !Check(f, clock(k)).stop
    requires Some(a) == lattice.choose(m, Remaining(costLimit, surcharge, picks), minCostBenefitRatio)
    requires lattice.score(a, m).benefit >= MIN_BENEFIT
    ensures DistinctIn(m + [a], lattice.universe) && |m| < |lattice.universe|
    ensures var picks' := picks + [lattice.score(a, m)];
      Select(lattice, costLimit, minCostBenefitRatio, surcharge, clock, f, m, picks, k)
      == if Remaining(costLimit, surcharge, picks') <= 0.0 then RunOutcome(Exhausted, f, m, picks', [], k + 1)
         else Select(lattice, costLimit, minCostBenefitRatio, surcharge, clock, f, m + [a], picks', k + 1)
  {
    DistinctAppend(m, a);
    DistinctWithin(m + [a], lattice.universe);
  }

  /** The checks `k` to `o.checks - 1` of a run: all but the last come back
      without a stop, and the last one stops the run exactly when the run ends
      `Canceled`, in which case the run's flags and reports are that check's;
      otherwise the flags are the starting ones and nothing was reported. */
  ghost predicate ChecksUntilStop<A>(clock: nat -> Long, f: Flags, k: nat, o: RunOutcome<A>)
  {
    k < o.checks &&
    (forall j :: k <= j < o.checks - 1 ==> !Check(f, clock(j)).stop) &&
    (o.reason == Canceled ==> Check(f, clock(o.checks - 1)).stop &&
                              o.flags == Check(f, clock(o.checks - 1)).flags &&
                              o.reports == Check(f, clock(o.checks - 1)).reports) &&
    (o.reason != Canceled ==> !Check(f, clock(o.checks - 1)).stop && o.flags == f && o.reports == [])
  }

  /** A check that does not stop extends the checks of the rest of the run. */
  lemma ChecksUntilStopStep<A>(clock: nat -> Long, f: Flags, k: nat, o: RunOutcome<A>)
    requires !Check(f, clock(k)).stop && ChecksUntilStop(clock, f, k + 1, o)
    ensures ChecksUntilStop(clock, f, k, o)
  {
    forall j | k <= j < o.checks - 1 ensures !Check(f, clock(j)).stop {
      if j > k {
        assert k + 1 <= j < o.checks - 1;
      }
    }
  }

  /** Every check of a run but the last returned false; a cancel/timeout
      stop is exactly the last check's outcome, and any other exit leaves the
      fields untouched and reports nothing. */
  lemma {:induction false} SelectChecksUntilStop<A(!new)>(lattice: Lattice<A>, costLimit: real,
                                                         minCostBenefitRatio: real, surcharge: real,
                                                         clock: nat -> Long, f: Flags,
                                                         m: seq<A>, picks: seq<CostTriple>, k: nat)
    requires lattice.ChoiceFresh() && DistinctIn(m, lattice.universe)
    ensures ChecksUntilStop(clock, f, k, Select(lattice, costLimit, minCostBenefitRatio, surcharge, clock, f, m, picks, k))
    decreases |lattice.universe| - |m|
  {
    if Check(f, clock(k)).stop {
      SelectStopsAtCheck(lattice, costLimit, minCostBenefitRatio, surcharge, clock, f, m, picks, k);
    } else {
      var offer := lattice.choose(m, Remaining(costLimit, surcharge, picks), minCostBenefitRatio);
      if offer.None? || lattice.score(offer.value, m).benefit < MIN_BENEFIT {
        SelectDeclines(lattice, costLimit, minCostBenefitRatio, surcharge, clock, f, m, picks, k, offer);
      } else {
        var a := offer.value;
        var pick := lattice.score(a, m);
        SelectCharges(lattice, costLimit, minCostBenefitRatio, surcharge, clock, f, m, picks, k, a);
        if Remaining(costLimit, surcharge, picks + [pick]) > 0.0 {
          SelectChecksUntilStop(lattice, costLimit, minCostBenefitRatio, surcharge, clock, f,
                                m + [a], picks + [pick], k + 1);
          ChecksUntilStopStep(clock, f, k,
            Select(lattice, costLimit, minCostBenefitRatio, surcharge, clock, f, m + [a], picks + [pick], k + 1));
        }
      }
    }
  }

  /** The other three exits are due when taken: `NoCandidate` and
      `BelowFloor` are backed by the lattice's offer at the end of the run,
      and `Exhausted` by a spent budget. */
  lemma {:induction false} SelectExitsAreDue<A(!new)>(lattice: Lattice<A>, costLimit: real,
                                                     minCostBenefitRatio: real, surcharge: real,
                                                     clock: nat -> Long, f: Flags,
                                                     m: seq<A>, picks: seq<CostTriple>, k: nat)
    requires lattice.ChoiceFresh() && DistinctIn(m, lattice.universe)
    ensures var o := Select(lattice, costLimit, minCostBenefitRatio, surcharge, clock, f, m, picks, k);
      var offer := lattice.choose(o.materialized, Remaining(costLimit, surcharge, o.picks), minCostBenefitRatio);
      (o.reason == NoCandidate ==> offer.None?) &&
      (o.reason == BelowFloor ==> offer.Some? && lattice.score(offer.value, o.materialized).benefit < MIN_BENEFIT) &&
      (o.reason == Exhausted ==> Remaining(costLimit, surcharge, o.picks) <= 0.0)
    decreases |lattice.universe| - |m|
  {
    if Check(f, clock(k)).stop {
      SelectStopsAtCheck(lattice, costLimit, minCostBenefitRatio, surcharge, clock, f, m, picks, k);
    } else {
      var offer := lattice.choose(m, Remaining(costLimit, surcharge, picks), minCostBenefitRatio);
      if offer.None? || lattice.score(offer.value, m).benefit < MIN_BENEFIT {
        SelectDeclines(lattice, costLimit, minCostBenefitRatio, surcharge, clock, f, m, picks, k, offer);
      } else {
        var a := offer.value;
        var pick := lattice.score(a, m);
        SelectCharges(lattice, costLimit, minCostBenefitRatio, surcharge, clock, f, m, picks, k, a);
        if Remaining(costLimit, surcharge, picks + [pick]) > 0.0 {
          SelectExitsAreDue(lattice, costLimit, minCostBenefitRatio, surcharge, clock, f,
                            m + [a], picks + [pick], k + 1);
        }
      }
    }
  }

  /** Every turn makes one check, and every turn but the last materializes one
      candidate: a run from `k` checks and `m` materialized makes one check
      more than it materializes candidates. */
  lemma {:induction false} SelectCountsTurns<A(!new)>(lattice: Lattice<A>, costLimit: real,
                                                     minCostBenefitRatio: real, surcharge: real,
                                                     clock: nat -> Long, f: Flags,
                                                     m: seq<A>, picks: seq<CostTriple>, k: nat)
    requires lattice.ChoiceFresh() && DistinctIn(m, lattice.universe)
    ensures var o := Select(lattice, costLimit, minCostBenefitRatio, surcharge, clock, f, m, picks, k);
      |m| <= |o.materialized| && o.materialized[..|m|] == m &&
      o.checks == k + 1 + (|o.materialized| - |m|)
    decreases |lattice.universe| - |m|
  {
    if Check(f, clock(k)).stop {
      SelectStopsAtCheck(lattice, costLimit, minCostBenefitRatio, surcharge, clock, f, m, picks, k);
    } else {
      var offer := lattice.choose(m, Remaining(costLimit, surcharge, picks), minCostBenefitRatio);
      if offer.None? || lattice.score(offer.value, m).benefit < MIN_BENEFIT {
        SelectDeclines(lattice, costLimit, minCostBenefitRatio, surcharge, clock, f, m, picks, k, offer);
      } else {
        var a := offer.value;
        var pick := lattice.score(a, m);
        SelectCharges(lattice, costLimit, minCostBenefitRatio, surcharge, clock, f, m, picks, k, a);
        if Remaining(costLimit, surcharge, picks + [pick]) > 0.0 {
          SelectCountsTurns(lattice, costLimit, minCostBenefitRatio, surcharge, clock, f,
                            m + [a], picks + [pick], k + 1);
          var o := Select(lattice, costLimit, minCostBenefitRatio, surcharge, clock, f, m + [a], picks + [pick], k + 1);
          assert o.materialized[..|m|] == (o.materialized[..|m| + 1])[..|m|];
        }
      }
    }
  }

  /** A run that starts canceled, or with a pending cancel request, stops at
      its first check without charging or materializing anything. */
  lemma PendingCancelStopsAtOnce<A(!new)>(lattice: Lattice<A>, costLimit: real, minCostBenefitRatio: real,
                                            surcharge: real, clock: nat -> Long, f: Flags,
                                            m: seq<A>, picks: seq<CostTriple>, k: nat)
    requires lattice.ChoiceFresh() && DistinctIn(m, lattice.universe)
    requires f.canceled || f.cancelRequested
    ensures Select(lattice, costLimit, minCostBenefitRatio, surcharge, clock, f, m, picks, k)
            == RunOutcome(Canceled, Check(f, clock(k)).flags, m, picks, Check(f, clock(k)).reports, k + 1)
  {
    SelectStopsAtCheck(lattice, costLimit, minCostBenefitRatio, surcharge, clock, f, m, picks, k);
  }

  /** Progress hears of a run's stop at most once, exactly when the run newly
      became canceled, and then with fraction 1.0. */
  lemma SelectReportsAtMostOnce<A(!new)>(lattice: Lattice<A>, costLimit: real, minCostBenefitRatio: real,
                                           surcharge: real, clock: nat -> Long, f: Flags,
                                           m: seq<A>, picks: seq<CostTriple>, k: nat)
    requires lattice.ChoiceFresh() && DistinctIn(m, lattice.universe)
    ensures var o := Select(lattice, costLimit, minCostBenefitRatio, surcharge, clock, f, m, picks, k);
      |o.reports| <= 1 && (|o.reports| == 1 <==> !f.canceled && o.flags.canceled) &&
      (o.reports != [] ==> o.reports[0].fraction == 1.0) &&
      (o.reason == Canceled <==> o.flags.canceled) &&
      o.flags.timeoutMillis == f.timeoutMillis
  {
    SelectChecksUntilStop(lattice, costLimit, minCostBenefitRatio, surcharge, clock, f, m, picks, k);
  }
}
