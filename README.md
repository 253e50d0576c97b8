# Aggregate designer: the `AlgorithmImpl` core in Dafny

The Pentaho aggregate designer picks which aggregate tables (pre-computed
group-by roll-ups) to build for a fact table under a budget. `AlgorithmImpl` is
the shared base of its algorithms. This project models four parts of it:

- **The greedy selection driver** (`runAlgorithm`). Each turn it checks for
  cancel or timeout and asks the lattice for a candidate. It stops on `null` or
  when the benefit is below the floor of 1.0. Otherwise it charges the raw cost
  plus a per-aggregate surcharge to the running totals and to the remaining
  budget. It materializes the candidate only if budget is left after that.
- **The cancel/timeout state machine** (`cancel`, `onStart`,
  `checkCancelTimeout`). It works on the fields `cancelRequested`, `canceled`
  and `timeoutMillis`, and reports to a progress sink.
- **Ad-hoc aggregate construction** (`createAggregate`). It sets one bit per
  listed attribute, at that attribute's index in the schema.
- **`getBaseName`**: a class name without its package prefix.

Layout, one module per concern:

- `JavaLang.dfy`: Java `int`/`long` ranges, `long` wrap-around, `null` as
  `Option`, `String.lastIndexOf` and `List.indexOf`.
- `CostAccounting.dfy`: the mutable `Cost` accumulator and the surcharge.
  `Totals` is the running total folded over the charged picks. The lemmas give
  the budget bounds.
- `CancelTimeout.dfy`: the state machine as pure transitions (`Requested`,
  `Started`, `Check`). `Replay` runs any sequence of `cancel()` and check calls.
- `Lattice.dfy`: the lattice collaborator, known only through its contract.
  It has a finite universe, a materialized sequence that only grows, an
  external scorer and an external search policy. The policy only ever offers
  candidates of the universe that are not yet materialized.
- `Aggregates.dfy`: attributes, schemas, bitset aggregates, the bit-setting
  loop and its read-back.
- `Selection.dfy`: the specification of the selection loop. `Select`
  replays the loop turn by turn and returns a `RunOutcome`. The outcome
  records why the loop stopped (`Canceled`, `NoCandidate`, `BelowFloor` or
  `Exhausted`), the final cancel/timeout fields, the materialized candidates,
  the charged picks and the progress reports. The lemmas about `Select` say
  when each exit is taken, what was charged and materialized, and what was
  reported.
- `Algorithm.dfy`: the class `AlgorithmImpl`. Its methods update the real
  fields in place. A ghost `progressLog` records every `Progress.report`
  call. The driver's loop is proved to perform the run `Select` specifies.

The surcharge only approximates an aggregate limit. With a budget of 100 and a
limit of 4, each pick with a non-negative raw cost costs at least 20. With
zero-cost picks the fifth pick brings the remaining budget to 0, and the loop
breaks before `materialize`, so 4 aggregates are built
(`AggregateLimitFourScenario`). In exact real arithmetic, with a positive budget
and non-negative raw costs, at most `L` aggregates are built for a limit of `L`
(`MaterializedWithinLimit`). Java's `double` rounding can let one more through;
see "## Left out".

## Model

| member | source | states |
|---|---|---|
| `JavaLang.WrapLong` | pentaho-aggdesigner-algorithm/src/main/java/org/pentaho/aggdes/algorithm/impl/AlgorithmImpl.java:111-113 | `long` arithmetic is the exact value when that fits in a `long`, and otherwise the value wrapped modulo 2^64 |
| `JavaLang.LastIndexOf` | pentaho-aggdesigner-algorithm/src/main/java/org/pentaho/aggdes/algorithm/impl/AlgorithmImpl.java:83 | the result is an index holding the character with none after it, or -1 exactly when the character is absent |
| `JavaLang.IndexOf` | pentaho-aggdesigner-algorithm/src/main/java/org/pentaho/aggdes/algorithm/impl/AlgorithmImpl.java:151 | the result is the first index holding the element, or -1 exactly when the element is absent |
| `Algorithm.GetBaseName` | pentaho-aggdesigner-algorithm/src/main/java/org/pentaho/aggdes/algorithm/impl/AlgorithmImpl.java:81-88 | the result has no `'.'` and is a suffix of the name; it is the whole name when the name has no `'.'`, otherwise what follows the last `'.'` |
| `CancelTimeout.Requested` | pentaho-aggdesigner-algorithm/src/main/java/org/pentaho/aggdes/algorithm/impl/AlgorithmImpl.java:73-75 | `cancel()` raises the request and leaves `canceled` and the deadline alone |
| `CancelTimeout.Deadline` | pentaho-aggdesigner-algorithm/src/main/java/org/pentaho/aggdes/algorithm/impl/AlgorithmImpl.java:106-114 | with no time limit the deadline is `Long.MAX_VALUE`; with `s` seconds it is `now + 1000*s` whenever that fits in a `long` |
| `CancelTimeout.Started` | pentaho-aggdesigner-algorithm/src/main/java/org/pentaho/aggdes/algorithm/impl/AlgorithmImpl.java:102-115 | `onStart` clears `canceled` and keeps a pending `cancelRequested` |
| `CancelTimeout.Check` | pentaho-aggdesigner-algorithm/src/main/java/org/pentaho/aggdes/algorithm/impl/AlgorithmImpl.java:127-144 | an already canceled run stops again, changing nothing and reporting nothing. A check stops exactly on `canceled`, a pending request, or a clock strictly past the deadline. An observed request clears itself, sets `canceled` and reports ("Algorithm was canceled", 1.0) once. A timeout sets `canceled` and reports ("Algorithm exceeded time limit", 1.0) once. A check that does not stop changes nothing |
| `CancelTimeout.Replay` | pentaho-aggdesigner-algorithm/src/main/java/org/pentaho/aggdes/algorithm/impl/AlgorithmImpl.java:73-144 | the effect of any sequence of `cancel()` and check calls within a run: the final fields, the value of each check and the reports in order. Neither call changes the deadline, and there is at most one value per call |
| `CancelTimeout.AtMostOneReport` | pentaho-aggdesigner-algorithm/src/main/java/org/pentaho/aggdes/algorithm/impl/AlgorithmImpl.java:127-142 | however cancels and checks interleave within a run, at most one progress report is made, and none if the run was already canceled |
| `CancelTimeout.StopIsPermanent` | pentaho-aggdesigner-algorithm/src/main/java/org/pentaho/aggdes/algorithm/impl/AlgorithmImpl.java:127-130 | once a check has returned true, every later check in the run returns true |
| `CancelTimeout.CancelBeforeStartStopsFirstCheck` | pentaho-aggdesigner-algorithm/src/main/java/org/pentaho/aggdes/algorithm/impl/AlgorithmImpl.java:102-135 | a `cancel()` issued before `onStart` makes the first check of the run stop, with the cancellation report |
| `CancelTimeout.NoTimeLimitNeverTimesOut` | pentaho-aggdesigner-algorithm/src/main/java/org/pentaho/aggdes/algorithm/impl/AlgorithmImpl.java:106-142 | without a time limit and without a cancel request, no clock reading makes a check stop |
| `CancelTimeout.TimeoutIsStrictlyAfterDeadline` | pentaho-aggdesigner-algorithm/src/main/java/org/pentaho/aggdes/algorithm/impl/AlgorithmImpl.java:110-142 | with a limit of `s` seconds, no pending cancel request and `start + 1000*s` within the `long` range, the timeout fires exactly when the clock is strictly greater than `start + 1000*s`, with the timeout report |
| `Algorithm.AlgorithmImpl.Cancel` | pentaho-aggdesigner-algorithm/src/main/java/org/pentaho/aggdes/algorithm/impl/AlgorithmImpl.java:73-75 | the fields become `Requested` of the old fields; nothing else changes |
| `Algorithm.AlgorithmImpl.OnStart` | pentaho-aggdesigner-algorithm/src/main/java/org/pentaho/aggdes/algorithm/impl/AlgorithmImpl.java:102-115 | the fields become `Started` of the old fields, the time limit and the clock |
| `Algorithm.AlgorithmImpl.CheckCancelTimeout` | pentaho-aggdesigner-algorithm/src/main/java/org/pentaho/aggdes/algorithm/impl/AlgorithmImpl.java:127-144 | the fields, the return value and the reports appended to the progress log are those of `Check` |
| `Aggregates.BitsOf` | pentaho-aggdesigner-algorithm/src/main/java/org/pentaho/aggdes/algorithm/impl/AlgorithmImpl.java:148-149 | the bitset is as wide as the schema's attribute list |
| `Aggregates.SetAttributeBits` | pentaho-aggdesigner-algorithm/src/main/java/org/pentaho/aggdes/algorithm/impl/AlgorithmImpl.java:148-152 | fails exactly when a listed attribute is missing from the schema (the `set(-1)` exception); otherwise returns `BitsOf`: bit `i` is set exactly when some listed attribute has schema index `i` |
| `Aggregates.RoundTrip` | pentaho-aggdesigner-algorithm/src/main/java/org/pentaho/aggdes/algorithm/impl/AlgorithmImpl.java:146-154 | when every listed attribute is in the schema, reading the attributes back from the built aggregate gives exactly the set of listed attributes |
| `Algorithm.AlgorithmImpl.CreateAggregate` | pentaho-aggdesigner-algorithm/src/main/java/org/pentaho/aggdes/algorithm/impl/AlgorithmImpl.java:146-154 | records the schema; fails exactly when a listed attribute is not in the schema; otherwise returns the aggregate over that schema with the bits `BitsOf` |
| `CostAccounting.CostPerAggregate` | pentaho-aggdesigner-algorithm/src/main/java/org/pentaho/aggdes/algorithm/impl/AlgorithmImpl.java:158-166 | with no limit (`Integer.MAX_VALUE`) the surcharge is 0; with a finite limit `L` it is the share `s` such that `s*(L+1) == costLimit`, and it is non-negative for a non-negative budget |
| `CostAccounting.Charge` | pentaho-aggdesigner-algorithm/src/main/java/org/pentaho/aggdes/algorithm/impl/AlgorithmImpl.java:190-193 | charging a pick adds its raw cost plus the surcharge to the cost, its benefit to the benefit and its count to the count; with a non-negative raw cost and surcharge the total cost does not drop, and a pick that clears the floor of 1.0 raises the benefit by at least 1.0 |
| `CostAccounting.Cost.Add` | pentaho-aggdesigner-algorithm/src/main/java/org/pentaho/aggdes/algorithm/impl/AlgorithmImpl.java:190-193 | the accumulator grows by the pick's raw cost plus the surcharge, by its benefit and by its benefit count |
| `CostAccounting.Totals` | pentaho-aggdesigner-algorithm/src/main/java/org/pentaho/aggdes/algorithm/impl/AlgorithmImpl.java:190-193 | the running total over the charged picks, each charged its raw cost plus the surcharge; picks that each clear the benefit floor of 1.0 add up to a benefit of at least one per pick |
| `CostAccounting.Remaining` | pentaho-aggdesigner-algorithm/src/main/java/org/pentaho/aggdes/algorithm/impl/AlgorithmImpl.java:170-194 | the budget left after the charged picks: the whole `costLimit` before any pick, and with non-negative raw costs at most `costLimit` less one surcharge per pick |
| `CostAccounting.TotalsAppend` | pentaho-aggdesigner-algorithm/src/main/java/org/pentaho/aggdes/algorithm/impl/AlgorithmImpl.java:190-194 | the running total after one more pick is the earlier total with that pick charged onto it |
| `CostAccounting.TotalsCostAtLeast` | pentaho-aggdesigner-algorithm/src/main/java/org/pentaho/aggdes/algorithm/impl/AlgorithmImpl.java:190-191 | with non-negative raw costs, `k` charged picks cost at least `k` surcharges |
| `CostAccounting.TotalsOfFreePicks` | pentaho-aggdesigner-algorithm/src/main/java/org/pentaho/aggdes/algorithm/impl/AlgorithmImpl.java:190-191 | `k` picks with no raw cost cost exactly `k` surcharges |
| `CostAccounting.RemainingNonIncreasing` | pentaho-aggdesigner-algorithm/src/main/java/org/pentaho/aggdes/algorithm/impl/AlgorithmImpl.java:190-194 | when the pick's raw cost and the surcharge are non-negative, the remaining budget does not grow from one charged pick to the next |
| `CostAccounting.MaterializedWithinLimit` | pentaho-aggdesigner-algorithm/src/main/java/org/pentaho/aggdes/algorithm/impl/AlgorithmImpl.java:159-197 | with a positive budget, non-negative raw costs and a finite limit `L`, a sequence of picks that still leaves budget has at most `L` picks |
| `CostAccounting.AggregateLimitFourScenario` | pentaho-aggdesigner-algorithm/src/main/java/org/pentaho/aggdes/algorithm/impl/AlgorithmImpl.java:159-197 | budget 100 and limit 4 give surcharge 20; four free picks leave 20 (materialized), the fifth leaves 0 (not materialized) |
| `LatticeModel.Lattice.MaterializedBounded` | pentaho-aggdesigner-algorithm/src/main/java/org/pentaho/aggdes/algorithm/impl/AlgorithmImpl.java:171-208 | the materialized sequence is no longer than the finite universe, which bounds the number of turns of the loop |
| `LatticeModel.Lattice.ChooseAggregate` | pentaho-aggdesigner-algorithm/src/main/java/org/pentaho/aggdes/algorithm/impl/AlgorithmImpl.java:177-179 | returns exactly the search policy's offer for the current materialized set, the remaining budget and the ratio; an offered candidate is in the universe and not yet materialized, and `aggCost` then holds its score against the current materialized set |
| `LatticeModel.Lattice.Materialize` | pentaho-aggdesigner-algorithm/src/main/java/org/pentaho/aggdes/algorithm/impl/AlgorithmImpl.java:207 | appends a candidate that is in the universe and not yet materialized; the materialized set only grows |
| `LatticeModel.Lattice.MaterializedAggregates` | pentaho-aggdesigner-algorithm/src/main/java/org/pentaho/aggdes/algorithm/impl/AlgorithmImpl.java:210-211 | the materialized aggregates have no repetition and all come from the universe |
| `Selection.Select` | pentaho-aggdesigner-algorithm/src/main/java/org/pentaho/aggdes/algorithm/impl/AlgorithmImpl.java:171-208 | the run of the loop, turn by turn: turn `k` checks at `clock(k)` and stops as `Canceled` on a true check; it stops as `NoCandidate` on a `null` offer and as `BelowFloor` on a benefit below 1.0; otherwise it charges the score, stops as `Exhausted` when no budget is left, and else materializes the offer and goes on. Every run makes at least one check |
| `Selection.ChargePick` | pentaho-aggdesigner-algorithm/src/main/java/org/pentaho/aggdes/algorithm/impl/AlgorithmImpl.java:187-194 | charging a pick that clears the benefit floor keeps the run's bookkeeping |
| `Selection.MaterializePick` | pentaho-aggdesigner-algorithm/src/main/java/org/pentaho/aggdes/algorithm/impl/AlgorithmImpl.java:195-207 | materializing the last pick's candidate, when that pick left budget, keeps every charged pick materialized |
| `Selection.ChargedWithinLimit` | pentaho-aggdesigner-algorithm/src/main/java/org/pentaho/aggdes/algorithm/impl/AlgorithmImpl.java:159-207 | the materialized picks of a run, under the conditions of `MaterializedWithinLimit`, number at most `L` |
| `Selection.SelectStopsAtCheck` | pentaho-aggdesigner-algorithm/src/main/java/org/pentaho/aggdes/algorithm/impl/AlgorithmImpl.java:173-175 | a turn whose cancel/timeout check returns true ends the run there, with that check's fields and report and nothing more charged or materialized |
| `Selection.SelectDeclines` | pentaho-aggdesigner-algorithm/src/main/java/org/pentaho/aggdes/algorithm/impl/AlgorithmImpl.java:177-189 | a turn whose offer is `null` ends the run as `NoCandidate`, and one whose offer has benefit below 1.0 ends it as `BelowFloor`, in both cases with nothing charged and the fields untouched |
| `Selection.SelectCharges` | pentaho-aggdesigner-algorithm/src/main/java/org/pentaho/aggdes/algorithm/impl/AlgorithmImpl.java:190-207 | a turn whose offer clears the floor charges its score. If that leaves no budget the run ends as `Exhausted` with the offer unbuilt; otherwise it goes on from the next check with the offer materialized |
| `Selection.SelectStopped` | pentaho-aggdesigner-algorithm/src/main/java/org/pentaho/aggdes/algorithm/impl/AlgorithmImpl.java:171-208 | at the end of every run each materialized candidate was charged its score against the candidates before it, and cleared the floor and left budget. All charged picks are materialized except a last one exactly when the run stopped as `Exhausted` |
| `Selection.SelectChecksUntilStop` | pentaho-aggdesigner-algorithm/src/main/java/org/pentaho/aggdes/algorithm/impl/AlgorithmImpl.java:171-175 | every cancel/timeout check of a run but the last returned false. A run stops as `Canceled` exactly when its last check returned true, with that check's fields and report; any other exit leaves the fields untouched and reports nothing |
| `Selection.SelectExitsAreDue` | pentaho-aggdesigner-algorithm/src/main/java/org/pentaho/aggdes/algorithm/impl/AlgorithmImpl.java:177-197 | `NoCandidate` means the lattice's offer at the end of the run is `null`, `BelowFloor` that the offer's benefit is below 1.0, and `Exhausted` that the remaining budget is at most 0 |
| `Selection.SelectCountsTurns` | pentaho-aggdesigner-algorithm/src/main/java/org/pentaho/aggdes/algorithm/impl/AlgorithmImpl.java:171-208 | a run only appends to the materialized candidates, and makes exactly one check more than the candidates it materializes: every turn checks once, and every turn but the last materializes one candidate |
| `Selection.PendingCancelStopsAtOnce` | pentaho-aggdesigner-algorithm/src/main/java/org/pentaho/aggdes/algorithm/impl/AlgorithmImpl.java:128-136 | a run that starts canceled or with a pending request stops at its first check, charging and materializing nothing |
| `Selection.SelectReportsAtMostOnce` | pentaho-aggdesigner-algorithm/src/main/java/org/pentaho/aggdes/algorithm/impl/AlgorithmImpl.java:127-144 | a run reports at most once, with fraction 1.0, exactly when it newly became canceled; it ends canceled exactly when it stopped as `Canceled`, and the deadline is untouched |
| `Algorithm.ChooseAndCharge` | pentaho-aggdesigner-algorithm/src/main/java/org/pentaho/aggdes/algorithm/impl/AlgorithmImpl.java:177-194 | asks the lattice for its offer with the remaining budget. On `null` or benefit below 1.0 it returns `None` and charges nothing. Otherwise it returns the offer and charges its score to the totals. The remaining budget stays `costLimit - totalCost.cost` |
| `Algorithm.AlgorithmImpl.Turn` | pentaho-aggdesigner-algorithm/src/main/java/org/pentaho/aggdes/algorithm/impl/AlgorithmImpl.java:172-207 | one turn of the loop. Either the loop is done and the state is the end of the run `Select` specifies from this turn, or the lattice offered a candidate for the remaining budget, exactly that candidate was appended to the materialized sequence and exactly its score was charged as one more pick, the fields and the log are untouched, and the rest of the run is `Select` from the next turn |
| `Algorithm.AlgorithmImpl.SelectAggregates` | pentaho-aggdesigner-algorithm/src/main/java/org/pentaho/aggdes/algorithm/impl/AlgorithmImpl.java:171-208 | the loop terminates, and its final fields, materialized candidates, charged totals and progress reports are those of the run `Select` specifies from the starting state |
| `Algorithm.AlgorithmImpl.RunAlgorithm` | pentaho-aggdesigner-algorithm/src/main/java/org/pentaho/aggdes/algorithm/impl/AlgorithmImpl.java:156-225 | the run is the one `Select` specifies (fields, materialized set, reports). The result holds the materialized aggregates in order, the cost limit and the totals of the charged picks. It stops only when a check returns true (`Canceled`, exactly when it ends canceled), the offer is `null`, the offer's benefit is below 1.0, or the budget is spent. All charged picks are built except a last one exactly in the budget case. With a positive budget, non-negative raw costs and a finite limit `L`, at most `L` aggregates are built. A pending cancel is observed: it is cleared, `canceled` is set, one ("Algorithm was canceled", 1.0) report is made and nothing is built |

## Left out

- The Java `Lattice` implementation's search and estimator are not part of this model: which candidate `chooseAggregate` prefers, its ratio and budget filters, and how candidates are scored. Both are external functions of the lattice here.
- LatticeModel.Lattice.ChooseAggregate: weaker than the real search. It does not promise that the candidate fits `remainingCost` or meets `minCostBenefitRatio`. Those two arguments are passed to the search policy but not constrained. What `aggCost` holds after a `null` answer is not specified either.
- Algorithm.AlgorithmImpl.RunAlgorithm: the limit of `L` aggregates is stated only for non-negative raw costs, because nothing in the code guarantees that the lattice's costs are non-negative.
- CostAccounting.MaterializedWithinLimit: the bound of at most `L` aggregates holds in exact `real` arithmetic only. With `double` rounding the surcharge `costLimit / (L + 1)` can be rounded down. For example, `costLimit = 1.0` and `L = 2` give 0.3333333333333333, and three zero-cost picks then leave about 1.1e-16 > 0, so a third aggregate is built. The bound also carries over to `RunAlgorithm` only under exact arithmetic.
- `remainingCost` is kept by repeated subtraction in the code and as `costLimit - totalCost.cost` in the specification. The two agree in exact arithmetic only.
- `computeAggregateCosts` and the per-aggregate `CostBenefit` list of the result are not part of this model: their code is not in this file. `ResultImpl` here holds the aggregates, the cost limit and the two totals.
- `CostBenefitImpl`: its getters delegate to classes outside this model, and `describe` only formats text.
- The `LOGGER` debug output, `parameterList`/`ParameterEnum`, `getParameters` and the constructor: bookkeeping with no logic.
- `getName` only applies `getBaseName` to `getClass()`. The class name is a string parameter here.
- `System.currentTimeMillis` is a parameter: `now` for one check, and `clock(k)` for the `k`-th check of a run.
- `Progress` is a ghost log of (message, fraction) reports. Before the first `onStart` the Java progress sink is `null`, so a check that reports there (lines 134 and 140) throws on the `null` sink. The model does not capture that failure: such a check appends its report to the log like any other.
- Cross-thread visibility of `cancel()`: modelled as a plain field update. `CancelTimeout.Replay` can interleave `cancel()` calls with checks. The driver cannot: `Select`, `SelectAggregates` and `RunAlgorithm` keep the fields fixed between turns, so a `cancel()` that another thread issues while `runAlgorithm` is running, the case `cancelRequested` exists for, is not modelled for the driver. Only a request that is already pending when the run starts is.
- `double` arithmetic is modelled as exact `real` arithmetic: no rounding, infinities or NaN. An aggregate limit of -1 would divide by zero and is excluded by a precondition. `benefitCount` is an unbounded integer.
- Attribute equality: the model identifies two attributes with the same name. The Java `List.indexOf` compares with `Attribute.equals`, and that implementation is not part of this model.
- `AggregateImpl`'s estimates (row count, space, load time) are not part of this model. An aggregate is its schema and its bits.
- `SchemaLoader` is an interface without behaviour. The test helpers `TestUtils` and `AggregateStub` are I/O plumbing and constant stubs.
