# abtoolkit simulators, modelled in Dafny

abtoolkit estimates how a statistical test behaves on a given metric by simulation.
Each round draws a control sample and a test sample from the data.
An A/A pass adds no effect; the p-value of this pass feeds the test's empirical alpha.
An A/B pass adds the minimal detectable effect (`mde`) to the test sample; its p-value
feeds the empirical power.

This project models the following:

- **The shared engine** (`BaseSimulationClass`):
  - `run()` resets `info` and simulates every name in `stattests_list`.
  - `simulate_test_by_name` runs `experiments_num` null/effect pairs and counts the
    p-values below `alpha_level`.
  - It then derives alpha and power and their confidence intervals, and re-inserts the
    record for the test at the end of the ordered `info` dictionary.
- **The continuous simulator**:
  - It registers six procedures, one per test.
  - Each procedure resamples with replacement from `variable`, adds `mde` to the test
    copy, and calls one of the continuous tests.
- **The non-numeric logic of the continuous tests**:
  - the degrees-of-freedom and alternative checks of the t-test;
  - the difference and CUPED transformations;
  - the frames, formulas and labels the regression tests build;
  - the one-sided correction of the regression p-value;
  - the guards of the additional-variables regression.
- **The discrete simulator**:
  - the base rate `count / objects_num`;
  - the two binomial draws;
  - the z-test call and the Bayesian-test call.

## How the model is built

The model is split into these modules:

- **`Common`**: the exceptions as an `Error` datatype, `Result` and `Outcome`, and the
  alternative hypothesis.
- **`OrderedDict`**: Python's insertion-ordered `dict` as an association list.
  - `Put` deletes the key and appends the key with its value, as lines 163-172 of
    `abtoolkit/utils.py` do.
- **`EngineSpec`**: the engine as functions.
  - The global random generator is a call counter `position`.
  - A registered test is a `Procedure` from (call number, mde) to a p-value or an error.
  - `RunTrials`, `Step` and `RunAll` specify the trial loop, `simulate_test_by_name` and
    `run`. The lemmas about them give the properties of the engine.
- **`Engine`**: `BaseSimulationClass` as the class `BaseSimulation`.
  - The class has the source's fields, plus two more: `ci`, the interval estimator it
    calls, and `position`, the generator position.
  - The methods carry the same loops, each proved against the `EngineSpec` functions.
- **`Resampling`**: index draws, `.loc` gathering and the `+= mde` shift.
  - Gathering and the shift are also written as array methods.
- **`ContinuousStatTests`**: the continuous tests as pure functions.
  - The numerics are parameters: the Student-t CDF (`special.stdtr`), `cov / var`, and
    the `PanelOLS` fit.
- **`ContinuousSpec`**: the continuous registry and each `simulate_*` procedure as a
  function of the call number.
- **`ContinuousSimulation`**: `StatTestsSimulation` of `abtoolkit/continuous/simulation.py`
  as a class.
  - Its `run`/`simulate_test_by_name` copy of the engine is proved against the same
    `EngineSpec` functions.
  - Its `simulate_*` methods are proved equal to the `ContinuousSpec` procedures that
    are wired into the registry.
- **`DiscreteSimulation`**: `StatTestsSimulation` of `abtoolkit/discrete/simulation.py`.
  - It holds an `Engine.BaseSimulation` whose registry it fills with its two procedures.

Exceptions are values: a method returns `Err(e)` where Python raises `e`. Once a pass
raises, `run()` stops and returns that error. The state left behind is the state at the
moment of the raise.

`run()` checks the names one at a time, inside its loop. So the tests listed before an
unknown name are simulated and recorded first. `EngineSpec.RunUnknownNameFails` states the
failure. The contract of `EngineSpec.Step` states that an unknown name leaves the state
as it was.

Two behaviours of the code are modelled as written:

- **`simulate_difference_ttest`** reads the test group's pre-period sample from `variable`,
  not from `previous_values`. It then calls `cuped_ttest`, not `difference_ttest`.
  `ContinuousSpec.DiffTtestAsWritten` states what this computes.
- **`simulate_bayesian_test`** calls `bayesian_test` with seven positional arguments. The
  function accepts four, so the call raises `TypeError`. As a result, every pass of that
  test fails. `DiscreteSimulation.BayesianAlwaysRaises` and
  `DiscreteSimulation.BayesianStepFails` state this.

## Model

| member | source | states |
|---|---|---|
| Common.ParseSide | abtoolkit/continuous/stattests.py:66-73 | an alternative is recognised exactly when it spells `less`, `greater` or `two-sided`; every other string is rejected |
| OrderedDict.Remove | abtoolkit/utils.py:163-164 | deleting never grows the dictionary; every entry left was there before and has another key |
| OrderedDict.Put | abtoolkit/utils.py:163-172 | the stored record is the last entry; every entry before it was there before and has another key |
| OrderedDict.PutKeySet | abtoolkit/utils.py:163-172 | storing a record leaves the dictionary's keys as before plus the test name |
| OrderedDict.RemoveKeySet | abtoolkit/utils.py:163-164 | `del info[name]` removes exactly that key |
| OrderedDict.RemoveAbsent | abtoolkit/utils.py:163-164 | deleting only when the name is present: an absent name leaves the dictionary unchanged |
| OrderedDict.PutDistinct | abtoolkit/utils.py:163-172 | storing keeps every key unique |
| OrderedDict.GetPut | abtoolkit/utils.py:163-172 | after storing, the name maps to the new record and every other name keeps its value |
| OrderedDict.PutNew | abtoolkit/utils.py:165-172 | a new name is appended at the end |
| OrderedDict.PutExisting | abtoolkit/utils.py:163-172 | re-simulating a name moves its record to the end; the other records keep their order |
| EngineSpec.Iterations | abtoolkit/utils.py:146 | `range(experiments_num)` runs `experiments_num` times when it is positive and never otherwise |
| EngineSpec.RunTrials | abtoolkit/utils.py:146-155 | a completed loop holds one p-value per trial in each list; an aborted loop stops at one of its own `2 * experiments_num` calls |
| EngineSpec.TrialsCompletedIff | abtoolkit/utils.py:146-155 | the trial loop completes exactly when every null pass and every effect pass returns |
| EngineSpec.TrialsContents | abtoolkit/utils.py:146-155 | a completed loop holds one p-value per trial in each list; the i-th is the result of the i-th null/effect call |
| EngineSpec.TrialsAborted | abtoolkit/utils.py:146-155 | an aborted loop stops at the first call that raises; all earlier calls returned |
| EngineSpec.TrialsAbortPersists | abtoolkit/utils.py:146-155 | once a pass has raised, further trials do not change the outcome |
| EngineSpec.TrialsNullFails | abtoolkit/utils.py:147-150 | a raising null pass aborts the loop with its error, at its call |
| EngineSpec.TrialsEffectFails | abtoolkit/utils.py:152-155 | a raising effect pass after a returning null pass aborts the loop with its error |
| EngineSpec.TrialsBothPass | abtoolkit/utils.py:147-155 | a trial whose two passes return appends one p-value to each list |
| EngineSpec.CountBelow | abtoolkit/utils.py:148-150 | the success counter never exceeds the number of trials |
| EngineSpec.CountBelowCardinality | abtoolkit/utils.py:149-150 | the success counter equals the number of trials whose p-value is below `alpha_level` |
| EngineSpec.CountBelowAppend | abtoolkit/utils.py:148-150 | appending a p-value adds one to the counter exactly when it is below `alpha_level` |
| EngineSpec.RateInUnitInterval | abtoolkit/utils.py:157-158 | alpha and power lie in [0, 1] |
| EngineSpec.Aggregate | abtoolkit/utils.py:157-170 | the division by `experiments_num` raises `ZeroDivisionError` exactly when it is zero; otherwise the record keeps both p-value lists |
| EngineSpec.AggregateWellFormed | abtoolkit/utils.py:157-172 | a record is produced exactly when `experiments_num` is not zero; it keeps both p-value lists; alpha and power are the below-alpha rates; the intervals are taken at level 0.05 |
| EngineSpec.Step | abtoolkit/utils.py:138-172 | an unregistered name raises before anything changes; a failed simulation leaves `info` untouched; a successful one needs a registered name and non-zero `experiments_num`, makes two generator calls per trial and stores its record last |
| EngineSpec.StepPass | abtoolkit/utils.py:138-172 | a successful simulation makes two generator calls per trial and stores, at the end of `info`, a well-formed record of those calls' p-values |
| EngineSpec.StepPassIff | abtoolkit/utils.py:138-172 | a simulation succeeds exactly when the name is registered, `experiments_num` is not zero and every pass returns |
| EngineSpec.StepAlwaysRaising | abtoolkit/utils.py:146-150 | a registered procedure that always raises makes its simulation fail whenever it runs a trial |
| EngineSpec.StepGood | abtoolkit/utils.py:163-172 | a successful simulation keeps every record well formed and adds exactly its name to the keys |
| EngineSpec.RunAll | abtoolkit/utils.py:126-127 | the generator only moves forward; when the loop completes, every name was registered |
| EngineSpec.RunAllGood | abtoolkit/utils.py:126-127 | after the loop over the names, every name has a well-formed record and was registered |
| EngineSpec.Run | abtoolkit/utils.py:120-128 | an empty list of names leaves `info` empty and the generator where it was; the generator only moves forward; success means every name was registered |
| EngineSpec.RunResult | abtoolkit/utils.py:120-128 | a successful `run()` returns an `info` whose keys are exactly the listed names, each with a well-formed record |
| EngineSpec.RunUnknownNameFails | abtoolkit/utils.py:126-127 | `run()` fails when any listed name is unregistered |
| Engine.BaseSimulation.constructor | abtoolkit/utils.py:61-79 | the settings are stored; `info` and the registry start empty; alpha level and power default to 0.05 and 0.8 |
| Engine.BaseSimulation.Run | abtoolkit/utils.py:120-128 | the outcome and the new state are those of the `run()` specification |
| Engine.BaseSimulation.SimulateTestByName | abtoolkit/utils.py:130-172 | the outcome and the new `info` and generator position are those of the step specification |
| Engine.BaseSimulation.Trials | abtoolkit/utils.py:146-155 | the loop either completes with the specified p-value lists or aborts at the specified call; the counters count the p-values below `alpha_level` |
| Engine.BaseSimulation.Trial | abtoolkit/utils.py:147-155 | one null pass then one effect pass, advancing the generator by two, or the error of the first pass that raises |
| Engine.BaseSimulation.Record | abtoolkit/utils.py:148-150 | appending a p-value keeps the counter equal to the number below `alpha_level` |
| Engine.BaseSimulation.StoreRecord | abtoolkit/utils.py:157-172 | zero experiments raise `ZeroDivisionError` and leave `info`; otherwise the aggregated record is re-inserted under the name |
| Resampling.DrawIndices | abtoolkit/continuous/simulation.py:196-197 | `sample_size` positions are drawn, each inside the series; drawing none needs no population |
| Resampling.GatherSeq | abtoolkit/continuous/simulation.py:199-202 | the sample holds the values at the drawn positions, in draw order |
| Resampling.Shifted | abtoolkit/continuous/simulation.py:203 | every value of the test sample is increased by `mde` |
| Resampling.ShiftedZero | abtoolkit/utils.py:147 | the null pass leaves the sample unchanged |
| Resampling.ShiftGatherCommute | abtoolkit/continuous/simulation.py:218-220 | shifting after drawing equals drawing from the shifted series |
| Resampling.GatherPaired | abtoolkit/continuous/simulation.py:216-217 | a sample and its covariate sample, gathered at the same positions, come row by row from the same unit |
| Resampling.Gather | abtoolkit/continuous/simulation.py:199-202 | the array produced holds the gathered sample |
| Resampling.ShiftInPlace | abtoolkit/continuous/simulation.py:203 | the array afterwards is the old one shifted by `mde` |
| ContinuousStatTests.CorrectedRegressionPValue | abtoolkit/continuous/stattests.py:31-36 | the p-value becomes 1 exactly when the coefficient points against a one-sided alternative; otherwise it is the fitted p-value |
| ContinuousStatTests.CorrectedPValueBounds | abtoolkit/continuous/stattests.py:31-36 | the correction never lowers a p-value and keeps it at most 1 |
| ContinuousStatTests.TTest | abtoolkit/continuous/stattests.py:55-73 | fewer than three observations raise with `df = n1 + n2 - 2`; an empty group then raises `ZeroDivisionError` at `1 / n1` or `1 / n2`; an unknown alternative raises; the test returns exactly when both groups are non-empty, there are at least three observations and the alternative is known |
| ContinuousStatTests.TTestInUnitInterval | abtoolkit/continuous/stattests.py:66-73 | a returned p-value lies in [0, 1] |
| ContinuousStatTests.TTestSides | abtoolkit/continuous/stattests.py:66-71 | whenever the test returns (two non-empty groups, at least three observations), the `less` and `greater` p-values sum to 1 and the two-sided p-value is twice the smaller of them |
| ContinuousStatTests.Differences | abtoolkit/continuous/stattests.py:97-98 | each value minus its pre-period value |
| ContinuousStatTests.DifferenceTTest | abtoolkit/continuous/stattests.py:97-100 | the t-test of the per-unit differences; it returns exactly when both groups are non-empty, there are at least three observations and the alternative is known |
| ContinuousStatTests.DifferenceTTestShiftInvariant | abtoolkit/continuous/stattests.py:97-100 | adding a per-unit offset to a value and to its pre-period value does not change the result |
| ContinuousStatTests.DifferenceTTestZeroPre | abtoolkit/continuous/stattests.py:97-100 | with zero pre-period values it is the plain t-test |
| ContinuousStatTests.CupedAdjust | abtoolkit/continuous/stattests.py:143-144 | each value minus theta times its covariate |
| ContinuousStatTests.CupedTTest | abtoolkit/continuous/stattests.py:139-146 | the t-test of both groups adjusted with one theta, estimated on the pooled covariate and values; it returns exactly when both groups are non-empty, there are at least three observations and the alternative is known |
| ContinuousStatTests.CupedZeroCovariate | abtoolkit/continuous/stattests.py:143-146 | a zero covariate leaves the plain t-test |
| ContinuousStatTests.CupedUnitThetaIsDifference | abtoolkit/continuous/stattests.py:143-146 | with theta = 1, CUPED is the difference t-test |
| ContinuousStatTests.SelectLabelled | abtoolkit/continuous/stattests.py:164-171 | selecting the rows of a labelled block gives its values back, or nothing when the labels differ |
| ContinuousStatTests.SelectAppend | abtoolkit/continuous/stattests.py:164-171 | selecting from concatenated rows concatenates the selections |
| ContinuousStatTests.RegressionFrame | abtoolkit/continuous/stattests.py:164-171 | the control rows come first with `treated = 0`, then the test rows with `treated = 1`; `bias = 1` throughout |
| ContinuousStatTests.RegressionFrameSplits | abtoolkit/continuous/stattests.py:164-171 | the rows with `treated = 0` are the control sample and those with `treated = 1` the test sample |
| ContinuousStatTests.RegressionTest | abtoolkit/continuous/stattests.py:164-180 | the corrected p-value of the `treated` coefficient of `value ~ bias + treated`, in [0, 1] |
| ContinuousStatTests.DidFrame | abtoolkit/continuous/stattests.py:206-216 | four blocks: control pre, control, test pre, test, tagged by `treated` and `after` |
| ContinuousStatTests.SelectBlocks | abtoolkit/continuous/stattests.py:206-216 | selecting from four labelled blocks keeps exactly the blocks whose labels match |
| ContinuousStatTests.DidFrameSplits | abtoolkit/continuous/stattests.py:206-216 | each (treated, after) cell of the frame is exactly one of the four samples |
| ContinuousStatTests.DidRegressionTest | abtoolkit/continuous/stattests.py:206-225 | the corrected p-value of the `treated:after` interaction, in [0, 1] |
| ContinuousStatTests.Names | abtoolkit/continuous/stattests.py:253-256 | the names of the additional variables, in order |
| ContinuousStatTests.JoinPlus | abtoolkit/continuous/stattests.py:282-284 | the joined text starts with the first name and ends with the last |
| ContinuousStatTests.JoinPlusAppend | abtoolkit/continuous/stattests.py:282-284 | the formula lists the additional variables joined by ` + `, one more name per variable |
| ContinuousStatTests.AdditionalVarsFormula | abtoolkit/continuous/stattests.py:282-284 | the formula starts with `value ~ bias + treated + ` and ends with the name of the last test variable |
| ContinuousStatTests.SeriesNamed | abtoolkit/continuous/stattests.py:267-273 | the values of the first test variable with the given name |
| ContinuousStatTests.SeriesNamedDistinct | abtoolkit/continuous/stattests.py:267-273 | when names are unique, looking a name up finds the variable of that name |
| ContinuousStatTests.RowsWith | abtoolkit/continuous/stattests.py:263-275 | each row is the value, then the additional variables at that row, then the group tags |
| ContinuousStatTests.Aligned | abtoolkit/continuous/stattests.py:267-273 | one column per control variable; identical name lists are stacked by position; with unique test names, each column holds the test variable of the control variable's name |
| ContinuousStatTests.AdditionalVarsFrame | abtoolkit/continuous/stattests.py:263-275 | for groups the concatenation accepts: columns `value`, the variables, `treated`, `bias`; control rows with `treated = 0`, then test rows with `treated = 1` and the test variables aligned to the control names |
| ContinuousStatTests.AdditionalVarsGuard | abtoolkit/continuous/stattests.py:253-261 | it passes exactly when test variables are given and both groups name the same set of variables, and raises the matching error otherwise |
| ContinuousStatTests.GuardIgnoresOrder | abtoolkit/continuous/stattests.py:257-261 | the guard compares names as sets: reordering the variables does not change it |
| ContinuousStatTests.AdditionalVarsRegressionTest | abtoolkit/continuous/stattests.py:253-287 | it fails on the guard, on unequal group sizes, or on repeated names listed in different orders (pandas cannot reindex them); otherwise it returns the corrected p-value of `treated` in the fitted frame, in [0, 1] |
| ContinuousSpec.Registry | abtoolkit/continuous/simulation.py:68-75 | exactly the six continuous test names are registered |
| ContinuousSpec.AuxSample | abtoolkit/continuous/simulation.py:216-219 | an auxiliary series is gathered at the drawn positions; a missing series or a missing key raises |
| ContinuousSpec.GatherVars | abtoolkit/continuous/simulation.py:267-269 | every additional variable is gathered at the drawn positions under its own name, or a missing key raises |
| ContinuousSpec.GatherVarsNames | abtoolkit/continuous/simulation.py:267-269 | gathering keeps the set of variable names |
| ContinuousSpec.SimulateProcedure | abtoolkit/continuous/simulation.py:178-274 | drawing a positive number of rows from an empty `variable` raises; drawing none does not, after which the t-test, and the two CUPED-based tests when their auxiliary series is given, raise with `df = -2`; a missing auxiliary series raises once the draw is done |
| ContinuousSpec.Procedures | abtoolkit/continuous/simulation.py:68-75 | each registered name is wired to its own simulation procedure |
| ContinuousSpec.ProcedureInUnitInterval | abtoolkit/continuous/simulation.py:178-274 | every simulated p-value lies in [0, 1] |
| ContinuousSpec.DiffTtestAsWritten | abtoolkit/continuous/simulation.py:190-205 | the difference simulation is CUPED over a test pre-period read from `variable`, so each test difference equals `mde` |
| ContinuousSpec.DiffTtestIgnoresTestPrevious | abtoolkit/continuous/simulation.py:199-202 | the difference simulation does not depend on the test group's `previous_values` |
| ContinuousSpec.AdditionalVarsSimulationGuards | abtoolkit/continuous/simulation.py:263-274 | the simulated groups always share names, sizes and name order, so neither the guard's name check, the size check nor the concatenation fails; only an empty variable list trips the guard, whenever the draw succeeds |
| ContinuousSimulation.StatTestsSimulation.constructor | abtoolkit/continuous/simulation.py:25-81 | the settings are stored, the six procedures are registered and the optional series default to absent |
| ContinuousSimulation.StatTestsSimulation.Run | abtoolkit/continuous/simulation.py:124-132 | the outcome and the new state are those of the `run()` specification over the registered procedures |
| ContinuousSimulation.StatTestsSimulation.SimulateTestByName | abtoolkit/continuous/simulation.py:134-176 | the outcome and the new state are those of the step specification |
| ContinuousSimulation.StatTestsSimulation.Trials | abtoolkit/continuous/simulation.py:150-159 | the loop either completes with the specified p-value lists or aborts at the specified call; the counters are the below-alpha counts |
| ContinuousSimulation.StatTestsSimulation.Trial | abtoolkit/continuous/simulation.py:151-159 | one null pass then one effect pass, or the error of the first pass that raises |
| ContinuousSimulation.StatTestsSimulation.Record | abtoolkit/continuous/simulation.py:152-154 | appending a p-value keeps the counter equal to the number below `alpha_level` |
| ContinuousSimulation.StatTestsSimulation.StoreRecord | abtoolkit/continuous/simulation.py:161-176 | zero experiments raise and leave `info`; otherwise the aggregated record is re-inserted under the name |
| ContinuousSimulation.StatTestsSimulation.Invoke | abtoolkit/continuous/simulation.py:151 | calling a registered method is one call of its registered procedure |
| ContinuousSimulation.StatTestsSimulation.Draw | abtoolkit/continuous/simulation.py:196-197 | one generator call draws the control positions and the test positions |
| ContinuousSimulation.StatTestsSimulation.Samples | abtoolkit/continuous/simulation.py:199-203 | the control sample and the test sample shifted by `mde`, as fresh arrays |
| ContinuousSimulation.StatTestsSimulation.SimulateTtest | abtoolkit/continuous/simulation.py:178-188 | one generator call; the result is the t-test procedure's |
| ContinuousSimulation.StatTestsSimulation.SimulateDifferenceTtest | abtoolkit/continuous/simulation.py:190-205 | one generator call; the result is the difference procedure's, as written |
| ContinuousSimulation.StatTestsSimulation.SimulateCuped | abtoolkit/continuous/simulation.py:207-224 | one generator call; the result is the CUPED procedure's |
| ContinuousSimulation.StatTestsSimulation.SimulateReg | abtoolkit/continuous/simulation.py:226-236 | one generator call; the result is the regression procedure's |
| ContinuousSimulation.StatTestsSimulation.SimulateRegDid | abtoolkit/continuous/simulation.py:238-255 | one generator call; the result is the difference-in-differences procedure's |
| ContinuousSimulation.StatTestsSimulation.SimulateRegAdd | abtoolkit/continuous/simulation.py:257-274 | one generator call; the result is the additional-variables procedure's |
| ContinuousSimulation.GatherAll | abtoolkit/continuous/simulation.py:267-269 | the list comprehension over the additional variables, as its specification |
| DiscreteSimulation.Registry | abtoolkit/discrete/simulation.py:61-64 | exactly `conversion_ztest` and `bayesian_test` are registered, each with its own test |
| DiscreteSimulation.BaseRate | abtoolkit/discrete/simulation.py:58-60 | `p` times `objects_num` is `count`; a zero `objects_num` raises |
| DiscreteSimulation.BinomialDraw | abtoolkit/discrete/simulation.py:75-76 | a draw fails exactly when `p` leaves [0, 1]; otherwise at most `sample_size` successes |
| DiscreteSimulation.ConversionZtestCall | abtoolkit/discrete/stattests.py:32-46 | a group of zero objects raises `ZeroDivisionError`; otherwise an unknown alternative raises; the z-test fails exactly in those cases, and its p-value lies in [0, 1] |
| DiscreteSimulation.CallBayesianTest | abtoolkit/discrete/stattests.py:49-54 | a call succeeds exactly with four integer arguments, the body being modelled as never raising; any other count raises `TypeError` |
| DiscreteSimulation.BayesianArguments | abtoolkit/discrete/simulation.py:90-98 | the simulator passes seven arguments: four counts and sizes, then the alternative and both priors |
| DiscreteSimulation.SimulateProcedure | abtoolkit/discrete/simulation.py:68-98 | a control rate outside [0, 1] raises, then a test rate outside [0, 1]; only the z-test can return, with a p-value in [0, 1] |
| DiscreteSimulation.Procedures | abtoolkit/discrete/simulation.py:61-64 | each registered name is wired to its own simulation procedure |
| DiscreteSimulation.ConversionZtestOutcome | abtoolkit/discrete/simulation.py:68-78 | the simulated z-test fails exactly on an invalid draw probability, a `sample_size` of zero (`ZeroDivisionError`) or an unknown alternative; otherwise it is the z-test of the two draws, in [0, 1] |
| DiscreteSimulation.NullPassSameRate | abtoolkit/discrete/simulation.py:75-76 | in the null pass both groups are drawn at the same rate `p`; with a valid `p`, the null z-test fails only on a zero `sample_size` or an unknown alternative |
| DiscreteSimulation.BayesianAlwaysRaises | abtoolkit/discrete/simulation.py:80-98 | every simulated Bayesian pass raises; with valid probabilities the error is the arity error (7 given, 4 accepted) |
| DiscreteSimulation.BayesianFourArguments | abtoolkit/discrete/stattests.py:49-54 | the first four of the seven arguments are what the signature accepts |
| DiscreteSimulation.BayesianStepFails | abtoolkit/discrete/simulation.py:80-98 | simulating `bayesian_test` with at least one experiment always fails |
| DiscreteSimulation.StatTestsSimulation.constructor | abtoolkit/discrete/simulation.py:19-66 | the engine gets the settings; `p` is the base rate; both procedures are registered; the priors default to 1 |
| DiscreteSimulation.StatTestsSimulation.Run | abtoolkit/utils.py:120-128 | the inherited `run()`, as its specification |
| DiscreteSimulation.StatTestsSimulation.SimulateConversionZtest | abtoolkit/discrete/simulation.py:68-78 | one generator call; the result is the registered z-test procedure's |
| DiscreteSimulation.StatTestsSimulation.SimulateBayesianTest | abtoolkit/discrete/simulation.py:80-98 | one generator call; the result is the registered Bayesian procedure's |
| DiscreteSimulation.Create | abtoolkit/discrete/simulation.py:58-60 | construction fails with `ZeroDivisionError` exactly when `objects_num` is zero |

## Left out

- Numerics are parameters, not computations. This covers:
  - the Student-t CDF `special.stdtr`. Three of its properties are stated: it lies in
    [0, 1], it is symmetric about zero and it is non-decreasing;
  - means and variances;
  - `np.cov`/`var`;
  - the `PanelOLS` fit;
  - the numerics of the hand-written z-test (`stats.norm.cdf` and `stats.norm.sf`);
  - the Beta-integral body of `bayesian_test`.

  Floating point is modelled as exact reals.
- `estimate_ci_binomial` (confidence intervals) is a parameter. Its formula lives in
  `abtoolkit/discrete/utils.py`, which is not part of this model. Neither are the other
  helpers there: `estimate_sample_size_by_mde`, `estimate_mde_by_sample_size` and
  `compare_beta_distributions`.
- The random generator is a counter plus uninterpreted draws. This covers:
  - `np.random.randint`;
  - `Series.sample(replace=True)`, modelled with the same positional draws;
  - `np.random.binomial`.

  The distributions are not modelled. Each simulation procedure is one generator call.
- `.loc` is label-based in pandas. The model gathers by position, which assumes a unique
  index. Duplicate labels, where `.loc` returns several rows per label, are not modelled.
- pandas aligns series by index in `control - control_pre` and in `test - theta * cov`.
  The model pairs values by position.
  - ContinuousStatTests.DifferenceTTest: requires the paired series to have equal lengths, which is what alignment yields for the simulator's samples.
  - ContinuousStatTests.CupedTTest: requires equal lengths, for the same reason.
  - ContinuousStatTests.AdditionalVarsFrame: requires every additional series to have its
    group's length. The column-wise `pd.concat(axis=1)` would otherwise pad with `NaN`.
  - ContinuousStatTests.AdditionalVarsRegressionTest: requires the same equal lengths.
  - The auxiliary series (`previous_values`, `cuped_covariant`, the additional variables)
    are assumed to share `variable`'s index, in the same order.
- Additional-variable names are assumed not to collide with the `value`, `treated` and
  `bias` columns or with the index.
- The `PanelOLS` fit is a parameter that always returns. Its failures on degenerate
  frames, such as an empty one or a singular design, are not modelled.
- The `MultiIndex`/`set_index` handling of the panel frames is not modelled.
  - The row order and labels of the frames are modelled.
  - The index levels that `PanelOLS` reads are not.
- `plot_p_values`, `print_results`, `tqdm` progress bars and `generate_data` are output
  or data generation, and are not modelled.
- `sample_size` is a `nat`: a negative size, which numpy rejects, is not modelled.
- ContinuousSpec.SimulateProcedure: its own contract states only the errors of an empty `variable` and of missing auxiliary series; its results are stated by the lemmas next to it (`ProcedureInUnitInterval`, `DiffTtestAsWritten`, `AdditionalVarsSimulationGuards`).
- DiscreteSimulation.CallBayesianTest: the body of `bayesian_test` is modelled as never raising. The `ValueError` that `lgamma` raises on a non-positive argument, at lines 68 and 73-74 of `abtoolkit/discrete/stattests.py`, is not modelled.
- DiscreteSimulation.StatTestsSimulation.constructor: requires `objects_num != 0`, because a Dafny constructor cannot fail. `DiscreteSimulation.Create` models the `ZeroDivisionError` raised at line 60.
- `alpha = cnt / experiments_num` with a negative `experiments_num` runs no trial and
  records zero rates. The model agrees.
- The `bayesian_test` prior parameters are stored and passed, but their effect on the
  posterior is numerics and is left out.
