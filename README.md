# Pump scheduler: verified model of one simulation run and its objective

`afterh24V2.py` schedules a water pump over one day. A candidate schedule is
a few pump cycles, each a start time and a duration. `OtimizadorBomba.simular`
runs the day on a grid of 96 quarter-hour steps:

- it counts how many cycles cover each step (the pump indicator);
- it fills the tank level, pump power and cumulative energy cost buffers
  step by step from an initial level of 4.0;
- it records every whole hour in which the new level leaves the alarm band
  [2, 7];
- it sorts those hours, cuts them into maximal runs of consecutive hours,
  charges a run of k hours 5 * (1 + ... + k), and adds that penalty to every
  entry of the cost series.

`OtimizadorBomba.func_objetivo` decodes a flat vector into start times and
durations and simulates the schedule. It then adds quadratic penalties to the
final cost for levels outside the configured band [0.0, 9.0] and for a final
level that differs from the initial one. A failed simulation scores
`float('inf')`.

The Dafny project has these modules:

- `PenaltyEngine` (`penalty_engine.dfy`): the block penalty over sorted
  hours. It has a left-to-right specification `ListPenalty`, the
  set-level `HoursPenalty`, and the imperative `SortHours` and
  `BlockPenalty` loops, which are proved against them.
- `Series` (`series.dfy`): what one run computes, as functions.
  - The grid and the whole hour `int(t)` of a step.
  - Cycles, the pump indicator and the ON test `bomba[i] > 0.5`.
  - One step's flow split and level update.
  - The level, power and raw cost folds.
  - The set of violated hours, the uniform penalty shift, and the whole
    result `SimSpec`.
- `ObjectiveFunction` (`objective.dfy`): `func_objetivo` as a pure function
  `ObjectiveOf` over an optional simulation result.
- `Optimizer` (`optimizer.dfy`): the class `PumpOptimizer` with the
  imperative simulation on arrays. Each method is proved against the
  `Series` functions; `Simulate` returns exactly `SimSpec`.
- `Wrappers` (`wrappers.dfy`): `Option`.

The flow root, the demand curves, the electrical power formula and the
tariff interpolation are fields of a `Series.Env` value. They are arbitrary
real functions, so every property holds for any of them.

## Model

| member | source | states |
|---|---|---|
| PenaltyEngine.BlockPenalty | afterh24V2.py:104-115 | The block loop returns exactly `ListPenalty` of the hours it walks. The open block is extended when the next hour is the previous one + 1, otherwise flushed and restarted, and the last block is flushed at the end. |
| PenaltyEngine.SortHours | afterh24V2.py:103 | `sorted(horas_violadas)`: the result is strictly increasing and lists exactly the elements of the set. |
| PenaltyEngine.ListPenalty | afterh24V2.py:108-115 | The penalty of a list of hours read left to right (each hour costs 5 times its position in its run) is at least 5 per hour, and it is 0 exactly for the empty list. |
| PenaltyEngine.RunCost | afterh24V2.py:112 | The cost of a block of k hours, the sum of 5 * (i + 1) for i below k, is at least 5k, and 0 exactly for an empty block. |
| PenaltyEngine.TailRun | afterh24V2.py:109-110 | The length of the open block after a list of hours is at most the list's length, and 0 exactly for the empty list. |
| PenaltyEngine.RunCostClosedForm | afterh24V2.py:112-115 | The cost of a run of k hours, 5 * (1 + ... + k), equals 5k(k+1)/2. |
| PenaltyEngine.ConsecutiveRunPenalty | afterh24V2.py:108-115 | A list of k consecutive hours forms one run, and its penalty is 5k(k+1)/2. |
| PenaltyEngine.TailRunOfConsecutive | afterh24V2.py:109-110 | Along k consecutive hours the open block grows to length k. |
| PenaltyEngine.PenaltySplitsAtBreak | afterh24V2.py:109-113 | When the next hour is not the previous + 1, the block breaks: the penalty of the joined list is the sum of the penalties of the two parts. |
| PenaltyEngine.PenaltyJoinCostsMore | afterh24V2.py:109-110 | When the next hour is the previous + 1, the run continues, and the joined list costs strictly more than the two parts priced separately. |
| PenaltyEngine.BlockExtends | afterh24V2.py:109-110 | Appending an hour to the open block keeps the loop invariant: block length = open run length, flushed total + open block cost = specified penalty of the prefix. |
| PenaltyEngine.BlockBreaks | afterh24V2.py:111-113 | Flushing the block and restarting with the new hour keeps the same invariant. |
| PenaltyEngine.SortSet | afterh24V2.py:103 | Every finite set of hours has a strictly increasing listing of exactly its elements. |
| PenaltyEngine.SortedUnique | afterh24V2.py:103 | Two strictly increasing listings of the same set are equal, so the sorted order is unique. |
| PenaltyEngine.StrictlyIncreasingCard | afterh24V2.py:103 | A strictly increasing listing has as many entries as its set has elements. |
| PenaltyEngine.HoursPenalty | afterh24V2.py:98-115 | The penalty depends only on the set of violated hours (so not on discovery order or repeats). It is at least 5 * (number of hours), and 0 exactly when the set is empty. |
| PenaltyEngine.PenaltyOfListing | afterh24V2.py:103-115 | The loop's penalty over any sorted listing of a set equals the set's penalty. |
| PenaltyEngine.PenaltyExamples | afterh24V2.py:108-115 | The empty set costs 0, {5} costs 5, {5,6,7} costs 30 and {5,6,10} costs 20. |
| PenaltyEngine.SingleRunExample | afterh24V2.py:108-115 | A set of k consecutive hours costs exactly one run of k. |
| PenaltyEngine.TwoRunsPenalty | afterh24V2.py:108-115 | The sorted list [5, 6, 10] has runs {5,6} and {10} and costs 15 + 5 = 20. |
| PenaltyEngine.LeastOf | afterh24V2.py:103 | A non-empty set of hours has a least element. |
| PenaltyEngine.AppendLeast | afterh24V2.py:103 | Appending the least remaining hour keeps the partial listing strictly increasing and accounts for every hour. |
| Series.Grid | afterh24V2.py:61 | The grid has 96 entries, and entry i is i/4. |
| Series.GridIsArange | afterh24V2.py:61 | The grid advances like `arange(0, 24, 0.25)`: each entry is the previous one + 0.25. |
| Series.GridEnds | afterh24V2.py:61 | The grid starts at 0, and its last entry is the last one below the 24-hour horizon. |
| Series.Trunc | afterh24V2.py:98 | Python's `int(t)`: for t >= 0 the whole number n with n <= t < n + 1, and for t < 0 the one with n - 1 < t <= n (truncation toward zero). |
| Series.PyMod | afterh24V2.py:100 | Python's `t % 24` for a positive modulus: the result lies in [0, m), and a t already in [0, m) is returned unchanged. |
| Series.HourOfStep | afterh24V2.py:98 | `int(t)` at step i is i div 4, a whole hour of the day in [0, 24). |
| Series.Zip | afterh24V2.py:66 | Pairs start times with durations and stops at the shorter list. |
| Series.PumpOnIffCovered | afterh24V2.py:65-80 | The pump is ON at time t (indicator above 0.5) exactly when some cycle covers t, that is start <= t < start + duration. |
| Series.CoverCountAppend | afterh24V2.py:66-67 | The indicator adds up over the cycles: the count for a + b is the count for a plus the count for b. |
| Series.CoverCountPermutation | afterh24V2.py:66-67 | The indicator does not depend on the order of the cycles. |
| Series.CoverCount | afterh24V2.py:67 | The number of cycles covering t is at most the number of cycles. |
| Series.PumpOn | afterh24V2.py:80 | The test `bomba[i] > 0.5` on a cycle count holds exactly when the count is at least 1. |
| Series.PumpSeries | afterh24V2.py:65-67 | The indicator series has one entry per grid step. |
| Series.ScheduleOrderIrrelevant | afterh24V2.py:63-129 | Two schedules with the same cycles in any order produce the same simulation result. |
| Series.Flow | afterh24V2.py:36-46 | The flow is never negative. A positive flow is the solver's root, and a non-negative root is taken as is; a failing solver gives 0. |
| Series.TotalDemand | afterh24V2.py:78 | In the `'max'` scenario the total demand is the high variable-class curve plus the residential curve; otherwise it is the low curve plus the residential curve. |
| Series.PumpStep | afterh24V2.py:80-92 | With the pump OFF, the direct supply, the tank inflow and the power are 0. With it ON, the flow is split into direct supply = min(flow, residential demand) and the rest to the tank, and the power is that of the flow. |
| Series.NextLevel | afterh24V2.py:78-95 | The level grows by (flow - total demand) * 0.25 / 185 when ON, and falls by total demand * 0.25 / 185 when OFF. |
| Series.Levels | afterh24V2.py:69-95 | The level fold has one entry per step and is seeded with the initial level 4.0. |
| Series.Powers | afterh24V2.py:80-92 | The power series is seeded with 0 at step 0. |
| Series.RawCosts | afterh24V2.py:100 | The raw cost fold is seeded with 0 at step 0. |
| Series.LevelsStep | afterh24V2.py:72-95 | Entry i of the level fold is `NextLevel` of entry i-1 at step i's time and pump state. |
| Series.LevelsPrefix | afterh24V2.py:76-95 | The level fold is left to right: running fewer steps gives a prefix of the longer run. |
| Series.StepPrice | afterh24V2.py:100 | On the grid, the price of step i is the tariff at the step's own time, since t % 24 = t for t in [0, 24). |
| Series.StepCost | afterh24V2.py:100 | The cost of a step with zero power is 0; on the grid it is power * tariff(t) * 0.25. |
| Series.RawCostsStep | afterh24V2.py:100 | Entry i of the raw cost is entry i-1 plus power[i] * tariff(t mod 24) * 0.25. |
| Series.RawCostsPrefix | afterh24V2.py:100 | The cost fold is left to right: fewer steps give a prefix. |
| Series.PowersAt | afterh24V2.py:80-92 | Power at step i is the step's pump power from the previous level. |
| Series.OutOfAlarmBand | afterh24V2.py:97 | A level is not out of band exactly when it lies in [2, 7]. |
| Series.ViolatedHours | afterh24V2.py:74-98 | No hour is recorded exactly when every new level of steps 1 .. n-1 lies in [2, 7]. |
| Series.ViolatedHoursIff | afterh24V2.py:97-98 | An hour h is recorded exactly when, at some step 1 <= i < n, `int(t_i)` = h and the new level is below 2 or above 7. |
| Series.ViolatedHoursInDay | afterh24V2.py:98 | Every recorded hour lies in [0, 24). |
| Series.Shift | afterh24V2.py:120 | The penalty addition keeps the length of the cost series. |
| Series.ShiftKeepsDifferences | afterh24V2.py:120 | After the penalty is added, cost'[i] - cost'[j] = cost[i] - cost[j], and each entry grows by exactly the penalty. |
| Series.SimSpec | afterh24V2.py:63-129 | The time, pump, level, power and cost series of a run all have 96 entries. |
| Series.SimSpecIs | afterh24V2.py:122-129 | Proof step for `Simulate`: a result assembled from the grid, the indicator, the two folds and the shifted cost is `SimSpec`. |
| Series.SimulationSeeded | afterh24V2.py:72-120 | In a run the level starts at 4.0, and cost[0] is the penalty alone, at least 5 per recorded hour. |
| Series.NoViolationNoPenalty | afterh24V2.py:103-120 | A run whose level never leaves [2, 7] reports its raw cost series unchanged. |
| Series.NoPenaltyShift | afterh24V2.py:105-120 | An empty set of hours adds nothing to any cost entry. |
| Series.CostIncrement | afterh24V2.py:100-120 | In the reported cost, each increment is the step cost, whatever the penalty. |
| Series.ShiftedCostStep | afterh24V2.py:100-120 | The shifted raw cost grows by the step cost from i-1 to i. |
| Series.SimSpecCost | afterh24V2.py:120-126 | Proof step for the run-level lemmas: unfolds `SimSpec`, so the reported cost is the raw cost fold shifted by the penalty, and level and power are the folds. |
| Series.PumpOffStep | afterh24V2.py:88-95 | At a step where the pump is OFF, the power is 0 and the level falls by total demand * 0.25 / 185. |
| ObjectiveFunction.Decode | afterh24V2.py:136 | `x[:n]` and `x[n:]`: the two parts concatenate back to x, and the first has min(n, \|x\|) entries. |
| ObjectiveFunction.DecodeEncode | afterh24V2.py:136 | Decoding starts ++ durations at \|starts\| gives back the two lists. |
| ObjectiveFunction.SeqMin | afterh24V2.py:141 | `np.min`: an element of the series that is at most every element. |
| ObjectiveFunction.SeqMax | afterh24V2.py:142 | `np.max`: an element of the series that is at least every element. |
| ObjectiveFunction.TerminalPenalty | afterh24V2.py:149-150 | 1000 * (last level - first level)^2 is never negative, and it is 0 exactly when the final level equals the initial one. |
| ObjectiveFunction.BelowPenalty | afterh24V2.py:144-145 | The below-floor term is never negative, and it is positive exactly when some level is below 0.0. |
| ObjectiveFunction.AbovePenalty | afterh24V2.py:146-147 | The above-ceiling term is never negative, and it is positive exactly when some level is above 9.0. |
| ObjectiveFunction.ExcessPenalties | afterh24V2.py:144-147 | The below-0.0 and above-9.0 terms are never negative, and both vanish exactly when every level lies in [0.0, 9.0]. |
| ObjectiveFunction.ObjectiveOf | afterh24V2.py:135-151 | A missing result scores Worst (infinity), and only a missing one does. Otherwise the score is exactly final cost + 1000 * (0 - min)^2 if the minimum level is below 0.0 + 1000 * (max - 9)^2 if the maximum level is above 9.0 + 1000 * (last - first)^2. So the score is at least final cost + terminal penalty, with equality exactly when every level lies in [0.0, 9.0]. |
| ObjectiveFunction.SteadyRunScoresItsCost | afterh24V2.py:139-151 | A run that stays in [0.0, 9.0] and ends at its initial level scores exactly its final cost. |
| ObjectiveFunction.ScoreIncludesPenalty | afterh24V2.py:120-139 | The score is at least the final raw cost plus the block penalty. |
| Optimizer.AddPenalty | afterh24V2.py:120 | `custo += penalidade_total` on the cost buffer: the new buffer is the old one shifted by the penalty. |
| Optimizer.SeriesGrow | afterh24V2.py:76-100 | One more loop step extends the prefix on which the buffers agree with the level, power and cost folds. |
| Optimizer.PumpOptimizer.constructor | afterh24V2.py:58-61 | Keeps the scenario and the number of cycles. The grid is the constant `Grid()`. |
| Optimizer.PumpOptimizer.PumpIndicator | afterh24V2.py:65-67 | The indicator buffer, filled cycle by cycle, equals `PumpSeries` of the zipped schedule. |
| Optimizer.PumpOptimizer.AddCycle | afterh24V2.py:67 | One cycle adds 1 at every grid step it covers and leaves the others unchanged. |
| Optimizer.PumpOptimizer.Simulate | afterh24V2.py:63-129 | The imperative run returns exactly `SimSpec`: grid, indicator, level/power folds, raw cost shifted by the block penalty of the recorded hours, and scenario. |
| Optimizer.PumpOptimizer.StepLoop | afterh24V2.py:69-100 | Fresh buffers, seeded at step 0, hold the level, power and raw cost folds. The returned set is the set of violated hours. |
| Optimizer.PumpOptimizer.FillSteps | afterh24V2.py:74-100 | Steps 1..n-1 fill the buffers with the folds and collect exactly the violated hours. |
| Optimizer.PumpOptimizer.Advance | afterh24V2.py:76-100 | One loop iteration extends the prefix on which the buffers agree with the folds by step i, and the recorded set becomes the violated hours of steps 1 .. i. Entries after i are left unchanged. |
| Optimizer.ViolatedStep | afterh24V2.py:97-98 | Proof step for `Advance`: unfolds `ViolatedHours` by one step, which adds its whole hour exactly when its level leaves [2, 7]. |
| Optimizer.PumpOptimizer.Step | afterh24V2.py:77-100 | One step writes the next level, the step's power and the cumulative cost of step i. It leaves every other entry of the three buffers unchanged and reports whether the new level left [2, 7]. |
| Optimizer.PumpOptimizer.Evaluate | afterh24V2.py:135-151 | `func_objetivo`: the score of the decoded schedule's run is `ObjectiveOf` of the specified run, always finite. |

## Left out

- The demand polynomials (afterh24V2.py:48-55), the pump power formula (86-87) and the `np.interp` tariff table (30-34, 100) are the uninterpreted fields `demandHigh`, `demandLow`, `residential`, `power` and `tariff` of `Series.Env`. No property depends on their values.
- The root found by `fsolve` in `calcular_vazao` (36-46) is the field `solve` of `Series.Env`. `None` stands for a raised exception. The `max(0, Q)` and the fallback to 0 are modelled in `Series.Flow`.
- Floating-point arithmetic is not modelled: all quantities are exact reals. Because nothing can raise, `Simulate` always returns a result. The exception path of `simular` (131-133) exists only as the `None` argument of `ObjectiveOf`, which scores `Worst`.
- The `mostrar_penalizacao` flag and the diagnostic prints (117-118, 132) have no effect on the result and are left out.
- Optimizer.PumpOptimizer.constructor: the source's default arguments (`modo='max'`, `n_ciclos=3`) are not modelled, because Dafny constructors take every argument explicitly; callers pass `High` and 3 for the defaults.
- The scenario string becomes the datatype `Scenario`: `High` is `'max'`, and `Low` is every other string, as in the conditional at line 78.
- The pump indicator is kept as a count (`nat`) rather than a float array. `PumpOn` is the test `> 0.5`, which for counts means at least 1.
- `otimizar`, `differential_evolution` and the bounds construction (153-175), `plotar_resultados` (178-206) and `main` (209-224) are not part of this model: stochastic optimisation, plotting and console I/O.
