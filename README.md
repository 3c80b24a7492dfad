# Mine haul-cycle simulation and assignment evaluation, in Dafny

This project models three parts of a surface-mine simulator:

- **The truck haul cycle of `MineSimulation`** (`src/simulation.py`).
  - Every truck runs an endless five-phase loop: travel to its assigned shovel, queue for it, load, travel to the fixed dump site, dump.
  - Each shovel is a simpy `Resource` that admits at most `max_trucks_per_shovel` trucks at a time.
  - Every phase appends a `(truck_id, event, timestamp)` record to the log.
  - `run` starts one process per truck and stops at a time horizon.
- **The two `EnvironmentalFactors` classes.** One is in `src/environmental_factors.py` (numeric road condition, rational gradient formulas). The other is in `src/equipment_config.py` (string-keyed tables, a gradient step function). The latter file also holds the `LOADER_TYPES` and `TRUCK_TYPES` catalogues.
- **`MineOptimizer.evaluate_solution`** and the fuel and idle cost reductions of `src/optimization.py`.

The simpy contract the simulation relies on is made explicit.

- `Scheduling.Scheduler` is the environment:
  - a clock, plus a queue of pending resumptions sorted by time, with ties kept in scheduling order;
  - `timeout(d)` schedules a resumption at `now + d`.
- `Resources.ShovelPool` is a resource:
  - the admitted requests (at most `capacity` of them) and a FIFO wait queue;
  - releasing a slot admits the head of the queue.
- `HaulCycle` describes one scheduler step as a pure function `Next` on a `SimState` value. That state holds the clock, the pending resumptions, the pools, where each truck process is suspended, and the log.
- `HaulCycleInvariant` proves that `Next` preserves `Inv`, which captures:
  - the clock and due-time discipline;
  - the admission rule and FIFO order of every pool;
  - the exact correspondence between suspended processes, queue entries and pool members;
  - the fact that every truck's projected log follows the five-event cycle with the correct phase durations.
- `Simulation.MineSimulation` is the imperative class:
  - its fields are the tables, the environment, the per-shovel pools, the log and the process phases;
  - every method is proved against the pure model (`Snapshot() == Next(Cfg(), old(Snapshot()))` for `Step`);
  - `Run` drives the loop until the horizon. It is proved to end in exactly the state `HaulCycleHorizon.RunFrom` computes, and to satisfy what the log then guarantees.
- `HaulCycleHorizon` defines a whole run as a value:
  - `RunTo` applies `Next` while a process is due before the horizon;
  - `RunFrom` first starts one process per truck row.
  These are functions of the tables and the horizon, so two runs of the same tables to the same horizon produce the same log.

`Optimization` models one evaluation of an individual:
- the counting loop, with its early return and its `KeyError`, as a method proved against a left-to-right specification `Check`;
- the in-place write of the assignment into the truck table (an `array<Truck>`);
- a fresh 8-hour run, whose log is `RunLogOf` of the written tables: one log, determined by the tables;
- the fuel and idle costs of that log.

Reals are exact. Distance is an arbitrary non-negative function of two locations.

## Model

| member | source | states |
|---|---|---|
| Scheduling.InsertMembers | src/simulation.py:47 | scheduling a resumption adds exactly that resumption to the pending queue and removes nothing |
| Scheduling.Insert | src/simulation.py:47 | `timeout(d)` adds exactly one entry to the queue; `InsertAt`, `InsertSorted` and `InsertMembers` state where it goes and what the queue then holds |
| Scheduling.InsertSorted | src/simulation.py:47-74 | the pending queue stays ordered by resumption time after every `timeout` |
| Scheduling.InsertAt | src/simulation.py:47 | a new resumption goes after every pending one due no later than it and before the first one due later (FIFO on ties) |
| Scheduling.InsertProcs | src/simulation.py:47 | scheduling adds one pending entry for that process and changes no other process's count |
| Scheduling.Scheduler.constructor | src/optimization.py:18 | a fresh environment: clock 0, nothing pending |
| Scheduling.Scheduler.Schedule | src/simulation.py:47 | `timeout(delay)`: the queue becomes the old queue with a resumption at `now + delay` inserted; the clock is unchanged |
| Scheduling.Scheduler.Pop | src/simulation.py:91 | the earliest resumption is removed and the clock moves forward to its time |
| Scheduling.Scheduler.AdvanceTo | src/simulation.py:91 | at the horizon, with nothing pending before it, the clock is set to it and the queue is untouched |
| Resources.Requested | src/simulation.py:53-54 | `request()` is granted exactly when fewer than `cap` trucks hold the shovel; a granted truck joins the holders, otherwise it joins the end of the wait queue |
| Resources.Released | src/simulation.py:53-59 | the holder leaves the `with` block; a waiter that is returned is the head of the queue and leaves it; when none is returned the queue is unchanged |
| Resources.ReleasedAdmits | src/simulation.py:53-59 | under the admission rule, a holder that leaves while requests wait frees a slot: the head of the queue is admitted, joins the holders and leaves the queue |
| Resources.RequestedOk | src/simulation.py:17 | a request keeps the admission rule: at most `cap` holders, and nobody waits while a slot is free |
| Resources.ReleasedOk | src/simulation.py:17 | a release keeps the admission rule |
| Resources.RequestedMembers | src/simulation.py:53-54 | after a request the requester is a holder exactly when it was admitted and a waiter exactly when it was not; nobody else moves; no duplicates |
| Resources.ReleasedMembers | src/simulation.py:53-59 | after a release the leaver is neither holder nor waiter, the admitted waiter is now a holder, nobody else moves |
| Resources.ShovelPool.constructor | src/simulation.py:16-17 | a resource of the given capacity with no holders, no waiters and no history |
| Resources.ShovelPool.Request | src/simulation.py:53-54 | the new pool state and the grant are those of `Requested`; the request is recorded, and so is its admission if granted; FIFO order (admissions then waiters equal requests) is kept |
| Resources.ShovelPool.Release | src/simulation.py:53-59 | the new pool state and the admitted waiter are those of `Released`; the admission is recorded in request order |
| HaulCycle.FindShovel | src/simulation.py:36 | the first row of the shovel table whose id is the assigned shovel |
| HaulCycle.CalculateTravelTime | src/simulation.py:22-29 | travel time in hours is non-negative and times the speed gives the distance |
| HaulCycle.ShovelLegTime | src/simulation.py:39-44 | the leg from the truck's fixed current location to its shovel, at its speed |
| HaulCycle.LoadingTime | src/simulation.py:57 | loading lasts `capacity / loading_rate / 60` hours and is non-negative |
| HaulCycle.DumpLegTime | src/simulation.py:62-67 | the leg from the shovel to the fixed dump site, at the truck's speed |
| HaulCycle.EventNameInjective | src/simulation.py:46-73 | the five event names written to the log are distinct, so a record's event tells which phase logged it |
| HaulCycle.Emit | src/simulation.py:76-82 | a definition with no contract of its own: the log gains one record of the process's truck stamped with the current time. `Simulation.MineSimulation.LogEvent` is proved to have this effect |
| HaulCycle.Suspend | src/simulation.py:47-74 | a definition with no contract of its own: `yield timeout(d)` schedules the process at `now + d` and records the phase it resumes in. `Simulation.MineSimulation.SuspendProcess` is proved to have this effect |
| HaulCycle.Start | src/simulation.py:87-88 | a definition with no contract of its own: `env.process` schedules the next truck at the current time, at the top of its loop. `HaulCycleRun.StartInv` proves that it keeps the invariant |
| HaulCycle.Next | src/simulation.py:31-74 | a definition with no contract of its own: one scheduler step, where the earliest process resumes and runs until it yields. `HaulCycleInvariant.NextInv` proves that it keeps `Inv` and appends exactly the truck's next cycle event; `Simulation.MineSimulation.Step` is proved equal to it |
| HaulCycleInvariant.GapNonNegative | src/simulation.py:47-74 | every phase duration (both legs, loading, 0.1 h dumping) is non-negative |
| HaulCycleInvariant.AppendRecord | src/simulation.py:33-74 | logging a truck's next cycle event at its due time keeps its log in cycle order and correctly spaced |
| HaulCycleInvariant.PoolDisjoint | src/simulation.py:53-54 | no truck both holds a shovel and waits for it |
| HaulCycleInvariant.NextInv | src/simulation.py:31-74 | one scheduler step keeps the invariant, sets the clock to the resumed entry's time, and appends exactly one record: the resumed truck's id, the next event of its cycle, and the clock |
| HaulCycleRun.InitialInv | src/simulation.py:8-20 | a freshly built simulation (clock 0, empty pools, empty log, no processes) satisfies the invariant |
| HaulCycleRun.StartInv | src/simulation.py:87-88 | starting one more truck process at time 0 keeps the invariant and logs nothing |
| HaulCycleRun.AdvanceInv | src/simulation.py:91 | moving the clock to the horizon, with nothing pending before it, keeps the invariant |
| HaulCycleRun.ProcessLogs | src/simulation.py:33-74 | once every truck is started, every truck's records follow the five-event cycle in order and are spaced by the phase durations (timestamps non-decreasing) |
| HaulCycleRun.Bound | src/simulation.py:74 | the record bound per truck before horizon `t` is 0 for `t <= 0` and otherwise covers more than `10t` complete five-record cycles |
| HaulCycleRun.TruckLogBound | src/simulation.py:74 | because every cycle ends with a 0.1 h dump, a truck logs at most `Bound(t)` records before `t` |
| HaulCycleRun.LogBound | src/simulation.py:84-91 | the whole log before `t` holds at most `trucks * Bound(t)` records |
| HaulCycleRun.FinalLogs | src/simulation.py:84-91 | after a run to a positive horizon, every truck's first record is `traveling_to_shovel` at time 0 |
| HaulCycleRun.FirstOfCycle | src/simulation.py:39-46 | a truck's first record is its departure towards its shovel at time 0 |
| HaulCycleRun.HoldersWithinCapacity | src/simulation.py:53-59 | the trucks between `loading` and the end of the `with` block at a shovel never exceed `max_trucks_per_shovel` |
| HaulCycleRun.CountInCycle | src/simulation.py:33-74 | in a truck's log of length n, the event at cycle position p occurs exactly `(n + 4 - p) / 5` times |
| HaulCycleRun.CycleCounts | src/simulation.py:46-74 | per truck: dumping ≤ traveling_to_dump ≤ loading ≤ queuing ≤ traveling_to_shovel ≤ dumping + 1 |
| HaulCycleHorizon.NextRunning | src/simulation.py:91 | a step taken because a process is due before the horizon keeps the run below the horizon and appends exactly one record |
| HaulCycleHorizon.RunTo | src/simulation.py:91 | `env.run(until=t)` from a state: it ends with nothing due before `t`, the invariant kept, every record of a truck of the table and below `t`, and the earlier log a prefix of the new one |
| HaulCycleHorizon.Starts | src/simulation.py:87-88 | `n` more processes are started: the phase list grows by `n`, and the log and the clock are unchanged |
| HaulCycleHorizon.StartsInv | src/simulation.py:87-88 | starting processes at time 0 with nothing logged keeps the invariant |
| HaulCycleHorizon.InitialStateOk | src/simulation.py:14-20 | the fresh state of valid tables is at time 0 with nothing pending or logged, and has an empty pool for every assigned shovel |
| HaulCycleHorizon.FreshInv | src/simulation.py:8-20 | the fresh state of valid tables satisfies the invariant |
| HaulCycleHorizon.RunFrom | src/simulation.py:84-91 | `run(t)` from a state before any process started: every truck's process is started, nothing is due before `t` at the end, and every record is below `t` |
| Simulation.MineSimulation.constructor | src/simulation.py:8-20 | one resource of capacity `max_trucks_per_shovel` per shovel id, an empty log and a fresh environment: the state is exactly `InitialState` of the tables, and it is valid |
| Simulation.MineSimulation.MakePools | src/simulation.py:15-17 | one fresh, empty, separate pool of capacity `max_trucks_per_shovel` for each shovel id of the table, and for nothing else |
| Simulation.MineSimulation.LogEvent | src/simulation.py:76-82 | `log_event` appends exactly the given record; earlier records and everything else are unchanged |
| Simulation.MineSimulation.SuspendProcess | src/simulation.py:47 | a truck's `yield timeout(d)`: it is rescheduled at `now + d` and remembers where to continue |
| Simulation.MineSimulation.AwaitAdmission | src/simulation.py:53-54 | `yield req` for a request that was not granted: the truck's phase becomes queued at its shovel, and nothing else changes; it is resumed only by a release |
| Simulation.MineSimulation.PopNext | src/simulation.py:91 | the earliest pending truck is taken and the clock moves to its time |
| Simulation.MineSimulation.RequestShovel | src/simulation.py:53-54 | the truck's request to its shovel's pool has the effect of `Requested` on that pool only |
| Simulation.MineSimulation.ReleaseShovel | src/simulation.py:53-59 | leaving the `with` block has the effect of `Released` on that pool only |
| Simulation.MineSimulation.Step | src/simulation.py:31-74 | one resumption of a truck process: the new state is `Next` of the old one; the log grows by exactly that truck's next cycle event at the resumption time |
| Simulation.MineSimulation.StartProcess | src/simulation.py:88 | `env.process(truck_process(id))`: the next truck is scheduled at the current time, at the top of its loop |
| Simulation.MineSimulation.StartAll | src/simulation.py:87-88 | the new state is `Starts` of the old one, with exactly one process per truck row; the log is still empty and the clock is 0 |
| Simulation.MineSimulation.AdvanceClock | src/simulation.py:91 | with nothing due before `t`, only the clock moves, to `t` |
| Simulation.MineSimulation.StepBefore | src/simulation.py:91 | one step of `env.run(until=t)` while a process is due before `t`: the new state is exactly `Next` of the old one, it is still below `t`, and the log has one more record |
| Simulation.MineSimulation.Simulate | src/simulation.py:91 | processes resumptions while one is due before the horizon: the final state is exactly `RunTo` of the starting state, with nothing due before the horizon left pending |
| Simulation.MineSimulation.Finish | src/simulation.py:91 | the clock ends at the horizon and nothing else changes |
| Simulation.MineSimulation.Run | src/simulation.py:84-95 | a horizon not after the clock is refused. Otherwise the final state is exactly `RunFrom` of the initial state, moved to the horizon, and that state's log is returned. In it every timestamp is in [0, horizon) and sorted, every truck's records are in cycle order and correctly spaced, each starting with `traveling_to_shovel` at 0, and no shovel is over capacity |
| Simulation.MineSimulation.HoldersBound | src/simulation.py:17 | in every valid state no shovel has more holders than its capacity |
| EnvironmentalFactors.GetWeatherFactor | src/environmental_factors.py:3-10 | the factor lies in [0.6, 1.0] and is below 1 exactly for rain and storm |
| EnvironmentalFactors.WeatherTable | src/environmental_factors.py:5-10 | clear 1.0, rain 0.8, storm 0.6, anything else 1.0 |
| EnvironmentalFactors.GetRoadConditionFactor | src/environmental_factors.py:13-17 | `max(0.3, c)`: at least 0.3 and at least c, equals one of them, equals c when c ≥ 0.3, at most 1 when c ≤ 1 |
| EnvironmentalFactors.RoadConditionMonotone | src/environmental_factors.py:13-17 | a better road condition never gives a smaller factor |
| EnvironmentalFactors.GradientDivisor | src/environmental_factors.py:23-26 | the divisor is at least 1 (never 0) and is 1 exactly on level ground |
| EnvironmentalFactors.GetGradientFactor | src/environmental_factors.py:20-26 | defined for every gradient, in (0, 1], equal to 1 exactly at gradient 0, the reciprocal of the divisor |
| EnvironmentalFactors.UphillPenalisedMore | src/environmental_factors.py:23-26 | for g > 0 the factor at g is below the factor at −g |
| EnvironmentalFactors.UphillDecreasing | src/environmental_factors.py:23-24 | uphill, a steeper gradient gives a strictly smaller factor |
| EnvironmentalFactors.DownhillIncreasing | src/environmental_factors.py:25-26 | downhill, the factor strictly increases towards level ground |
| EnvironmentalFactors.GetCombinedFactor | src/environmental_factors.py:29-35 | the product is positive, no more than the road factor, and at most 1 when the road condition is at most 1 |
| EnvironmentalFactors.CombinedNeutral | src/environmental_factors.py:29-35 | clear weather on level ground leaves only the road factor; `('clear', 1.0, 0)` gives 1 |
| EquipmentConfig.LoaderTypesPositive | src/equipment_config.py:24-109 | every loader model has positive bucket capacity, cycle time, maintenance interval and fuel use |
| EquipmentConfig.TruckTypesConsistent | src/equipment_config.py:112-193 | every truck model has positive capacity and empty weight, is slower loaded than empty, and burns more fuel loaded than empty |
| EquipmentConfig.LoaderTypeNameShared | src/equipment_config.py:53-72 | `excavator_2600` and `face_shovel_2600` carry the same model name but different specifications |
| EquipmentConfig.GetRoadConditionFactor | src/equipment_config.py:198-207 | the factor lies in [0.4, 1.0]; an unknown condition gets the `fair` factor |
| EquipmentConfig.RoadFactorOrder | src/equipment_config.py:200-206 | excellent 1.0 > good > fair > poor > very_poor 0.4 |
| EquipmentConfig.GetWeatherFactor | src/equipment_config.py:210-219 | the factor lies in [0.4, 1.0]; it is 1 exactly for clear or unknown weather |
| EquipmentConfig.WeatherFactorOrder | src/equipment_config.py:212-219 | clear 1.0 > light_rain > heavy_rain > fog > storm 0.4 |
| EquipmentConfig.GetGradientFactor | src/equipment_config.py:222-233 | the factor lies in [0.4, 1.0]; it is 1 exactly up to 2 % (so every downhill gradient), 0.4 exactly above 10 % |
| EquipmentConfig.GradientMonotone | src/equipment_config.py:222-233 | a steeper gradient never gives a larger factor |
| EquipmentConfig.GradientBands | src/equipment_config.py:226-231 | (2, 5] gives 0.85, (5, 8] gives 0.7, (8, 10] gives 0.5 |
| EquipmentConfig.WeatherTablesDisagree | src/equipment_config.py:210-219 | the two weather tables conflict: storm is 0.4 here and 0.6 in the other class; rain is 1.0 here and 0.8 there |
| Optimization.CountAssignments | src/optimization.py:46-50 | the counting loop returns exactly the verdict of `Check`: the first id without a counter, or the first count past the cap, or acceptance |
| Optimization.Check | src/optimization.py:46-50 | a definition with no contract of its own: the counting loop's verdict, computed left to right. `CheckAccepted`, `CheckOverCapacity` and `CheckUnknownOccurs` characterise it, and `CountAssignments` is proved equal to it |
| Optimization.CheckPrefix | src/optimization.py:47-50 | once a prefix is refused, later elements do not change the verdict (the early return) |
| Optimization.CheckAccepted | src/optimization.py:46-50 | an individual is accepted if and only if every id is in 1..num_shovels and no id occurs more than the cap |
| Optimization.CheckOverCapacity | src/optimization.py:46-50 | with every id in range, the infinite cost is returned if and only if some shovel id occurs more than the cap |
| Optimization.CheckNeverUnknown | src/optimization.py:46-48 | with every id in range, no `KeyError` is raised |
| Optimization.CheckUnknownOccurs | src/optimization.py:48 | a reported `KeyError` id occurs in the individual and is not in 1..num_shovels |
| Optimization.CountsSumIsLength | src/optimization.py:46-48 | with every id in range, the final counters add up to `len(individual)` |
| Optimization.Pigeonhole | src/optimization.py:46-50 | more trucks than shovels times the cap is never accepted |
| Optimization.WriteAssignment | src/optimization.py:53-54 | row i of the table gets `assigned_shovel = individual[i]`; nothing else in any row changes |
| Optimization.Assign | src/optimization.py:53-54 | writing the individual keeps the table's length; `AssignFacts` states each row's new contents |
| Optimization.AssignFacts | src/optimization.py:53-54 | the written table: row i names shovel `individual[i]`, all other fields and rows as before, and writing twice changes nothing more |
| Optimization.AcceptedWithinCap | src/optimization.py:46-54 | once an accepted individual is written, no shovel has more than the cap of its trucks assigned |
| Optimization.TravelTimes | src/optimization.py:67 | every selected timestamp belongs to a `traveling_to_shovel` or `traveling_to_dump` record |
| Optimization.TravelTimesMember | src/optimization.py:67 | every travel record's timestamp is selected |
| Optimization.FuelCost | src/optimization.py:65-75 | the fuel cost is defined (not NaN) exactly when there is a travel record and a truck row |
| Optimization.FuelCostBounds | src/optimization.py:65-75 | with timestamps in [0, t] and non-negative speeds and fuel rates, the fuel cost is between 0 and the cost of driving t hours at the mean speed and fuel rate |
| Optimization.IdleCost | src/optimization.py:77-81 | the idle cost is non-negative |
| Optimization.IdleCostFacts | src/optimization.py:77-81 | the idle cost is 0 exactly when nobody queued, is additive over log segments and only grows as the log grows |
| Optimization.RunLogTravel | src/optimization.py:57-67 | an 8-hour run logs something exactly when there are trucks, and then it logs a travel record |
| Optimization.RunLogCosts | src/optimization.py:57-75 | on such a run's log the fuel cost is defined and lies between 0 and the cost of the whole horizon |
| Optimization.RunLogOfRun | src/optimization.py:57 | the log of a fresh 8-hour run on valid tables has every property `RunLog` lists: trucks of the table, timestamps in [0, horizon) and sorted, each truck's records in cycle order and correctly spaced, starting with `traveling_to_shovel` at 0 |
| Optimization.RunFresh | src/optimization.py:57 | the returned log is `RunLogOf` of the tables, the log of `RunFrom` on a fresh simulation, so it is determined by the tables alone. It satisfies `RunLog`, it is empty exactly when there are no trucks, and otherwise it holds a travel record |
| Optimization.LogCost | src/optimization.py:59-63 | a definition with no contract of its own: fuel plus idle cost of a log, with the missing-column error for an empty log and NaN for an undefined fuel cost. `LogCostOfRun` states its value on a run's log |
| Optimization.LogCostOfRun | src/optimization.py:59-63 | on a run's log the evaluation is an error exactly when there are no trucks, and otherwise fuel cost plus idle cost |
| Optimization.SimulateCost | src/optimization.py:57-63 | the result is the evaluation of exactly `RunLogOf` of the tables: fuel cost plus idle cost, or the missing-column error when there are no trucks |
| Optimization.MineOptimizer.constructor | src/optimization.py:10-19 | the optimizer holds the cap, the shovel count and the tables it evaluates on |
| Optimization.MineOptimizer.EvaluateSolution | src/optimization.py:43-63 | the infinite cost if and only if the count passes the cap first; the `KeyError` if and only if an unknown id comes first; no write when refused. Otherwise the table is the individual written into it, and the result is fuel cost plus idle cost of `RunLogOf` of the written table, the log of an 8-hour run on it |

## Left out

- Simulation.MineSimulation.Run: simpy's event priorities are not modelled. Resumptions due exactly at the horizon are not processed, and the clock ends at the horizon. A horizon not after the clock, which simpy rejects with `ValueError`, gives `None`.
- Resources.Released: the admission of the next waiter happens in the same step as the release. simpy performs it when the release event is processed, at the same simulated time.
- Distance: the Euclidean `sqrt(Δlat² + Δlon²) * 111` of `calculate_travel_time` is replaced by an arbitrary non-negative distance function, because the model works on exact reals.
- Floating point: every quantity is an exact real, so there is no rounding, no NaN arithmetic and no infinity. NaN and `inf` results are separate `Evaluation` cases.
- Simulation.MineSimulation.constructor: it requires the entries that the table generators guarantee:
  - distinct truck ids;
  - positive speeds and loading rates;
  - non-negative capacities;
  - an existing shovel row for every assigned shovel (simpy would raise an `IndexError` at the lookup);
  - a capacity of at least 1 (simpy rejects 0).
- Table generation (`src/data_generator.py`): random draws, Faker and CSV output are left out. The tables are parameters.
- Optimization.MineOptimizer.EvaluateSolution: it requires an individual no longer than the truck table. pandas would add new rows for a longer individual, and the genetic algorithm always produces exactly one entry per truck.
- Optimization.MineOptimizer.EvaluateSolution: each evaluation runs a fresh simulation. The source reuses one `MineSimulation` and one simpy environment across evaluations, so logs accumulate and the clock stays at 8 after the first run. That state carried between evaluations is not modelled.
- The genetic algorithm (deap toolbox, `eaSimple`, crossover, mutation, selection, statistics) and the pickle output of `optimize` are left out: they are foreign libraries and file I/O.
- The dashboard (`src/dashboard.py`), every `main` function, every print and every CSV write are left out: they are UI and I/O.
- The truck fields that no core function reads (`status`, `maintenance_status`) and the shovel fields `status` and `current_queue` are not modelled.
