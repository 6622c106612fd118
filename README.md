# Batch-plant scheduler and simulator, modelled in Dafny

This project models the scheduling and simulation core of a batch
production planner. Two Python files contain the core, almost line for line:

- `car_dict_input.py` reads the plant configuration from a dictionary;
- `cli_code/main.py` holds the same configuration as static class constants.

The plant has the following parts:

- **Equipment.** Each piece of equipment has a type (reactor, dryer, packager, ...).
- **Products.** Each product has a recipe: an ordered list of steps, each
  needing one piece of equipment of a given type for a given number of hours.
- **Orders.** Each order asks for a quantity of a product, has a due day and
  a priority.
- **Changeover matrix.** It gives the setup hours between two products.

The planner works in five stages:

1. **Expand.** Each order becomes `ceil(quantity / batch_size)` batches.
2. **Order the batches.** One of three heuristics applies:
   - FIFO: higher priority first, then earlier due date;
   - EDD: due date only;
   - Critical Ratio: slack per unit of work, 999 when no work is needed.

   All three are stable sorts, and every batch starts at time 0.
3. **Simulate.** Each batch is a discrete-event process that works through
   its recipe. For each step it:
   - requests one unit from the pool of the step's equipment type, with
     priority `-order.priority`;
   - on the first step only, holds for a changeover when the type's tracked
     last product differs from its own;
   - records its product in the tracker;
   - holds for the step's duration, then releases the unit.
4. **Compute metrics** from the recorded start and end times: per-order
   completion and tardiness, total tardiness, the number of late orders, the
   makespan, utilisation per type, and per-batch details, all in days.
5. **Analyse bottlenecks.** Pick the run with the least tardiness, its most
   utilised equipment type and its two tardiest orders.

The discrete-event library (salabim) is not part of this model. Its resource
pool and its event loop are modelled explicitly:

- **Pool** (`Pool.PoolState`, `Pool.ResourcePool`). A pool has a capacity,
  the number of pieces of equipment of its type. A request is granted at
  once when a unit is free. Otherwise the requester joins a queue ordered by
  (priority ascending, arrival). A release hands the unit to the head of the
  queue.
- **Event loop** (`Machine.Run`). It resumes pending processes in
  (time, sequence number) order while the earliest one is due no later than
  the horizon, then sets the clock to the horizon.
- **Batch process** (`Machine.Resume`). Each batch process is a state
  machine: created, delayed, waiting for step k, granted step k, in
  changeover, processing step k, done. Its branches are stated by
  `ResumeStart` (created and delayed), `RequestStep` and `Acquired`
  (waiting and granted), `ResumeChangeover` (changeover) and `ReleaseStep`
  with `RequestStep` (processing). A waiting or done batch is left as it is.

The main invariants proved about the run:

- **Accounting** (`Accounting.Accounted`). The claimers of every pool are
  exactly the batches holding one of its units, and its queue holds exactly
  the batches waiting for it. So no more batches hold a type than it has
  pieces of equipment.
- **Timing** (`Timing.Timed`). Every batch's phase agrees with its recorded
  times: no pending resumption lies in the past, and a finished batch ran
  at least its total processing time. It had at most one changeover hold.

Both invariants hold from the initial state through `Run`, and the metrics
are computed from the state the run reaches.

Python dictionaries are modelled as insertion-ordered association lists
(`Dicts`), so iteration order and "last assignment wins" are explicit. Hours,
kilograms and days are exact `real`s.

Some behaviour is kept exactly as the code has it:

- **Order completion.** An order gets a completion entry as soon as ANY of
  its batches has a truthy end time (`car_dict_input.py:354`,
  `car_dict_input.py:370`). The comment at `car_dict_input.py:371` says an
  order is complete when ALL its batches are done. The model follows the
  code, and `num_batches` counts only the finished batches.
- **End time 0.** A batch whose end time is 0 is treated as unfinished.
- **Changeover tracker.** The tracker is keyed by equipment type, not by
  piece of equipment.
- **Changeover hold timing.** The hold happens while the unit is held. The
  tracker is updated after the hold.
- **Empty tracked product.** An unset or empty tracked product never causes
  a changeover.

The two source files differ only in where the plant data comes from.
`cli_code/main.py` reads the global changeover matrix, which the model
passes as `World.matrix`. Its line numbers run 14 to 15 above those of
`car_dict_input.py` for the same code: `process` is at 168-206 against
153-191, and `calculate_metrics` at 354-409 against 340-395. The rows below
cite whichever file shows the modelled behaviour most directly.

## Model

| member | source | states |
|---|---|---|
| Domain.GetTime | car_dict_input.py:72-75 | The same product gives 0; a listed pair of distinct products gives its stored hours; a non-zero result only ever comes from a listed pair of distinct products (an unlisted pair gives 0) |
| Domain.SumDurationsBounds | car_dict_input.py:47-48 | With no negative step durations, a product's total processing time is non-negative and at least each step's duration |
| Domain.SumDurationsAppend | car_dict_input.py:47-48 | The total duration of two step lists joined is the sum of their totals |
| Domain.Ceil | car_dict_input.py:236 | `ceil(x)` is the integer n with n - 1 < x <= n |
| Domain.BatchesNeeded | car_dict_input.py:236 | The batch count n satisfies n - 1 < quantity / batch_size <= n |
| Domain.BatchesCoverQuantity | car_dict_input.py:236-239 | For a positive quantity and batch size there is at least one batch, the batches cover the quantity, and one batch fewer would not |
| Domain.RangeLength | car_dict_input.py:238 | `range(n)` yields n batch numbers for n >= 0 and none otherwise |
| Domain.FindProduct | car_dict_input.py:235 | `next(...)` yields a product with the id, and no earlier product has that id |
| Domain.FindProductPrefix | car_dict_input.py:235 | Products appended after the list do not change which product `next()` finds for an id the list already has |
| Domain.FindOrder | car_dict_input.py:319 | `next(...)` yields an order with the id, and no earlier order has that id |
| Config.ChangeoverMapLastWins | car_dict_input.py:111-114 | A pair has a changeover time exactly when some entry names it, and the last entry naming it gives the time |
| Config.BuildChangeovers | car_dict_input.py:110-114 | The loop builds the last-wins changeover map, whose keys are exactly the pairs the entries name |
| Config.ParseOrder | car_dict_input.py:117-126 | An order keeps its id, product, quantity and due date, and its priority defaults to 1 |
| Config.ParsePlantData | car_dict_input.py:85-130 | Equipment and products are kept, orders parsed in order, changeovers last-wins (none when the key is absent), hours per day default 24, and the horizon is the days (default 30) times the hours per day |
| Config.StaticPlantData | cli_code/main.py:82-146 | The static plant has 4 pieces of equipment, 3 products and 6 orders, 24 hours per day and a 720-hour horizon |
| Config.StaticPlantWellFormed | cli_code/main.py:82-146 | The static plant is well formed: every order names a known product, each ordered product has a non-zero batch size, no negative duration and equipment for every step, and the day length is non-zero |
| Config.WellFormedIgnoresUnordered | car_dict_input.py:234-236 | Adding a product that no order names, whatever its batch size, durations or equipment types, leaves a configuration's well-formedness unchanged, since only ordered products are looked up |
| Sorting.SortBy | car_dict_input.py:254 | The sort returns a permutation of its input, sorted by the key |
| Sorting.SortByStable | car_dict_input.py:254 | The sort is stable: the elements sharing a key keep their input order |
| Scheduler.ExpandLength | car_dict_input.py:228-241 | Generation yields, in total, the sum over the orders of each order's batch count |
| Scheduler.ExpandBlock | car_dict_input.py:234-239 | Batch n of order i is (order i, its product, n) and comes right after all batches of the earlier orders, for every n below the order's batch count |
| Scheduler.ExpandMembers | car_dict_input.py:234-239 | Every generated batch belongs to some order and that order's product, with a batch number below the order's batch count |
| Scheduler.GenerateBatches | car_dict_input.py:228-241 | The append loop yields exactly the expansion: orders in input order, numbers 0..n-1 |
| Scheduler.AppendEntries | car_dict_input.py:257-258 | The schedule lists the sorted batches in order as (order id, product id, batch number, 0.0) |
| Scheduler.ScheduleOfPermutation | car_dict_input.py:256-258 | Any reordering of the batches gives a schedule with exactly one entry per generated batch, each starting at 0.0 |
| Scheduler.CreateScheduleFifo | car_dict_input.py:243-260 | The FIFO schedule lists the generated batches stably sorted by (-priority, due date), one entry per batch, every start 0.0 |
| Scheduler.CreateScheduleEdd | car_dict_input.py:262-279 | The EDD schedule lists the generated batches stably sorted by due date alone, one entry per batch, every start 0.0 |
| Scheduler.FifoOrdered | car_dict_input.py:253-254 | In FIFO order a higher priority comes first, then an earlier due date; batches with equal keys keep generation order |
| Scheduler.EddOrdered | car_dict_input.py:272-273 | In EDD order due dates never decrease, and batches with equal due dates keep generation order |
| Scheduler.CriticalRatio | car_dict_input.py:293-298 | The ratio is 999 when the time needed is not positive; otherwise ratio times need equals due date minus need |
| Scheduler.EmptyRecipeRatio | car_dict_input.py:294-298 | A product without steps needs no time, so its ratio is 999 |
| Scheduler.Decorate | car_dict_input.py:300 | Each batch is paired with its critical-ratio key, in generation order |
| Scheduler.UndecoratePermutation | car_dict_input.py:300 | Sorting the keyed batches and dropping the keys permutes the batches |
| Scheduler.CreateScheduleCr | car_dict_input.py:281-306 | The CR schedule lists the generated batches stably sorted by critical ratio, one entry per batch, every start 0.0 |
| Scheduler.CrOrdered | car_dict_input.py:300 | In CR order the critical ratio never decreases |
| Scheduler.CrStable | car_dict_input.py:300 | Batches with equal critical ratios keep their generation order in the CR order |
| Scheduler.WellFormedCanExpand | car_dict_input.py:235-236 | In a well-formed configuration every order's product is found and its batch size is non-zero, so batch generation raises nothing |
| Pool.InsertWaiter | car_dict_input.py:167 | Queueing a request adds exactly that waiter to the queue |
| Pool.InsertKeepsOrder | car_dict_input.py:167 | Queueing keeps the queue in service order: priority ascending, then arrival |
| Pool.EmptyPool | car_dict_input.py:220-224 | A new pool has no unit in use, an empty queue, and satisfies the pool invariant |
| Pool.PoolRequest | car_dict_input.py:167 | A request is granted exactly when a unit is free; a grant makes the batch a claimer, otherwise it is queued with the next arrival stamp |
| Pool.RequestKeepsPoolOk | car_dict_input.py:167 | A request keeps units in use within capacity and equal to the claimers, and keeps the queue ordered, distinct and empty while a unit is free |
| Pool.PoolRelease | car_dict_input.py:188 | A release by a non-claimer changes nothing; with an empty queue it frees a unit; otherwise the unit passes to the head of the queue |
| Pool.ReleaseKeepsPoolOk | car_dict_input.py:188 | A release keeps the pool invariant and the capacity |
| Pool.ReleaseServesHead | car_dict_input.py:188 | A released unit goes to the waiter ahead of every other by (priority, arrival) |
| Pool.QueuedPairOrder | car_dict_input.py:167 | Of two requests that find the pool full, the later one is served first exactly when its priority value is lower, that is, its order priority higher |
| Pool.ResourcePool.constructor | car_dict_input.py:220-224 | A new pool carries its type's name and is empty with the given capacity |
| Pool.ResourcePool.Request | car_dict_input.py:167 | The pool's new state and the grant are those of a request on its old state, and the pool invariant is kept |
| Pool.ResourcePool.Release | car_dict_input.py:188 | The pool's new state and the woken waiter are those of a release on its old state, and the pool invariant is kept |
| Machine.ChangeoverHold | cli_code/main.py:189-194 | The hold is positive exactly when the type's tracked product is set, non-empty and different, and the changeover time is positive; it is then the stored time |
| Machine.Acquired | car_dict_input.py:169-185 | After acquiring step k: on step 0 with a positive hold the batch waits out the changeover (tracker not yet updated, one more setup); otherwise it holds for the step's duration, and on step 0 the tracker records its product |
| Machine.ResumeChangeover | car_dict_input.py:179-185 | After the changeover hold the tracker records the batch's product for step 0's type, and step 0 is held for its duration; no other batch and no pool changes |
| Machine.ResumeStart | car_dict_input.py:156-160 | A created batch with a positive start delay is held for exactly that delay and nothing else changes; otherwise it records the current time as its start and requests step 0 |
| Machine.RequestStep | car_dict_input.py:162-191 | Past the last step the batch is done, with end time now and status completed; otherwise the step's pool takes a request with priority -order.priority, and the batch acquires the unit or waits for step k |
| Machine.ReleaseStep | car_dict_input.py:187-188 | The step's pool is released and nothing else changes, except that a waiting batch handed the unit is granted and resumes now |
| Machine.Earliest | car_dict_input.py:335 | There is no next event exactly when nothing is pending; otherwise no pending process comes before the one chosen in (time, sequence number) order |
| Machine.FireDecreases | car_dict_input.py:153-191 | Each resumption strictly lowers a bound on the steps the batches have left, so the event loop ends |
| Machine.Run | car_dict_input.py:335 | The run ends with the clock at the horizon and every still-pending resumption after it; the set of pools is unchanged |
| Accounting.RequestStepAccounts | car_dict_input.py:164-167 | A step's request keeps every pool's claimers and queue equal to the batches holding and waiting for its type |
| Accounting.ReleaseStepAccounts | car_dict_input.py:187-188 | A release keeps the accounting of every other batch, and the releasing batch no longer claims or waits |
| Accounting.ResumeAccounts | car_dict_input.py:153-191 | Every resumption of a batch keeps the pools' accounting |
| Accounting.FireAccounts | car_dict_input.py:335 | Resuming the next process keeps the pools' accounting |
| Accounting.RunAccounted | car_dict_input.py:335 | Running to the horizon keeps the pools' accounting |
| Accounting.HoldersWithinCapacity | car_dict_input.py:217-224 | No more batches hold a unit of a type than its pool's capacity |
| Accounting.RunCapacities | car_dict_input.py:220-224 | Pool capacities never change during a run |
| Timing.ResumeTimed | car_dict_input.py:153-191 | Resuming a batch keeps every batch's timing facts and leaves the clock where it is |
| Timing.FireTimed | car_dict_input.py:335 | Resuming the next process keeps the timing facts, and the clock never moves back |
| Timing.RunTimed | car_dict_input.py:335 | Running to a horizon not before the clock keeps the timing facts |
| Timing.CompletedBatch | car_dict_input.py:155-191 | A finished batch started at its delay (or 0), ended at least its total processing time later and no earlier than it started, and is completed |
| Timing.EndTimeOnlyWhenDone | car_dict_input.py:190-191 | A batch has an end time exactly when it has finished all its steps, and has had at most one changeover hold |
| Dicts.Get | car_dict_input.py:356-372 | `d.get(k)` is absent exactly when no pair has the key, and otherwise the value of the first pair with that key |
| Dicts.SetGet | car_dict_input.py:357-358 | Assignment keeps keys distinct, gives the key the new value and leaves every other key's value alone |
| Simulation.GroupByTypeIsOfType | car_dict_input.py:211-215 | The grouping maps every type with equipment, and only those, to its equipment in configuration order |
| Simulation.GroupEquipment | car_dict_input.py:211-215 | The grouping loop builds exactly that grouping |
| Simulation.TypeOrderSpec | car_dict_input.py:211-219 | The pools are iterated with each type once, and exactly the types with equipment |
| Simulation.TypeOrderFirstSeen | car_dict_input.py:211-219 | The pools are iterated in first-occurrence order: a piece of every earlier-listed type comes before any piece of a later-listed one |
| Simulation.InitialPools | car_dict_input.py:217-224 | There is one pool per type with equipment, empty, with capacity the number of pieces of that type |
| Simulation.CreatePools | car_dict_input.py:218-224 | The pools are fresh, distinct, named after their types and empty, each with capacity the number of pieces of its type |
| Simulation.SetupSimulation | car_dict_input.py:204-226 | The tracker is reset to empty and the pools are those of the equipment |
| Simulation.SpecOf | car_dict_input.py:319-330 | A schedule entry's batch gets an order and a product with the entry's ids, both from the plant, and a start delay equal to the entry's start time |
| Simulation.InitialSim | car_dict_input.py:140-151 | At the start every batch is created with no times and no setups, pending at time 0 in creation order, the clock at 0 and the tracker empty |
| Simulation.InitialInvariants | car_dict_input.py:314-332 | The initial state is well formed, accounted for and, with no negative durations, timed |
| Simulation.CreateBatches | car_dict_input.py:318-332 | There is one batch per schedule entry, in order, with the entry's order, product, start delay and batch id parts |
| Simulation.RunKeeps | car_dict_input.py:335 | A run keeps the accounting, no type is held beyond its capacity, and the timing facts are kept |
| Simulation.RunFromInitial | car_dict_input.py:314-335 | After the run no type is held by more batches than it has pieces of equipment, and with no negative durations every batch's timing facts hold |
| Simulation.NegativeHorizon | car_dict_input.py:335 | A horizon before time 0 resumes no batch |
| Simulation.WellFormedSchedule | car_dict_input.py:308-324 | Every entry of a schedule of the generated batches of a well-formed configuration names a known order and product, has equipment for each step and no negative duration |
| Simulation.RunSchedule | car_dict_input.py:308-335 | Setup, batch creation and the run: the state at the horizon is the run of the initial state |
| Metrics.CompletionsSpec | car_dict_input.py:352-358 | An order has a completions entry exactly when one of its batches has a truthy end time, and the entry lists those end times in batch order |
| Metrics.EndsOfMembers | car_dict_input.py:354-358 | An order's list of end times is non-empty exactly when some batch of that order has a truthy end time |
| Metrics.DetailsSpec | car_dict_input.py:354-366 | The batch details are those of the batches with a truthy end time, all of them, and no others |
| Metrics.Tardiness | car_dict_input.py:373 | Tardiness is never negative, is 0 or completion minus due, and is positive exactly when completion is after due |
| Metrics.MaxOf | car_dict_input.py:372 | `max` yields a member no smaller than any other |
| Metrics.MakespanIsMax | car_dict_input.py:386 | The makespan is the largest completion day of the orders with an entry, or 0 when no order has one |
| Metrics.TardinessTotals | cli_code/main.py:396-398 | Total tardiness is never negative, the late orders are at most the orders, and there are no late orders exactly when the total tardiness is 0 |
| Metrics.OrderEntries | car_dict_input.py:369-380 | The entry for an order id is the one computed for the last order with that id, and an id without a finished batch gets none |
| Metrics.OrderKeysFromCompletions | car_dict_input.py:370 | Only orders with a finished batch get an entry |
| Metrics.UtilizationAtZero | car_dict_input.py:389-390 | No utilisation is recorded while the clock is at or before 0 |
| Metrics.UtilizationSpec | cli_code/main.py:403-407 | Past time 0 every pool's type has an entry, its occupancy as a percentage, and no other key has one |
| Metrics.CalculateMetrics | car_dict_input.py:340-395 | The three loops compute the completions, the per-order totals and the utilisation of the batches' records |
| Metrics.FinishedRecords | car_dict_input.py:354-365 | In a timed state, a batch with a truthy end time has finished all its steps and has a start time (so the detail never divides an unset time), and it ran at least its total processing time |
| Metrics.FinalRecordsSpec | car_dict_input.py:318-335 | After the run, record k belongs to schedule entry k, and a finished record started at or after 0 and lasted at least its product's processing time |
| Metrics.SimulateSchedule | car_dict_input.py:308-338 | The simulation returns the metrics of the records at the horizon |
| Metrics.ScheduleSimulatable | car_dict_input.py:308-338 | A schedule of the generated batches of a well-formed configuration meets every requirement of `simulate_schedule` once the pool occupancies are given |
| Metrics.SimulatedDetails | car_dict_input.py:360-366 | Every reported batch detail belongs to a scheduled batch, starts at or after day 0, ends no earlier than it starts, and lasts at least the product's processing time |
| Metrics.SimulatedTotals | car_dict_input.py:368-393 | The reported totals hold the tardiness facts above; the makespan bounds every reported completion day; utilisation is recorded for every pool type exactly when the horizon is past 0 |
| Metrics.LastWithId | car_dict_input.py:375-386 | Whichever order an id's entry came from, its completion day is within the makespan |
| Bottleneck.BestIndex | car_dict_input.py:641-643 | The best run has the least total tardiness, and every earlier run has strictly more |
| Bottleneck.Peak | car_dict_input.py:645-652 | The peak is never negative and at least every utilisation; there is no equipment exactly when no utilisation is positive; otherwise the equipment is the first type reaching the peak |
| Bottleneck.MostUtilized | car_dict_input.py:645-652 | The loop computes that peak and its equipment type |
| Bottleneck.TopSpec | car_dict_input.py:656-663 | At most two completion entries are taken, distinct entries of the completions (a sub-multiset); no entry left out is tardier than one taken; the first taken is at least as tardy as the second |
| Bottleneck.ParseIds | car_dict_input.py:663 | The ids parse exactly when each is a decimal number, and then each parses to its value |
| Bottleneck.DecimalValueShow | car_dict_input.py:663 | Parsing an order id written from a natural number gives that number back |
| Bottleneck.HeuristicSchedule | car_dict_input.py:512-516 | Each heuristic's schedule lists the generated batches of a well-formed configuration, one entry per batch, every start 0.0 |
| Bottleneck.RunHeuristic | car_dict_input.py:526-530 | One heuristic's schedule can be simulated, and its name is paired with the metrics of that simulation |
| Bottleneck.CompareHeuristics | car_dict_input.py:509-530 | For a well-formed configuration `main` collects three results, named FIFO, EDD and Critical Ratio, each the metrics of that heuristic's simulated schedule, so the analysis always gets a non-empty list |
| Bottleneck.AnalyzeBottlenecks | car_dict_input.py:639-669 | The analysis reports the peak equipment type of the best run, its utilisation divided by 100 and that run's constraining orders; it fails exactly when an id taken is not a number |
| Bottleneck.AnalysisSpec | cli_code/main.py:584-614 | The best run has the least tardiness; it has no bottleneck equipment exactly when no utilisation is positive; the constraining orders are at most two ids, taken from distinct completion entries in descending tardiness, each of an order no less tardy than any order left out |

## Left out

- **salabim.** The library is not part of this model. Its `Resource` and its
  event loop are modelled as described above, from the behaviour the
  batches rely on:
  - a free unit is granted at once;
  - waiters are served by (priority, arrival);
  - events are processed in (time, creation sequence) order, including
    those due exactly at the horizon.

  The zero-time rescheduling a real grant may involve is not modelled.
- **Batch processes as values.** `BatchProcess` objects are modelled as
  values inside the simulation state (`Machine.Proc`), and their in-place
  field updates as functional updates of that state. The `ResourcePool`
  objects created at setup are read into values (`PoolsOf`) before the run.
  Aliasing between processes therefore does not arise in the model.
- **Pool objects during the run.** The class `Pool.ResourcePool` stands only
  for the creation of the pools. The run's requests and releases act on the
  pool values (`Pool.PoolRequest`, `Pool.PoolRelease`).
  `ResourcePool.Request` and `ResourcePool.Release` perform the same
  operations on an object, but the run does not call them. So in-place
  updates of the shared pool objects, and their aliasing between the
  batches, are not captured.
- Pool.ResourcePool.Request: requires that the requester neither holds nor
  waits for a unit of the pool, as every batch does when it requests. A
  salabim component that claims several units of one resource is not
  modelled.
- **Occupancy.** `resource.occupancy.mean()` is a time-weighted monitor
  inside salabim. It is an input map (`occupancy`) to the metrics.
- Metrics.UtilizationSpec: utilisation is the exact percentage, not the string
  `"%.1f%%"`, so the rounding to one decimal is not modelled.
- Bottleneck.MostUtilized: compares exact utilisations rather than values
  re-parsed from the one-decimal strings, so two types that differ only after
  the first decimal are not treated as tied.
- Bottleneck.AnalyzeBottlenecks: reports the peak divided by 100 without
  `round(..., 2)`.
- Bottleneck.ParseIds: accepts only plain ASCII decimal digits. Python's
  `int` also accepts the following, and those ids are treated as errors:
  - signs;
  - surrounding whitespace;
  - underscores;
  - non-ASCII Unicode decimal digits.

  A non-numeric order id in the analysis is modelled as a `None` result.
- **Python exceptions become preconditions** (`Scheduler.CanExpand`,
  `Simulation.Resolvable`, `Simulation.Equipped`, `Metrics.Simulatable`, a
  non-empty result list). The exceptions covered are:
  - `next()` on a missing product or order;
  - a `KeyError` on an equipment type without equipment;
  - division by a zero batch size, or by a zero day length in
    `critical_ratio`;
  - `min` over no results.

  `Config.WellFormed` gathers the conditions on a configuration. It checks
  only the products that some order names, because the code never looks up
  any other (`Config.WellFormedIgnoresUnordered`). For a
  well-formed configuration, each heuristic's schedule meets these
  preconditions (`Scheduler.WellFormedCanExpand`,
  `Simulation.WellFormedSchedule`, `Metrics.ScheduleSimulatable`,
  `Bottleneck.CompareHeuristics`).
- Config.WellFormed: requires equipment for every step of every ordered
  product. The code looks a step's pool up only when a batch reaches that
  step (car_dict_input.py:162-164), so a configuration whose unequipped step
  no batch reaches before the horizon is excluded. Its non-zero day length
  is needed only by `critical_ratio`, as the next line explains.
- Metrics.Simulatable: requires a non-zero day length, which is stronger
  than the code needs. With `hours_per_day` 0, the horizon
  (car_dict_input.py:130) is 0, no end time is truthy
  (car_dict_input.py:354), and `calculate_metrics` divides by nothing.
  Only `critical_ratio` (car_dict_input.py:294) would divide by zero.
- Machine.Run: a horizon before the current clock (a negative simulation
  time) ends the run with the clock set to that horizon, as
  `Simulation.NegativeHorizon` records. What salabim does with a `till` in
  the past is not modelled.
- Metrics.SimulateSchedule: requires that no scheduled step has a negative
  duration. salabim's handling of a negative hold is not modelled.
- **Batch id.** The `batch_id` string `B{idx:03d}-O{order}-P{product}-{n}`
  is kept as its parts (`Simulation.BatchId`), not formatted.
- **Sort algorithm.** Python's Timsort is modelled by a stable insertion
  sort. Only the result matters: a stable sort's result is unique.
- **Outside the core:**
  - console printing and the JSON dump in `main()`;
  - `create_default_config` and `example_custom_config`;
  - the web front end (`app.py`) and the chat client (`llm_gy.py`);

  These are I/O or data fixtures. The static data of `cli_code/main.py` is
  modelled (`Config.StaticPlantData`).
- **Floating point.** Hours, kilograms and days are exact rationals, so
  float rounding is not modelled.
