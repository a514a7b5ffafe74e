# Round-Robin scheduling engine of the process-management visualizer

This project models the scheduling core of a small web application that
animates processes moving through Ready → Running → Done under Round-Robin
scheduling, and proves what that core computes.

The engine exists twice in the application:

- the `useRoundRobin` hook (`start`, `load`, `toggle`), with a simulated clock,
  finish times and pause handling;
- the `App` component's own inline loop `simular`, with no clock and no pause,
  together with the loader `loadProcesos` that builds the process records from
  database rows.

The model has four modules:

- `Records` (`records.dfy`) holds the values and objects:
  - `Row` is one row of the process table;
  - `Rec` is the value of a process record;
  - `Proc` is the record object that both loops mutate in place: both write
    `remaining` and `executions`, and only the hook's loop writes `finish`;
  - `Snap` reads the values of a sequence of objects;
  - `Unique` states that no object appears twice.
- `Schedule` (`schedule.dfy`) is the engine on values:
  - `Slice` is the length of the next slice;
  - `Serve` is one slice applied to a record;
  - `Step` is one pass of the main loop;
  - `Run` is the whole loop;
  - `Final` is where a single record ends up.
  The lemmas about `Run` state conservation, the clock, the finish order and
  the final form of every record.
- `UseRoundRobin` (`use_round_robin.dfy`) is the hook. Its state is a class
  with the React state and refs as fields. `Start`'s loop (`Drain`, one pass
  per `ServeHead`) is proved to compute exactly `Run` from the batch's values:
  the done list holds every loaded object once, with `Run`'s values and
  finish times, and the clock ends at `Run`'s clock.
- `AppComponent` (`app.dfy`) is the component. It covers:
  - the record construction `Build` and its properties;
  - the state clears after a new file or a new catalog listing;
  - `LoadProcesos`, which allocates fresh objects;
  - `Simular`, proved against the same `Run`.
  It also holds the worked scenarios as lemmas about `Run` applied to `Build`.

Behaviour that follows the code rather than the code's own comments:

- A `prioridad` other than 0 or 1 gets a quantum-bounded slice. It is then
  finished with whatever time it has left, because only
  `prioridad === 0 && remaining > 0` sends a record back to the queue. The
  comments at frontend/src/hooks/useRoundRobin.js:59-60 and :84-85 name only
  prioridad 0 (preemptible) and 1 (non-preemptible).
- `start` runs even on an empty queue. It sets and clears `isSimulating` and
  leaves the published ready queue and running slot untouched.
- `start` does not clear the running slot before its loop.
- In the hook, `setReadyQueue(queue)` publishes the very array the loop later
  pushes to, so the published ready queue follows every requeue. `simular`
  publishes a copy (`queue.slice()`), so its published queue misses the record
  pushed back in the same pass.
- `load` resets `isPaused` but not `pausedRef`.

Pausing: each check of `pausedRef` inside `start` reads the next value of a
given sequence `polls` (false once it is used up). The waiting loops
(`AwaitResume`, `AdvanceSlice`) are modelled exactly, but `delay` takes no
time. `Start`'s contract does not mention `polls`, so no pattern of pauses
changes the outcome.

## Model

| member | source | states |
|---|---|---|
| Records.Proc.constructor | frontend/src/App.jsx:67-76 | a new record object holds exactly the given record value and has no finish time yet |
| Schedule.Slice | frontend/src/hooks/useRoundRobin.js:61-64 | the slice never exceeds the remaining time; it is either all of it or exactly one quantum; a prioridad 1 record runs all of its remaining time; only prioridad 1 can exceed the quantum; with quantum ≥ 1 a record with time left runs at least 1 |
| Schedule.Serve | frontend/src/hooks/useRoundRobin.js:80-81 | a served record keeps its identity, burst and arrival and gains one execution; a prioridad 1 record has no time left; any other loses one quantum, or all it had when that was at most one quantum; with quantum ≥ 1 a record with time left always loses some (the same two writes are App.jsx:100-101) |
| Schedule.Requeued | frontend/src/hooks/useRoundRobin.js:86 | no contract of its own: it is the condition that sends a served record back to the queue, prioridad 0 with time left (also App.jsx:103); its consequences are `RequeuedAfterServe` and `StepDisposition` |
| Schedule.RequeuedAfterServe | frontend/src/hooks/useRoundRobin.js:61-86 | seen from before its slice, a record goes back to the queue if and only if it has prioridad 0 and more than one quantum left |
| Schedule.Step | frontend/src/hooks/useRoundRobin.js:54-91 | no contract of its own beyond a non-empty queue: it is one pass of the loop (also App.jsx:90-104); its disposition is in `StepDisposition`, what it keeps in `StepKeeps`, its progress in `StepProgress` |
| Schedule.StepDisposition | frontend/src/hooks/useRoundRobin.js:78-91 | the clock advances by the slice; the served record goes to the tail of the ready queue if and only if it has prioridad 0 and time left (done list and finish times unchanged), and to the end of the done list stamped with the new clock if and only if not |
| Schedule.StepKeeps | frontend/src/hooks/useRoundRobin.js:78-91 | one pass keeps clock + outstanding work constant and the number of records constant; the clock never goes back; done list and finish times are only appended to, one finish per done record |
| Schedule.StepProgress | frontend/src/hooks/useRoundRobin.js:48-94 | with quantum ≥ 1 a pass shrinks (outstanding work, queue length) lexicographically, so the loop terminates |
| Schedule.Run | frontend/src/hooks/useRoundRobin.js:48-94 | the loop ends with an empty ready queue and every record done, earlier done records and finish times kept as a prefix, one finish time per done record, clock not decreased |
| Schedule.FinalForm | frontend/src/hooks/useRoundRobin.js:80-91 | a record keeps its identity; at the end a prioridad 0 or 1 record has no time left; any other prioridad keeps what its one quantum-bounded slice left |
| Schedule.FinalExecutions | frontend/src/hooks/useRoundRobin.js:80-87 | a preemptible record with time left runs ceil(remaining / quantum) slices; every other record runs exactly one |
| Schedule.RunConservesRecords | frontend/src/hooks/useRoundRobin.js:44-94 | the done list at the end is, as a multiset, the earlier done list plus the final form of every record that was ready: nothing is lost or duplicated |
| Schedule.RunWork | frontend/src/hooks/useRoundRobin.js:78-81 | the final clock plus the time left in the done records equals the initial clock plus all outstanding work: the clock advanced by exactly the sum of all slices |
| Schedule.RunFinishOrder | frontend/src/hooks/useRoundRobin.js:88-90 | finish times along the done list are non-decreasing and never exceed the clock; the last one is the final clock |
| Schedule.RunOutcome | frontend/src/hooks/useRoundRobin.js:86-91 | every done record is the final form of some loaded record; each with prioridad 0 or 1 has no time left |
| Schedule.RunClockIsTotalWork | frontend/src/hooks/useRoundRobin.js:78-81 | when every prioridad is 0 or 1 the final clock is the batch's total remaining time |
| UseRoundRobin.AwaitResume | frontend/src/hooks/useRoundRobin.js:50-52 | the wait makes at least one check, every check but the last saw a pause, the last saw none |
| UseRoundRobin.AdvanceSlice | frontend/src/hooks/useRoundRobin.js:66-76 | elapsed time ends at exactly runTime whatever the pauses; every step is between 1 and 20 and all but the last are 20; each check is either a step or a pause wait |
| UseRoundRobin.RoundRobin.constructor | frontend/src/hooks/useRoundRobin.js:11-18 | the initial state: empty lists, nothing running, not simulating or paused, clock 0 |
| UseRoundRobin.RoundRobin.Load | frontend/src/hooks/useRoundRobin.js:103-111 | the batch becomes the stored and published queue; done list empty, running slot empty, not simulating, not paused, clock 0; `pausedRef` untouched |
| UseRoundRobin.RoundRobin.RunHead | frontend/src/hooks/useRoundRobin.js:50-81 | the head becomes the running record, the rest is published; the record's value becomes `Serve` of its value (one more execution, the slice taken off) and the clock advances by `Slice` |
| UseRoundRobin.RoundRobin.Requeue | frontend/src/hooks/useRoundRobin.js:86-93 | the record goes to the tail of the queue, which is the published queue; the values read are the old ones plus the record's; uniqueness is kept; the running slot is emptied |
| UseRoundRobin.RoundRobin.Finish | frontend/src/hooks/useRoundRobin.js:88-93 | the record is stamped with the current clock and appended to the done list; no value changes; uniqueness and the finish stamps of the done list are kept; the running slot is emptied |
| UseRoundRobin.RoundRobin.ServeHead | frontend/src/hooks/useRoundRobin.js:48-94 | one pass is exactly `Step` on the values of queue, done list, finish stamps and clock; queue and done list together hold the same objects, each once |
| UseRoundRobin.RoundRobin.Drain | frontend/src/hooks/useRoundRobin.js:44-94 | the loop over the copied queue ends with done list, finish stamps and clock equal to `Run` from the batch's values; every object of the batch is done exactly once |
| UseRoundRobin.RoundRobin.Start | frontend/src/hooks/useRoundRobin.js:38-97 | after `start` the loaded batch is still loaded and the engine is idle and unpaused; the done list is a duplicate-free rearrangement of the batch with `Run`'s values and finish times; the clock is `Run`'s clock; the published queue and running slot are empty (untouched when the batch was empty) |
| UseRoundRobin.RoundRobin.Toggle | frontend/src/hooks/useRoundRobin.js:23-31 | when not simulating it is `Start`; otherwise it flips the pause flag, publishes it, and changes nothing else, no record object included |
| AppComponent.MakeRecord | frontend/src/App.jsx:67-76 | the record built from a row gives back that row; its burst and its remaining time are the quantum times the length of the name; it has not run and arrives at its position |
| AppComponent.Build | frontend/src/App.jsx:67-76 | one record per row |
| AppComponent.BuildRoundTrip | frontend/src/App.jsx:67-76 | each record gives back its row; its burst is the quantum times the length of its name, its arrival is its position, it has not run and its remaining time is its burst |
| AppComponent.BuildWork | frontend/src/App.jsx:72-73 | a loaded batch holds quantum × (total length of the names) of work |
| AppComponent.ScenarioRunToCompletion | frontend/src/hooks/useRoundRobin.js:61-91 | quantum 20, non-preemptible "abc": burst 60, one slice, one execution, finished at 60 |
| AppComponent.ScenarioPreemptible | frontend/src/hooks/useRoundRobin.js:61-91 | quantum 20, preemptible "abc": burst 60, three slices of 20, three executions, finished at 60 |
| AppComponent.ScenarioTwoPreemptible | frontend/src/hooks/useRoundRobin.js:61-91 | quantum 20, preemptible "a" and "bc": done as [a, b] with finish times 20 and 60 |
| AppComponent.TwoRowsExample | frontend/src/hooks/useRoundRobin.js:48-94 | quantum 20, preemptible "abc" then non-preemptible "ab": the second finishes first (at 60), the first after three executions (at 100); done order is not arrival order |
| AppComponent.App.constructor | frontend/src/App.jsx:10-17 | the initial state: no library, no database, table "cpu", quantum 200, empty listing and lists |
| AppComponent.App.InitSql | frontend/src/App.jsx:20-24 | the library is there once loading succeeds; a failure changes nothing |
| AppComponent.App.OnFileChange | frontend/src/App.jsx:27-36 | without the library nothing changes; otherwise there is a database and the listing, ready queue, running slot and done list are emptied |
| AppComponent.App.ListCatalogos | frontend/src/App.jsx:39-54 | without a database nothing changes; otherwise the listing is the query's result and ready queue, running slot and done list are emptied |
| AppComponent.App.SetTipo | frontend/src/App.jsx:123 | the table becomes the selected one |
| AppComponent.App.SetQuantum | frontend/src/App.jsx:134 | the quantum becomes the entered one |
| AppComponent.App.LoadProcesos | frontend/src/App.jsx:57-81 | without a database nothing changes; otherwise the ready queue is fresh, duplicate-free objects whose values are `Build` of the rows with the current quantum, with nothing running or done |
| AppComponent.App.TakeNext | frontend/src/App.jsx:90-101 | the head becomes the running record, the rest is published; its value becomes `Serve` of its value |
| AppComponent.App.Retire | frontend/src/App.jsx:104-106 | the record is appended to the done list with its value; uniqueness kept; running slot emptied |
| AppComponent.App.ServeNext | frontend/src/App.jsx:89-107 | one pass is exactly `Step` on the values (the clock and finish times are ghost); only the head's `remaining` and `executions` are written; queue and done list hold the same objects, each once; the published queue is the queue after the shift |
| AppComponent.App.Drain | frontend/src/App.jsx:89-107 | the loop over the copied queue ends with the done list equal to `Run`'s done list from the batch's values; every object of the batch is done exactly once; no finish time changes; ready queue and running slot end empty |
| AppComponent.App.Simular | frontend/src/App.jsx:84-108 | the done list is a duplicate-free rearrangement of the ready queue with the values `Run` computes; no record's finish time changes; ready queue and running slot end empty |

## Left out

- SQL and WASM: the library, the database file, and the queries for catalogs
  and processes (`frontend/src/hooks/useSql.js` is not part of this model).
  Their results are parameters: `InitSql(loaded)`, `ListCatalogos(listing)`
  and `LoadProcesos(rows)`.
- `delay` and `setTimeout` pacing take no time. Wall-clock duration is not
  modelled; the simulated clock is.
- Toggles made while `start` runs are not interleaved with the loop. They
  appear only as the values `polls` gives to the pause checks. That is why
  `Start` can promise `pausedRef` false at the end.
- Concurrency between the async loops, effects and user events is not
  modelled. Examples: a `load` or a second `simular` while a run is in flight,
  or effects running between passes. Each method runs to completion.
- React rendering, batching of state updates and the presentational
  components are not modelled. Setters are plain field writes, and a
  functional update `setDoneList(dl => [...dl, proc])` is an append.
  `PanelTerminados.jsx` shows `quantum * executions` as a finish time; that
  display is not engine behaviour and is not modelled.
- A quantum below 1: `Start`, `Toggle`, `Simular`, `Run` and `Final` require
  `quantum >= 1`. With 0, a preemptible record with time left would loop
  forever.
- `quantum` is a natural number. `Number(e.target.value)` can also produce
  negative, fractional or NaN values, which are not modelled.
- JavaScript numbers are modelled as unbounded integers, and `remaining` as a
  natural number: the loader never makes it negative and a slice never
  exceeds it. `nombre.length` is the length of the string as a sequence of
  characters, not UTF-16 code units.
- Aliasing inside a batch: `Load`, `Start` and `Simular` require that no
  record object appears twice in the batch. Batches built by `LoadProcesos`
  satisfy this. The source does not check it.
- The catalog listing's rows are carried as data only; nothing is proved
  about them.
- AppComponent.App.Simular: it states nothing about a clock, since the
  component keeps none. The ghost clock of `ServeNext` follows `Run`'s clock.
