# flowbber execution engine and scheduler, in Dafny

flowbber runs a declared data-collection pipeline. Sources each run in
their own process and return a dictionary; the results are merged into one
shared ordered dictionary. Aggregators then change that dictionary one
after another. Sinks each receive a copy of it in their own process. A
journal records every entity that ran, and it is saved only when no stage
raised. A `Scheduler` repeats the pipeline every `frequency` seconds. It
anchors each run on the time armed last rather than on the clock, counts
missed ticks, and stops after `samples` successful runs.

The model has seven modules:

- `Wrappers` (wrappers.dfy): `Option` and `Result`.
- `OrderedMaps` (ordered_maps.dfy): Python's `OrderedDict`.
  - It is a key order plus a map.
  - Assigning to a present key keeps that key's position; a new key goes last.
  - `update` assigns the other map's keys in that map's order.
- `Entities` (entities.dfy): `Pipeline._build_pipeline`.
  - Inputs are the declared definitions and the plugin tables of the three stages.
  - Each table maps a type name to the class name that becomes the instance's `str()`.
  - `_build_pipeline` is an imperative method proved against `FirstUnknown` and `Instance`.
- `Runs` (runs.dfy): what one `Pipeline.run` produces, as functions of what the processes and aggregators do. It also holds the lemmas about runs.
- `Pipelines` (pipeline.dfy): class `Pipeline`.
  - The fields are the built stages, `_executed` and the shared `_data`.
  - `run`, `_run_sources`, `_run_aggregators` and `_run_sinks` are methods with loops.
  - Each method is proved equal to the functions of `Runs`.
- `Schedule` (schedule.dfy): the scheduler as a state machine.
  - The state is its counters, its last armed time and the times of its pending `sched` events.
  - The lemmas about its event loop live here too.
- `Schedulers` (scheduler.dfy): class `Scheduler`.
  - Its methods update the fields in place.
  - Each method is proved equal to a step of `Schedule`.

What the processes, the aggregators and the clock do enters as data. A
`RunEnv` holds:

- each source's result dictionary, pid, exit code and duration;
- `accumulate`, which gives each aggregator's new data and duration, or says that it raised and what it left in the data;
- each sink process's pid, exit code and duration.

A `Tick` holds whether a scheduled pipeline run succeeded and the clock
reading `_sched_next` takes afterwards.

Behaviour of the code that a reader might not expect (the model follows the
code):

- `Scheduler.run` rejects only a start time earlier than the clock. A start time equal to it is accepted (scheduler.py:127).
- Sinks are joined and checked one at a time, all of them having been started (pipeline.py:302-324). When the crashed sink has reported its duration, the first sink with a non-zero exit code raises, so later sinks are never journalled and their durations are never read. A sink that dies without reporting its duration blocks the run at `sink.duration.get()` instead (see "## Left out").
- Sources follow the same pattern. All results are collected and merged into the shared data before any process is joined (pipeline.py:209-216). So when every source delivers its result, a crashed run's data still holds every source's result. A source whose process dies before delivering blocks the run at its result channel instead (see "## Left out").
- Nothing checks that entity ids are unique within a stage.
- A sample count of 0 still gives exactly one run, because the count is checked only after a run (scheduler.py:59-60).
- When a run is rejected, the journal entries collected so far are dropped. Only a run without errors reaches the journal write (pipeline.py:169-182).

## Model

| member | source | states |
|---|---|---|
| OrderedMaps.Put | lib/flowbber/pipeline.py:216 | assigning a key gives it the new value, leaves every other key's value alone, keeps a present key's position and appends a new key at the end |
| OrderedMaps.Update | lib/flowbber/pipeline.py:216 | `data.update(result)`: the other map's keys assigned one by one in its order; its properties are in `OrderedMaps.UpdateSpec` |
| OrderedMaps.UpdateSpec | lib/flowbber/pipeline.py:216 | `update` keeps the dictionary well formed; every key of the other map takes its value there, every other key keeps its own; old keys keep their order and new keys follow in the other map's order |
| Entities.Instance | lib/flowbber/pipeline.py:120-126 | an instance carries its position in the stage, the declared type and id, the declared config or an empty one, and the class name found for its type |
| Entities.FirstUnknown | lib/flowbber/pipeline.py:112-118 | the position found is the first definition whose type is not available: all earlier ones are available; with no position, all are |
| Entities.BuildStage | lib/flowbber/pipeline.py:106-138 | one stage of the build raises `Unknown(stage, type)` for the first unknown type, otherwise yields one instance per definition, in order, each built from its definition at its index |
| Entities.Build | lib/flowbber/pipeline.py:101-138 | the build fails exactly when some stage has an unknown type; the error is the first one, searching sources, then aggregators, then sinks; on success every stage is built as `BuildStage` states |
| Runs.LastWriter | lib/flowbber/pipeline.py:209-216 | the source found is the last one whose result holds the key; with none found, no result holds it |
| Runs.MergeAll | lib/flowbber/pipeline.py:209-216 | the source results merged with `update` one after another in declaration order; its properties are in `Runs.MergeGet`, `Runs.MergeKeys` and `Runs.NoStaleKeys` |
| Runs.MergeGet | lib/flowbber/pipeline.py:209-216 | merging the source results in declaration order keeps the data well formed, and each key ends with the value of the last source that returned it, or its earlier value if none did |
| Runs.MergeKeys | lib/flowbber/pipeline.py:209-216 | merging never drops or reorders a key; a key is present afterwards exactly when it was before or some source returned it |
| Runs.NoStaleKeys | lib/flowbber/pipeline.py:144-216 | after the reset and the source stage, the data holds exactly the keys the sources returned, each with the last returning source's value |
| Runs.FirstCrash | lib/flowbber/pipeline.py:218-240 | the process found is the first with a non-zero exit code: every earlier one exited with 0; with none found, all did |
| Runs.StageJournal | lib/flowbber/pipeline.py:218-233 | the entries a source or sink stage appends while joining its processes (also lines 302-317 for sinks): one per process up to and including the first crash; its properties are in `Runs.JournalStopsAtCrash` |
| Runs.StageCrash | lib/flowbber/pipeline.py:234-240 | the `RuntimeError` of the first crashed process (also lines 318-324 for sinks), with its pid, index, id and exit code; its properties are in `Runs.JournalStopsAtCrash` |
| Runs.JournalStopsAtCrash | lib/flowbber/pipeline.py:218-240 | a process stage's journal has an entry for every process joined, each with that entity's index, id, name, pid, exit code and duration; it ends with the crashed process, whose pid, index, id and exit code the error repeats; without a crash it has one entry per entity |
| Runs.Aggregate | lib/flowbber/pipeline.py:254-274 | the aggregators run serially on the shared data, an entry appended after each `accumulate` returns, stopping at the first that raises; its properties are in `Runs.AggregateShape` and `Runs.AggregateStopsAtFailure` |
| Runs.AggregateShape | lib/flowbber/pipeline.py:254-274 | aggregator entries follow declaration order with matching index, id and name; without an error there is one per aggregator; an error names the aggregator right after the last entry, which gets no entry |
| Runs.AggregateStopsAtFailure | lib/flowbber/pipeline.py:254-274 | aggregators after the one that raised never run: dropping them does not change the stage's result |
| Runs.RunSpec | lib/flowbber/pipeline.py:140-182 | one run from empty data: sources and merge, aggregators, sinks, then the journal; its properties are in `Runs.SavedJournalComplete`, `Runs.SourceCrashAbortsRun`, `Runs.AggregatorFailureAbortsRun` and `Runs.NoStaleKeys` |
| Runs.SavedJournalComplete | lib/flowbber/pipeline.py:140-182 | a run saves its journal exactly when no source crashed, no aggregator raised and no sink crashed; the saved journal has one entry per entity per stage, at its declaration index with its id |
| Runs.SourceCrashAbortsRun | lib/flowbber/pipeline.py:140-167 | a crashed source ends the run with that source's pid, index, id and exit code; the aggregators and sinks cannot change the result |
| Runs.AggregatorFailureAbortsRun | lib/flowbber/pipeline.py:140-167 | without a source crash, a raising aggregator ends the run with its index and id, keeping what it left in the data; the sinks cannot change the result |
| Pipelines.Join | lib/flowbber/pipeline.py:218-240 | joining the processes in order yields exactly the stage journal and the crash error of `Runs` |
| Pipelines.Pipeline.constructor | lib/flowbber/pipeline.py:43-50 | a new pipeline holds the built stages, has not run (`_executed` is 0) and has empty shared data |
| Pipelines.Pipeline.Create | lib/flowbber/pipeline.py:43-56 | building a pipeline fails with the first unknown type, or yields a new pipeline that has not run yet, with every stage built from its definitions |
| Pipelines.Pipeline.RunSources | lib/flowbber/pipeline.py:184-247 | called, as from `run`, once the pipeline counts as executed, it keeps the pipeline well formed; the shared data becomes the old data updated with every source result in declaration order, and the entries and the error are those of `Runs.JournalStopsAtCrash` |
| Pipelines.Pipeline.RunAggregators | lib/flowbber/pipeline.py:249-274 | called, as from `run`, once the pipeline counts as executed, it keeps the pipeline well formed; the data, entries and error are those of running the aggregators serially on the shared data |
| Pipelines.Pipeline.RunSinks | lib/flowbber/pipeline.py:276-331 | every sink receives the same data; the entries and the error are those of joining the sink processes in order |
| Pipelines.Pipeline.Run | lib/flowbber/pipeline.py:140-182 | every run, first or repeated, starts from empty shared data (a new pipeline has it, and later runs reset it); afterwards the pipeline counts as executed, and the final data and the outcome equal `Runs.RunSpec` |
| Schedule.Enter | lib/flowbber/scheduler.py:86-96 | `enter`/`enterabs` with priority 1: the event is put in time order, behind events at the same time; its properties are in `Schedule.EnterContents`, `Schedule.EnterKeepsOrder` and `Schedule.EnterIsStable` |
| Schedule.EnterContents | lib/flowbber/scheduler.py:94-96 | entering adds exactly the new event time and loses none |
| Schedule.EnterKeepsOrder | lib/flowbber/scheduler.py:94-96 | a queue ordered by time stays ordered |
| Schedule.EnterIsStable | lib/flowbber/scheduler.py:94-96 | every event queued for a time not later than the new one keeps its place in front of it (equal priority 1) |
| Schedule.Start | lib/flowbber/scheduler.py:123-148 | `run` up to its event loop: validate the start time and arm the first event; its properties are in `Schedule.StartArmsOnce` |
| Schedule.StartArmsOnce | lib/flowbber/scheduler.py:119-149 | a start time earlier than the clock is rejected with `InvalidStart` and nothing is armed; otherwise exactly one event is armed, at the start time or, without one, at the clock, never in the past, and `start` records it |
| Schedule.Next | lib/flowbber/scheduler.py:52-98 | `_sched_next`; its properties are in `Schedule.NextStopsAtSamples` and `Schedule.NextIsDriftFree` |
| Schedule.Work | lib/flowbber/scheduler.py:100-117 | `_sched_work`: the run counted, then `_sched_next` whatever the outcome; its properties are in `Schedule.WorkCountsOneRun` and `Schedule.FailureRearms` |
| Schedule.Fire | lib/flowbber/scheduler.py:149 | the event loop popping the earliest pending event and calling `_sched_work`; its properties are in `Schedule.FireKeepsInv` |
| Schedule.Loop | lib/flowbber/scheduler.py:149 | the event loop run until nothing is pending; its properties are in `Schedule.LoopCounts`, `Schedule.StopsOnlyAtCap` and `Schedule.SamplesEndLoop` |
| Schedule.FireKeepsInv | lib/flowbber/scheduler.py:100-117 | handling the pending event leaves at most one event pending, the one armed last |
| Schedule.NextStopsAtSamples | lib/flowbber/scheduler.py:58-72 | once the passed runs reach the sample count, `_sched_next` changes nothing and arms nothing |
| Schedule.NextIsDriftFree | lib/flowbber/scheduler.py:74-98 | otherwise the next event is armed one period after the last armed time, or at the clock when that is not in the future, counting one missed tick however many periods went by; nothing else changes |
| Schedule.WorkCountsOneRun | lib/flowbber/scheduler.py:100-117 | each handled event counts one run, as passed or as failed, and at most one missed tick |
| Schedule.FailureRearms | lib/flowbber/scheduler.py:100-117 | after a failed run another event is always armed unless the sample count was already met |
| Schedule.LoopCounts | lib/flowbber/scheduler.py:119-149 | across the event loop, passed plus failed grows by the number of handled events, passed by the successful ones among them; passed, failed and missed never decrease, and the loop ends early only with nothing pending |
| Schedule.NoDriftWithoutMisses | lib/flowbber/scheduler.py:74-98 | with no missed tick, the event armed after n handled events is n periods after the first: run durations never shift the schedule |
| Schedule.SamplesEndLoop | lib/flowbber/scheduler.py:58-72 | with every run succeeding, the loop handles exactly the missing samples, or one if none is missing, then leaves nothing pending |
| Schedule.StopsOnlyAtCap | lib/flowbber/scheduler.py:58-98 | the event loop is left with nothing pending only when the passed runs have reached the sample count: failed runs never stop it |
| Schedule.NoCapRunsForever | lib/flowbber/scheduler.py:58-98 | without a sample count the loop never empties its queue and handles one event per tick given |
| Schedule.SampleCapTerminates | lib/flowbber/scheduler.py:119-149 | a scheduler with sample count n whose runs all succeed runs exactly n times (once for 0), counts n passed runs and no failures, and its event loop returns; the start is rejected exactly when it is earlier than the clock |
| Schedulers.Scheduler.constructor | lib/flowbber/scheduler.py:38-48 | a new scheduler has counted nothing, armed nothing and has no pending event |
| Schedulers.Scheduler.SchedNext | lib/flowbber/scheduler.py:52-98 | the new state is one `_sched_next` step from the old, as `Schedule.NextIsDriftFree` and `Schedule.NextStopsAtSamples` describe |
| Schedulers.Scheduler.SchedWork | lib/flowbber/scheduler.py:100-117 | the new state is the old one with the run counted, followed by `_sched_next` |
| Schedulers.Scheduler.Run | lib/flowbber/scheduler.py:119-149 | a start time in the past is rejected and changes nothing; otherwise the final state and the number of handled events are those of the event loop started from the armed state |

## Left out

- Process creation, result channels and the concurrency of sources and sinks. Each process's result, pid, exit code and duration are inputs, and its merge and join order is the order the code uses.
- Pipelines.Pipeline.RunSources: every source is assumed to put a result on its channel, even one whose process then exits non-zero. A process that dies before delivering blocks `source.result.get()` forever (pipeline.py:215), before any exit code is checked; that hang is not modelled.
- Pipelines.Join: every joined source or sink process is assumed to have reported its duration for the current run. The `duration.get()` calls come after `join` and before the exit-code test (pipeline.py:227 and 311). So a process that dies without reporting, for example one killed by a signal, blocks the run there instead of raising. That hang is not modelled.
- Pipelines.Join: durations left unread on the channels of processes after a crash are not modelled either. The entities are built once and reused by every run, so a later run may read such a stale duration; the model takes each run's durations fresh from its `RunEnv`.
- The journal write: the directory, the temporary file, JSON serialisation, and the errors a failed write raises. The model's `Saved` outcome carries the journal that would be written.
- Plugin loading: the loaders are given as a table of available type names and class names.
- The `KeyError` raised for a definition without `type` or `id`: definitions always carry both.
- The entities' constructors, and the `execute` and `accumulate` bodies, which do not belong to this code: what they do is modelled by the `RunEnv` inputs.
- Logging, `setproctitle`, `timedelta` formatting and `__str__`/`__repr__`.
- The real clock and `sleep`. Times and durations are integers, not floats. Each `Tick` supplies the clock that `_sched_next` reads.
- `sched.enter(0, …)` in `_sched_next` and `run`: it is armed at that step's clock reading, although the code reads the clock again at that moment.
- The pipeline object the scheduler holds: its runs are the `ok` flags of the ticks. A run counts as failed exactly when it raises an `Exception` (scheduler.py:108).
- Schedulers.Scheduler.SchedWork: a run that ends with a `BaseException` that is not an `Exception` (`KeyboardInterrupt`, or `SystemExit` from an aggregator running in the scheduler's process) is not modelled. Such a run counts as neither passed nor failed. The `finally` still arms the next event, and the exception then leaves `sched.run()` and `Scheduler.run` with that event pending.
- Schedulers.Scheduler.Run: requires an empty event queue, which holds for a new scheduler and after every `run` that returned. The model's finite tick supply can end the event loop with an event still pending; running again from such a state is not modelled.
- Schedulers.Scheduler.Run: events are handled as soon as they are popped. Waiting until an event's time is not modelled, since only the order of events matters to the counters and to the armed times.
- The plugin loaders (`_load_plugins`), the entity base class in lib/flowbber/entities/base.py beyond its `str()` being the class name, and lib/flowbber/utils/git.py are not part of this model.
