# Skene: a verified model of the workflow engine

Skene runs workflows as event-sourced replays. A run is an append-only log of events. A worker loads
the log, replays the workflow over it, appends the new events under an optimistic sequence check and
inserts the jobs that move the run on. This project models the replay engine, the construction of the
step graph, the event stores, the runner's protocol and the log projections, and proves what they are
meant to guarantee: over every interleaving of goroutines, over every run of the protocol with crashes
and redelivered jobs, and for user code about which nothing is assumed unless a theorem says so.

`dafny verify dfyconfig.toml` checks the whole project.

## How it is modelled

- **User code** (`Definitions`) is a strategy: a function from the workflow input and the replies so
  far to the next call on the engine (return, fail, pause, read an output, wait for a signal, record a
  child event, or ask anything of the outside world). A body may therefore run for ever and branch on
  every reply; no termination is assumed outside `Termination` and `Agreement`.
- **A replay** (`Engine`) is a function of the log and of an environment that decides everything else:
  for each wave a sequence of ticks that lets one goroutine take one atomic move or cancels the
  context. A schedule that ends too early is a process that died. Theorems quantify over all
  environments. `Replayers.Replayer` is the replayer with its mutable fields and loops, proved to
  compute this function; `Histories.History` is its index, proved equal to scanning the log.
- **A run of the protocol** (`Protocol`) is a list of actions: start a workflow, pick up a job and load
  the log, begin a signal or a cancel, commit any operation in flight, crash, redeliver a job.
  `After(registry, actions)` is the state reached; theorems hold for every list of actions. The class
  `RunnerService.Runner` performs the same actions on a `MemoryStore.Store`, through the `Replayer`.
- **The stores** are specified by appending events in turn with rollback (`EventLogs`); the memory
  store and the table with two unique keys are proved against that one specification.

Reading order: `Events`, `Store`, `PgStore`, `History`, `Engine`, `Executions`, `Replays`, `Decisions`,
`Signals`, `Outcomes`, `Settling`, `Meaning`, `Agreement`, `Provenance`, `Ordering`, `Termination`, `Schedules`,
`Define`, `Replayer`, `Runner`, `Growth`, `Safety`, `Wakeups`, `LostWakeups`, `Completion`, `Effects`, `Resumes`,
`RunnerService`, `ChildIds`, `MapRuns`, `MapTraces`, `MapReplays`, `Projections`.

## Where the code does less than it seems to promise

- A step named `""` is never indexed (workflow/history.go:92), so its results are not found again and
  each resumed replay executes it once more: `Settling.UnnamedStepSettlesAgain` and, as a run of the
  protocol, `Resumes.UnnamedStepCompletesTwice`. Effectively-once recording
  (`Safety.StepsSettleAtMostOnce`) is proved for every other plain step whose name no branch's case step
  carries.
- A branch's events carry the name of the chosen case's step, while skipping looks up the branch's own
  name (workflow/replay.go:529 and 274-277). So a recorded branch is executed again on resume:
  `Resumes.BranchExecutesTwice`. Its choice cannot change: `Safety.BranchChoicesStand`.
- A step that returns the exported waiting sentinel without having waited for a signal ends the job
  with nothing scheduled: `LostWakeups.PauseAloneLosesTheRun`. `LostWakeups.NoLostWakeupIff` gives the
  exact condition over whole runs, for any user code: no commit of a replay that waits and names no
  signal, while no other job stands ready. User code that pauses only on signals meets it:
  `Wakeups.NoLostWakeup`.
- `MapWithOptions` dereferences a missing error when every failing goroutine left none behind: it was
  cancelled, or its item has no JSON form, or its child's output has none or does not decode as the
  result type. `MapRuns.CanPanicIff` and `MapRuns.CanPanicUncancelledIff` say exactly which calls can
  panic, with and without a caller that cancels; `MapRuns.CancelledCallPanics` and
  `MapRuns.UnreadableOutputPanics` are two calls with one item.
- A child of a map call that ends waiting or suspended is recorded as completed without output:
  `MapRuns.UnfinishedChildCountsAsDone`.
- A batch with both a wrong sequence number and a repeated ID is refused by both stores. The memory
  store reports the first bad event, the table reports numbers before IDs, so the errors differ when the
  repeated ID comes first (`PgStore.Table.AppendBatchInTx`).
- The step counts are proved exact when no step has two different attempts open, no step name holds a
  colon and attempts are below 80. `Tallies.TwoOpenMayMiscount` and
  `Tallies.ColonNameMayLoseACompletion` are event lists whose counts depend on the order in which a map
  is searched; `Projections.CompletionCountedIff` says when a completion is counted in every order.

## Model

| member | source | states |
|---|---|---|
| `MemoryStore.Store.Append` | event/memory/store.go:31-70 | appending one event has the specified result and new contents; a repeated ID is reported before a wrong number; logs stay gapless and IDs unique |
| `MemoryStore.Store.AppendBatch` | event/memory/store.go:75-132 | the one-pass check with running counters and the commit pass do what appending each event in turn with rollback does: same first error, same contents, nothing changed on error |
| `MemoryStore.Store.LoadSince` | event/memory/store.go:153-173 | slicing at the clamped bound gives exactly the events numbered above it, for every integer bound |
| `MemoryStore.Store.GetLastSequence` | event/memory/store.go:177-182 | the length of the log is its greatest sequence number |
| `EventLogs.AppendedIffAcceptable` | event/memory/store.go:75-132 | a batch is accepted iff its IDs are new and distinct and each number is the one due after the run's log and the run's earlier events in the batch |
| `EventLogs.BatchKeepsSound` | event/memory/store.go:40-70 | every batch, of any mixture of runs, keeps all logs gapless and all IDs globally unique |
| `EventLogs.AcceptedMeansUnchanged` | event/memory/store.go:54-63 | events numbered after a loaded snapshot are accepted only if the log still is that snapshot |
| `EventLogs.UnchangedIsAccepted` | event/memory/store.go:54-63 | and they are accepted if it is and their IDs are new |
| `PgStore.Table.AppendBatchInTx` | event/pgstore/store.go:67-132 | grouping by run in any map order, checking numbers per run and inserting under two unique keys accepts exactly the batches the memory store accepts, with the same logs; says which error each refused batch gets |
| `PgStore.SelectionIsSince` | event/pgstore/store.go:162-194 | any ordered selection of the rows of a run above a bound is the memory store's answer |
| `PgStore.Table.GetLastSequence` | event/pgstore/store.go:197-208 | the maximum over the run's rows, zero if there are none |
| `Histories.History.constructor` | workflow/history.go:54-163 | after the index loop every index equals a scan of the log for the last matching event |
| `Histories.History.IndexStep` | workflow/history.go:72-163 | indexing a longer log is extending the index by one event |
| `Histories.History.RecordBranchChoice` | workflow/history.go:285-287 | the branch index becomes that of the history and the new events together |
| `Histories.MirrorsUnique` | workflow/history.go:72-163 | an index that agrees with the log is determined by it, however it was built up |
| `Histories.OutputMapMirrors` | workflow/history.go:92-96 | folding completions into a map of outputs is looking up each step's last output |
| `Queries.LastSequenceIsLength` | workflow/history.go:245-247 | on a log a store produced the last sequence is the number of events |
| `Replayers.Replayer.Replay` | workflow/replay.go:245-393 | the replayer's loops and fields compute the replay function: same result, same events, consecutively numbered |
| `Replayers.Replayer.Turn` | workflow/replay.go:299-383 | one turn of the wave loop is the specified turn, on every way out |
| `Replayers.Replayer.ExecuteParallel` | workflow/replay.go:447-478 | a wave of goroutines under any schedule is the specified wave |
| `Replayers.Replayer.FindReadySteps` | workflow/replay.go:403-438 | the loop and the sort compute the ready steps |
| `Ordering.ReadySorted` | workflow/replay.go:430-438 | the ready steps are in the order of their names |
| `Ordering.BeforeIsLexicographic` | workflow/replay.go:430-438 | that order is the dictionary order: a proper prefix first, else the first difference decides |
| `Ordering.ReplayOrderFree` | workflow/define.go:193-251 | what the sort is for: the order in which Define lists the steps changes nothing in a replay, event for event; only the text of a failure found on record depends on it |
| `Replayers.Replayer.WorkStep` | workflow/replay.go:536-657 | one call of a step's code, with its events, retries, caching and outcome, is the specified move, whose attempts `Executions` bounds from both sides and whose results `Provenance` ties to the code |
| `Replayers.Replayer.CollectResults` | workflow/replay.go:320-376 | the loop over the results gives the specified turn: events in task order, and the result and final output that `Outcomes` tells from the goroutines' endings and the events |
| `Replayers.Replayer.EmitEvent` | workflow/replay.go:781-795 | new events are numbered consecutively after the history and the next number follows |
| `Replayers.Replayer.RecordBranchEvaluated` | workflow/replay.go:849-863 | the choice enters the events and the index together |
| `Replayers.Replayer.WaitForSignal` | workflow/signal.go:57-84 | the method gives the specified reply and shared state, which `Signals.WaitReplies`, `Signals.WaitDelivers` and `Signals.WaitTimesOut` tell from the log |
| `Replayers.Replayer.AddWaitingSignal` | workflow/replay.go:959-974 | a signal is listed once |
| `Engine.ReadyMember` | workflow/replay.go:403-438 | a step is ready iff it is not done, has not failed for good and all its dependencies are done |
| `Executions.AdvanceKeepsGrammar` | workflow/replay.go:536-657 | every move keeps a goroutine's events within the grammar: retried attempts counted up from 1, then one started attempt that completed, failed for good or waits, or nothing; and an execution fails for good only at its last attempt |
| `Executions.RunKeepsTasks` | workflow/replay.go:447-478 | so do whole waves under every schedule and cancellation |
| `Executions.ReadyDistinct` | workflow/replay.go:403-438 | no step is ready twice in a wave |
| `Replays.ReadyEmptyIffAllDone` | workflow/replay.go:403-438 | progress: with no fatal error recorded nothing is ready exactly when every step is done |
| `Replays.ReplayExecutesOnce` | workflow/replay.go:299-383 | a replay executes a step at most once and never one whose output was recorded; its events form one execution; a completed replay leaves no step undone |
| `Replays.SuccessIsEmitted` | workflow/replay.go:335-376 | an execution that succeeds leaves its step.completed in the events of its turn, even when a sibling fails, waits or is cancelled and the replay ends there |
| `Replays.SuccessIsReturned` | workflow/replay.go:245-393 | and in the events the whole replay returns |
| `Outcomes.FinalIsLastCompletion` | workflow/replay.go:351-390 | a completed replay of an open run ends with workflow.completed, and records and returns there the output of the last step.completed among its events, none if there is none |
| `Outcomes.TurnEndsAs` | workflow/replay.go:320-376 | a turn waits iff a goroutine waits, whatever the others did; else fails iff one broke, with the complaint of the first in name order; else goes on |
| `Outcomes.ReplayBegins` | workflow/replay.go:245-297 | from the log's payloads: which replays run no wave, what they return, which recorded final failure is reported, and when workflow.started is emitted |
| `Outcomes.FailsFast` | workflow/replay.go:447-478 | from the moment a goroutine of a wave is done without success no goroutine of it starts another attempt |
| `Outcomes.ChildEventsAreEmitted` | workflow/replay.go:866-955 | whatever a child workflow or map call records during a wave is among the turn's events |
| `Outcomes.WaitsAreRecorded` | workflow/signal.go:57-84 | a wait for an unsettled signal is on the list at the end of the wave, and the first one is recorded with its deadline |
| `Replays.WavesAtMostHeight` | workflow/replay.go:299-383 | a replay runs at most as many waves as the longest dependency chain has steps |
| `Termination.AdvanceSpends` | workflow/replay.go:536-657 | every move uses up some of a budget fixed by MaxAttempts and the length of the step's code |
| `Termination.ReplayEnds` | workflow/replay.go:536-657 | if each step's code ends, the replay ends under every schedule that lets goroutines move, whatever fails, waits, retries or is cancelled |
| `Schedules.EveryTotalRunCanComplete` | workflow/replay.go:272-378 | resuming works: from any agreeing partial history some real schedule takes a total deterministic workflow to completion with the outputs of sequential evaluation |
| `Schedules.EveryReplayCanEnd` | workflow/replay.go:299-383 | from any log, and whatever its steps do, a replay of steps whose code ends can be run to one of its results |
| `Decisions.ReplayKinds` | workflow/replay.go:245-393 | which events a replay may emit, and which one, last, with which result |
| `Decisions.BranchesDecidedOnce` | workflow/replay.go:509-534 | a recorded choice is never evaluated again, an unrecorded one at most once, and every event of the branch carries it |
| `Provenance.ResultsComeFromCode` | workflow/branch.go:94-113 | every step event is of a step of the definition, for a branch of the case its choice names if there is one, else of the default; every recorded output and error is what that code returned |
| `Provenance.ChoicesAreSelected` | workflow/replay.go:509-534 | a recorded choice was made by the branch's selector on outputs that are on record or of this replay, those of all plain dependencies among them |
| `Signals.WaitsAreListed` | workflow/signal.go:57-84 | every signal a waiting replay names is awaited in log or new events and settled by nothing, for any user code |
| `Signals.WaitingNamesSignals` | workflow/replay.go:359-366 | with user code that pauses only on signals, a replay that ends waiting names at least one |
| `Signals.WaitReplies` | workflow/signal.go:57-84 | what WaitForSignal answers and changes, by the last message, timeout and wait for the signal in the log |
| `Signals.WaitDelivers` | workflow/signal.go:64-67 | the last message received is the one delivered, and nothing else changes |
| `Signals.WaitTimesOut` | workflow/signal.go:66-71 | the answer is a timeout iff the log holds one for the signal and no message |
| `Signals.ListedOnce` | workflow/replay.go:959-974 | the waiting list never names a signal twice and keeps the deadline first listed |
| `Settling.ExecutionSettlesOnce` | workflow/replay.go:577-643 | an execution settles its step once if it succeeds or fails for good, else not at all |
| `Settling.StepSettlesOnce` | workflow/replay.go:272-293 | a replay never adds a completion or a final failure of a plain step to a log that has one |
| `Settling.UnnamedStepSettlesAgain` | workflow/history.go:91-105 | a step without a name completes again in every completing replay |
| `Resumes.OverlookedRunsAgain` | workflow/replay.go:272-293 | the full log of a run, suspended and resumed, whose step's completion is not found under its own name: the step is executed twice |
| `Resumes.UnnamedStepCompletesTwice` | workflow/history.go:91-105 | a reachable log in which a plain step completed twice |
| `Resumes.BranchExecutesTwice` | workflow/replay.go:529-534 | a reachable log in which a branch, evaluated once, executed its case twice |
| `Meaning.EvaluateIsEvaluation` | workflow/replay.go:728-745 | folding over the steps in order satisfies the equations of sequential evaluation |
| `Meaning.EvaluationUnique` | workflow/define.go:181-188 | those equations have one solution, whichever topological order lists the steps |
| `Meaning.EvaluationOrderFree` | workflow/define.go:193-251 | sequential evaluation does not depend on the order the sort happened to pick |
| `Agreement.ReplayAgrees` | workflow/replay.go:447-478 | under every interleaving, and however the replay ends, each output it records is the one sequential evaluation gives |
| `Agreement.ParallelEqualsSequential` | workflow/replay.go:272-378 | from any agreeing partial history, under any fair interleaving, the replay ends completed and every step's output, recorded before or now, is that of sequential evaluation |
| `Agreement.ReplayEvaluates` | workflow/replay.go:272-378 | the same for the sequential fold: the outputs are those of evaluating the steps one after the other |
| `Graphs.OrderMeansAcyclic` | workflow/define.go:193-251 | a topological order excludes every cycle |
| `Graphs.StuckHasCycle` | workflow/define.go:243-248 | names that each depend on another of them contain a cycle |
| `Defining.TopologicalSort` | workflow/define.go:193-251 | for every order of the start queue and with repeated dependencies: it succeeds iff the graph is acyclic, the order is a permutation with dependencies first, and what is left over on error is stuck |
| `Defining.ReleaseDependents` | workflow/define.go:224-240 | lowering the counts of the dependents queues each name once, when its last dependency is processed |
| `Defining.Define` | workflow/define.go:117-189 | which lists of steps are accepted, exactly; the definition returned is the same steps with dependencies first, at version "1"; each refusal names its cause: a name that occurs twice, a step and its unknown dependency, or stuck names |
| `Completion.NumberedIsAccepted` | workflow/replay.go:781-795 | a batch numbered from the last sequence with fresh IDs is accepted, and extends its run's log by just its events |
| `RunnerService.Runner.StartWorkflowTx` | river/runner.go:221-294 | event and job together or neither, as the protocol's action says |
| `RunnerService.Runner.WorkWorkflow` | river/workers.go:23-138 | load index, replay, append, then follow-up jobs: the worker's commit of the protocol |
| `RunnerService.Runner.AppendReplay` | river/workers.go:90-113 | the replay's events and workflow.failed at the next number, within one transaction |
| `RunnerService.Runner.ScheduleTimeouts` | river/workers.go:168-178 | one timeout job per signal waited for |
| `RunnerService.Runner.WorkTimeout` | river/workers.go:187-295 | the timeout worker's commit: nothing if the signal is settled, else signal.timeout and a resume job |
| `RunnerService.Runner.SignalRun` | river/runner.go:298-400 | SendSignal past its load gives the protocol's answer, records exactly if the append is accepted and then inserts the resume job; `Effects.SignalAnswers` and `Effects.SignalEffect` say when that is |
| `RunnerService.Runner.CancelRun` | river/runner.go:403-473 | likewise for CancelWorkflow, which inserts no job; see `Effects.CancelAnswers` and `Effects.CancelEffect` |
| `RunnerService.Runner.Finish` | river/workers.go:51-138 | committing any operation in flight takes the runner to the protocol's next state |
| `Effects.SignalAnswers` | river/runner.go:307-331 | each answer of SendSignal iff the loaded log's payloads call for it |
| `Effects.CancelAnswers` | river/runner.go:412-430 | each answer of CancelWorkflow likewise |
| `Effects.SignalEffect` | river/runner.go:338-395 | with the signal awaited and unsettled, the log unchanged and a fresh ID, the log grows by just the message and a job for the run's own workflow is pending; otherwise nothing changes |
| `Effects.TimeoutEffect` | river/workers.go:187-295 | an expired unsettled signal is recorded as timed out, a resume job inserted and the timeout job finished; a settled one only finishes the job; a log that moved on changes nothing |
| `Effects.CancelEffect` | river/runner.go:432-470 | an open run whose log is unchanged is recorded as cancelled with the reason, and no job is inserted |
| `Effects.StartEffect` | river/runner.go:221-294 | a new run gets workflow.started with the input and its first job; otherwise nothing changes |
| `Effects.BegunOperation` | river/runner.go:307-316 | an operation begun remembers what it was asked and the log of that moment |
| `Effects.WorkEffect` | river/workers.go:51-138 | when the worker's events are recorded, exactly which, and which jobs are then pending |
| `Effects.ActRecords` | river/workers.go:84-137 | in every reachable state, whatever an action changes in the logs is the payload it means to record, in its own run |
| `Effects.RecordedMessageIsDelivered` | workflow/signal.go:57-84 | a message that SendSignal recorded is what every later wait for the signal delivers, over all continuations of the run |
| `Effects.RecordedTimeoutIsAnswered` | workflow/signal.go:57-84 | and a recorded timeout is answered as a timeout ever after |
| `Growth.ActGrows` | river/workers.go:84-137 | every action keeps the state consistent and extends each log by the effect of at most one operation decided on exactly that log |
| `Growth.SingleAppend` | event/memory/store.go:54-63 | one event after a snapshot is accepted only if the log still is the snapshot |
| `Safety.RunsAreConsistent` | river/workers.go:51-138 | every reachable state is consistent: sound store, started logs, operations in flight on prefixes of the logs |
| `Safety.LogsGrow` | event/memory/store.go:54-63 | however the protocol runs on, logs only grow, one operation at a time |
| `Safety.TerminalAtMostOnce` | river/runner.go:421-464 | in every reachable state a run's log holds at most one workflow.completed or workflow.cancelled |
| `Safety.SignalsSettleOnce` | river/runner.go:318-367 | each signal is received or timed out at most once, in total, and only after a wait |
| `Safety.WaitAnswersForGood` | workflow/signal.go:57-84 | once a signal is settled, WaitForSignal gives the same message or timeout in every replay of every later log |
| `Safety.StepsSettleAtMostOnce` | river/workers.go:90-101 | over all crashes, redeliveries and races a plain step has at most one completion or final failure in the log |
| `Safety.BranchChoicesStand` | workflow/branch.go:74-114 | over all runs a branch is evaluated at most once and no later action changes its choice |
| `Wakeups.NoLostWakeup` | river/workers.go:84-137 | in every reachable state a live run has a pending workflow job, or a pending timeout job for a signal that is awaited and unsettled |
| `Wakeups.ResumeWakes` | river/runner.go:355-395 | recording a signal or its timeout and inserting the resume job leaves the run awake |
| `Wakeups.RunsAreAccountable` | river/workers.go:51-138 | in every reachable state of every registry, timeout jobs are for awaited signals and operations belong to their jobs |
| `LostWakeups.StaysAwakeIff` | river/workers.go:115-131 | for every registry, reachable state and action: a live run that was awake stays awake, unless the action commits a replay of it that waits and names no signal while no other job stands ready; and then it does not |
| `LostWakeups.NoLostWakeupIff` | river/workers.go:84-137 | over whole runs and for any user code, every live run is awake throughout iff no action commits such a wait |
| `LostWakeups.PauseAloneLosesTheRun` | river/workers.go:115-131 | a body that pauses at once without a signal loses its run after one start and one worker |
| `Completion.FreshWorkIsAccepted` | river/workers.go:90-113 | numbering contract: with the log unchanged and fresh IDs the replay's events and workflow.failed are accepted, whatever the replay emitted, and the store stays sound |
| `Completion.RunsRecordTheEvaluation` | river/workers.go:51-101 | over every run of the protocol a deterministic workflow records only the outputs of sequential evaluation |
| `Completion.PendingJobCompletesRun` | river/workers.go:51-138 | any pending job of a live total deterministic run, worked without conflict, completes it with every output recorded |
| `ChildIds.PathReadsBack` | workflow/map.go:28-30 | reading a printed path of children gives back the path, at any depth |
| `ChildIds.RunIdsDistinct` | workflow/map.go:176-177 | from one root run, IDs are equal iff the paths are |
| `ChildIds.Counters.NextChild` | workflow/replay.go:987-992 | a child ID was never handed out before by this replayer |
| `ChildIds.Counters.NextMap` | workflow/replay.go:993-997 | nor was any ID of a map call's items, and no two items share one |
| `MapRuns.MapKeepsOrder` | workflow/map.go:127-301 | under any interleaving and partial resume slot i is child i's recorded or computed output, child.spawned goes out once for exactly the unrecorded children, and one map.completed ends the call |
| `MapRuns.MapEndsAs` | workflow/map.go:180-301 | how a finished call ends: undecodable iff a record is; else an error naming a failed item iff a failure was recorded; else a panic iff a goroutine was cancelled or failed silently; else results |
| `MapRuns.MapSucceedsIff` | workflow/map.go:180-301 | without cancellation by the caller a finished call returns results iff every record can be read back, no item fails and none fails silently |
| `MapRuns.CanPanicIff` | workflow/map.go:199-282 | some schedule panics iff the call is new, no item is recorded as failed, every record can be read back and some item has no record |
| `MapRuns.CanPanicUncancelledIff` | workflow/map.go:199-282 | without a cancelling caller: iff moreover such an item has no JSON form or its child's output cannot be printed or read back |
| `MapRuns.CancelledCallPanics` | workflow/map.go:199-282 | one item, cancelled before it starts |
| `MapRuns.UnreadableOutputPanics` | workflow/map.go:262-282 | one item whose child's output is not of the result type; nobody cancels |
| `MapRuns.UnfinishedChildCountsAsDone` | workflow/map.go:239-272 | a waiting or suspended child is recorded as completed with no output |
| `MapRuns.MapWithOptions` | workflow/map.go:127-301 | the call with its shared slots and failure variables computes the specified outcome and events, also for a call whose end is on record |
| `MapTraces.MapTrace` | workflow/map.go:155-301 | the events of a call that returns results, up to the interleaving: its start and its completion with the results, for each unrecorded item the spawn with workflow and item, then the child's result, and nothing else |
| `MapTraces.AnyTrace` | workflow/map.go:155-301 | of a call that ends otherwise: each item's events are a prefix of its spawn and its child's report, and only a failing call records its end |
| `MapReplays.RecordedResultsAreReturned` | workflow/map.go:141-148 | results on record are returned slot by slot if each can be read back, and nothing runs |
| `MapReplays.RecordedFailureIsReturned` | workflow/map.go:150-153 | else a failure on record is returned with its index and error |
| `MapReplays.RunsItemsIff` | workflow/map.go:127-156 | the items are run iff there are some and no end of the call is on record |
| `MapReplays.CalledAgain` | workflow/map.go:141-153 | round trip: with its own events on record, and whatever else follows, a finished call gives the same results or failure under every schedule and emits nothing |
| `MapReplays.FailureHasSource` | workflow/map.go:279-290 | a failing call records the index and error of an item that failed: its recorded error, or what its child ended with now, recorded as child.failed |
| `MapReplays.FirstFailureStays` | workflow/map.go:168-246 | a failure once noted is not replaced by a later one |
| `Projections.StepCounts` | project/project.go:255-313 | on every event list total is the number of starts and equals completed plus failed plus running, running never negative; the counts are those of some order of searching the map, and without ambiguity those of the per-step history |
| `Projections.StepInvocations` | project/project.go:154-228 | one entry per start, in order; without two open attempts each entry has the status and error given by the first event after its start that completes its step or fails or restarts its attempt, and the entries per status number the same as the counts |
| `Projections.SettledByFirst` | project/project.go:154-228 | the event that settles an attempt in this sense is the first after its start that does, if any |
| `Projections.FindRunningAttempt` | project/project.go:316-327 | the attempt found is that of some key with the step's text before a colon, in any map order; zero if none |
| `Projections.MatchIsExact` | project/project.go:316-327 | with colon-free names and one open attempt the text match finds just that attempt |
| `Projections.CompletionCountedIff` | project/project.go:281-296 | a completion is counted in every search order iff some running key matches the step and every key that does shows the digit of a running attempt of it |
| `Tallies.ExecutionTallies` | project/project.go:255-313 | an execution of the engine that begins with nothing open is counted as what it was |
| `Tallies.ResumedWaitOpensTwo` | project/project.go:154-228 | a wait after a retry, resumed, leaves two attempts of one step open |
| `Tallies.TwoOpenMayMiscount` | project/project.go:281-313 | an event list with two attempts open that may be counted in two ways |
| `Tallies.ColonNameMayLoseACompletion` | project/project.go:316-327 | an event list in which a step name with a colon may make another step's completion go uncounted |

## Left out

- SQL text, transactions as such, advisory locks, connection handling, River's client lifecycle and logging: input and output. A transaction is one atomic commit.
- The fallback branches for stores without transactions (river/runner.go:267-272, river/workers.go:96-100): event and job are not atomic there, and the wake-up theorem would not hold.
- JSON encoding, reflection and type assertions: payloads are typed and marshalling of step outputs is total. Only map calls model values without a JSON form and outputs that do not decode.
- Clocks, durations and UUIDs are inputs: numbers and ID functions chosen by the environment. Theorems that need fresh IDs say so.
- `retry.Policy.NextDelay`: floating point and random jitter. A backing-off goroutine may be scheduled at any time; only the bound on attempts matters.
- Sequence numbers and indices are unbounded integers; the width of `int64` is not modelled. The digit of a projection key is cut to 32 bits as in the code.
- Jobs discarded after their last attempt: the queue may redeliver a job at any time, and a job whose work failed stays pending.
- Version pinning and changes of the registry: the registry is fixed over a run of the protocol, and the worker uses the definition it finds there.
- The delayed start worker (river/workers.go:304-340): it only calls StartWorkflowTx later.
- Step timeouts and values of the observed context: they reach user code as answers from outside.
- Branches nested in branches, and retry policies set on case steps, which the code does not consult.
- Data races on the history's branch index: goroutine moves are atomic.
- Uniqueness of workflow.failed, and that nothing follows a terminal event: signals and timeouts do not look for one.
- Children of `Run`: only their IDs are modelled; they are synchronous calls recorded through child events.
- The concurrency limit of map calls: any schedule is allowed, which includes the limited ones. Goroutines left behind when a recorded output cannot be decoded are not followed.
- Stability of child and map results across different steps on resume: indices come from a per-replayer counter that skipped steps do not advance.
- Saga compensation, timelines, run status, the list of child workflows, the query interfaces and configuration: they would add easy members only.
- Timestamps and durations of invocations.
- The wording of error texts: prefixes that wrap an error on its way up are mostly dropped.
- MapReplays.CalledAgain: a failing call is taken to return the index and the error that map.failed records. The first time round the code instead wraps the error of whichever goroutine ended first in error (workflow/map.go:279-283), which may belong to another item; only its text shows that.
- Safety.StepsSettleAtMostOnce: holds for plain steps whose name is neither empty nor the name of a branch's case step; branches are recorded under case names.
- Replays.ReplayExecutesOnce: speaks of steps whose events can be told apart in the log; the events of a branch named "" carry a case's name only, so that branch, and a plain step named like one of its cases, are not covered.
- Safety.BranchChoicesStand: for a branch named "" it does not say that step events carry the choice, since they do not tell that they are a branch's.
- Wakeups.NoLostWakeup: assumes user code that pauses only on signals; LostWakeups.NoLostWakeupIff is the exact condition for any user code.
- Agreement.ParallelEqualsSequential: for plain steps that read declared dependencies only, succeed at the first attempt and need a bounded number of reads.
- Projections.StepCounts: equality with the per-step history is stated for attempts below 80, whose keys end in one byte; the code documents single digits. Step names are sequences of bytes.
