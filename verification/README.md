# Verification model of the agent host

The repository runs one bounded agent run per conversation turn, writes every product event to a
durable, numbered log, and replays that log to a browser. This project models its connected state
machines in Dafny and proves what holds on every interleaving of them.

| modules | what they model |
|---|---|
| `RunRecords`, `FrozenUsage`, `Database`, `RowEvidence`, `Repository`, `Admission`, `RunContext` | the product database: rows, logs, attempts, messages, the atomic transactions, concurrent admission, the context of a run |
| `PolicyLedger`, `RunExecution`, `Budgets`, `PolicyExact`, `PolicyRecord`, `ToolPipeline` | the policy ledger of one run: its specification on values, the object that updates it in place, its budgets, and concurrent tool calls feeding one queue |
| `RunSystem`, `RunOutcomes`, `RunPolicy`, `WholeRuns` | worker, ledger, stored run, terminal lock, cancels, timeouts, quarantined transactions and restarts as one transition system: its invariants, how each run ends, what a completed run guarantees, and two whole runs |
| `UsageMetrics`, `UsageLedger`, `Metering`, `AttemptNumbering` | usage aggregation, the in-memory usage ledger, and the ledger against the attempt rows |
| `Finalizer`, `FinalizerInput`, `FinalizerGraph`, `Coalescer`, `Lifecycle` | the private control-call protocol, the live delta stream, and the cancel-once cleanup boundary |
| `RepositoryCall`, `RunService` | bounded repository calls, worker ownership and fail-stop |
| `Json`, `Sse`, `EventView`, `Delivery` | the JSON and event-stream wire, the public events of stored rows, the server loop and the reconnecting reader |
| `Projection`, `ShownView`, `ClientView`, `ThreadMerge`, `Progress`, `EndToEnd` | the browser's fold, batches and merges, and the statements that join the whole path |

Objects the source updates in place are classes whose methods are tied to functions on values; the
laws are proved about those functions. Concurrent parts are transition systems whose steps are the
stretches between two awaits.

## Assumptions

- A transaction is one atomic step; one that times out rolls back, unless it is quarantined, in which case it may still land at any later time.
- A thread snapshot is one atomic read, so the events of a run in it are its log up to `last_seq`.
- Equal fingerprints mean equal calls; identifiers are fresh; clocks and durations are integers (milliseconds).
- A run stops at its first raised violation: the service does this, the ledger alone does not.
- A cancel that finds no execution in the process is a separate, detached step, possible at any moment: it records no usage and accepts no source.
- Attempt ids are unique within a run; the source makes them unique in the whole table, so a clash with another run's attempt does not occur here.
- Message times increase in commit order where a statement says so; the source takes them before the transaction.
- The answers of the model, the tools, the permission policy, the clock, the timers and the network are arbitrary inputs.

## Findings

Each with the exact condition for all inputs and a run that gets there.

- `create_run` re-raises the raw constraint error when the run that blocked its insert ends before the re-read: `Admission.IntegrityErrorEscapesIff`, reached in `Admission.IntegrityErrorExample`. The interface otherwise answers a conflict or a replay.
- A detached cancel accepts no sources although the log may hold some: `RunSystem.AcceptedSourcesArePersisted`, reached in `WholeRuns.SourceLost` by a cancel whose transaction rolled back after it had stopped the worker.
- A usage observed after its attempt's finish began is accepted by the ledger but left out of the rows when the attempt settles: `Metering.LateObservationIsLost`, reached in `Metering.LateObservationExample`. This is a property of the ledger's interface: the present callers observe before they finish.
- The final text is set more than once exactly if terminal streams overlap: `FinalizerGraph.FinalTextSetOnceIff`, reached in `FinalizerGraph.OverlapSetsTwice`. The order of the graph's hooks is an arbitrary input here; a graph that never overlaps them is on the safe side of the condition.
- The reader drops an event whose number exceeds 2^53 - 1: `Sse.NothingLostIff`, reached in `Sse.DroppedEventExample`.
- The shown status can be ahead of the shown log prefix, after a submit answered with a run already running and after a stop request: `ClientView.ClientShowsALogPrefix`, reached in `ClientView.ReplayedSubmitIsAhead` and `ClientView.StopAnswerIsAhead`.
- A normal `finish_producer` can leave cleanup found from its producer in quarantine, only in a runtime already unhealthy and only behind a future observed in an earlier call: `Lifecycle.RuntimeLifecycle.FinishProducer` and `Lifecycle.CompleteIff`, reached in `Lifecycle.HiddenCleanup`. The one present caller passes a new producer.
- The two levels of usage aggregation differ exactly when some run has no attempt and no attempt of any run was measured: `UsageMetrics.TwoLevelAgreesIff`, reached in `UsageMetrics.TwoLevelDiffersOnEmptyRun`.
- A creation whose transaction commits but whose call is cancelled by its deadline before it returns leaves a run without a worker until the restart sweep: `RunService.CommittedRunsHaveWorkers`, reached in `RunService.LostRunExample`. Whether the database driver lets a cancellation in at that point is an input here.

## Model

| member | source | states |
|---|---|---|
| `Database.InvKept` | backend/src/work_assistant/repository.py:566-1220 | Every transaction, from any state satisfying the invariant, keeps it: logs numbered and well shaped, evidence valid, usage frozen, one active run and one run per key in a thread, one question per run and one answer exactly per completed run. |
| `Database.ReachableLog` | backend/src/work_assistant/repository.py:717-1220 | In every reachable database a log is numbered 1..`last_seq`, replays to the stored status, has at most one terminal event and that in last place, and holds `message.completed` exactly when the run completed, just before its terminal event. |
| `Database.ReachableUsage` | backend/src/work_assistant/repository.py:862-900 | A metered terminal run has no open attempt; its stored usage is, counter by counter, the total of its present attempt rows, and its terminal event carries the same. |
| `Database.ReachableKeys` | backend/src/work_assistant/models.py:46-57 | Two runs of one thread never share an idempotency key and are never both active, whatever sequence of transactions was applied. |
| `Database.HistoryKept` | backend/src/work_assistant/repository.py:717-1220 | No later transaction deletes or renames a run, changes its plan or a written event, or changes anything of a terminal run: the first terminal write wins. |
| `Database.SweepKeepsInv` | backend/src/work_assistant/repository.py:1130-1220 | The restart sweep keeps the whole invariant and leaves no active run. |
| `Database.RowLocality` | backend/src/work_assistant/repository.py:717-1220 | What one run sees of any transaction is one of its own row transactions or nothing. |
| `RunRecords.RowInvKept` | backend/src/work_assistant/repository.py:717-1220 | Each of the nine row transactions keeps numbering, log shape, payload contract, evidence and frozen usage of its run. |
| `RunRecords.TerminalRowFrozen` | backend/src/work_assistant/repository.py:902-1220 | A terminal run is immutable under every transaction, including late attempt finishes and usage records. |
| `RunRecords.TerminalUsageOfClosed` | backend/src/work_assistant/repository.py:195-229 | Closing the open attempts before totalling makes the stored usage a function of the final attempt rows. |
| `RunRecords.EventsAfterIsSuffix` | backend/src/work_assistant/repository.py:1222-1238 | In a numbered log the events after a cursor are exactly the remaining suffix. |
| `RunRecords.DedupOfDistinct` | backend/src/work_assistant/repository.py:1156-1178 | Collecting source ids without repeats changes nothing when the log has none. |
| `Repository.ProductRepository.CreateRun` | backend/src/work_assistant/repository.py:566-653 | One uninterrupted call performs exactly the insert transaction and answers what admission owes: the new run, the run that owns the key, a conflict or a missing thread. |
| `Repository.ProductRepository.CreateInitialRun` | backend/src/work_assistant/repository.py:279-362 | Thread, run and question are stored together, or the database is unchanged and the answer is the exact replay, a mismatch or an existing thread. |
| `Repository.ProductRepository.StartRun` | backend/src/work_assistant/repository.py:717-732 | Starts a created run only, appending `run.started`; answers whether it did. |
| `Repository.ProductRepository.AppendActiveEvent` | backend/src/work_assistant/repository.py:902-930 | Appends the next numbered event of a running run and stamps the first visible delta; stores nothing once the run is not running. |
| `Repository.ProductRepository.StartModelAttempt` | backend/src/work_assistant/repository.py:734-781 | Success means the run is running and metered and an open attempt with exactly this id, position and kind is stored. |
| `Repository.ProductRepository.FinishModelAttempt` | backend/src/work_assistant/repository.py:783-818 | Closes an open attempt once; after a terminal write nothing changes and the answer is false. |
| `Repository.ProductRepository.RecordModelAttemptUsage` | backend/src/work_assistant/repository.py:820-860 | Stores a first usage on an open attempt of an active run; a different second usage is refused. |
| `Repository.ProductRepository.WriteTerminalUsage` | backend/src/work_assistant/repository.py:862-900 | For a metered run: every open attempt is closed now with the given status, every other attempt stays as it was, and the stored usage is the total of the attempts in the result; nothing else of the run changes, and an unmetered run does not change at all. |
| `Repository.ProductRepository.CompleteRun` | backend/src/work_assistant/repository.py:932-1000 | A running run completes with answer, two events, usage and evidence in one step; an ended run is returned unchanged. |
| `Repository.ProductRepository.FailRun` | backend/src/work_assistant/repository.py:1002-1056 | An active run fails once with its failure code in the event; contradictory evidence changes nothing. |
| `Repository.ProductRepository.CancelRun` | backend/src/work_assistant/repository.py:1058-1128 | An active run is cancelled once; an ended run is returned unchanged. |
| `Repository.ProductRepository.FailOrphanedRuns` | backend/src/work_assistant/repository.py:1130-1220 | The loop over the active runs has the effect of one sweep of the whole database and reports exactly the runs it ended. |
| `Repository.ProductRepository.GetEvents` | backend/src/work_assistant/repository.py:1222-1238 | From a numbered log exactly the suffix after the cursor, so a reader that continues at the last number it saw misses and repeats nothing; from any log exactly its events with a greater number. |
| `Repository.ProductRepository.FailClosed` | backend/src/work_assistant/repository.py:252-258 | The first reason stays, and every later operation of the repository is refused. |
| `FrozenUsage.TerminalUsageMeans` | backend/src/work_assistant/repository.py:175-229 | The frozen totals from the attempt rows and times: each of five token counters is complete with the sum, partial, or unavailable exactly as all, some or none of the attempts have it; calls are the attempts, retries those beyond a first try; generation time exists exactly for a single direct or finalizer attempt that succeeded. |
| `RowEvidence.EndsExactly` | backend/src/work_assistant/repository.py:932-1220 | Each terminal transaction on a run that has not ended: exactly which events are appended and numbered how, how open attempts are closed, the totals that are frozen and announced; every other field stays, and an ended run stays as it is. |
| `RowEvidence.ReachableTells` | backend/src/work_assistant/repository.py:717-1220 | In every reachable database: the first-visible time exists exactly if a delta was stored, a failed run announces the code of its evidence, the frozen category fits the ending, and an attempt has an end time exactly if it is closed. |
| `Admission.KeyNamesOneRun` | backend/src/work_assistant/repository.py:592-653 | The run that first holds a key holds it after any further transactions, no other run ever does, and its plan never changes. |
| `Admission.CreateRunAnswersKeyOwner` | backend/src/work_assistant/repository.py:592-653 | With lookup, insert and re-read at three moments and anything in between, a successful answer names the run that owns the key at the end, and `created` is true only for this call's own new run. |
| `Admission.CreatedAtMostOnce` | backend/src/work_assistant/repository.py:592-653 | After one successful insert for a key no later insert for it succeeds. |
| `Admission.IntegrityErrorEscapesIff` | backend/src/work_assistant/repository.py:630-653 | With a fresh run id the raw constraint error escapes exactly when the thread was free at the lookup, busy at the insert, and by the re-read neither busy nor holding the key. |
| `Admission.IntegrityErrorExample` | backend/src/work_assistant/repository.py:630-653 | A concrete schedule in which the raw constraint error escapes. |
| `Admission.InitialAllOrNothing` | backend/src/work_assistant/repository.py:322-346 | An initial run adds one thread, one run and its one question, or nothing at all. |
| `Admission.InitialNeverEscapes` | backend/src/work_assistant/repository.py:347-362 | The losing creator of an initial run always resolves against the winner. |
| `Admission.AnswersIff` | backend/src/work_assistant/repository.py:592-653 | For any three moments of lookup, insert and re-read, exactly when `create_run` answers a missing thread, a conflict, the raw constraint error, a new run, or the run that owns the key. |
| `Admission.InitialAnswersIff` | backend/src/work_assistant/repository.py:279-362 | The same for an initial run: created exactly if the thread is new at the insert; otherwise an existing thread, a mismatch with another question, or the replay of the same one. |
| `Admission.QuestionStays` | backend/src/work_assistant/repository.py:592-653 | A committed run has exactly one question, its own text, and keeps it under every later schedule. |
| `RunContext.ContextIsCompletedRunsAndOwnQuestion` | backend/src/work_assistant/repository.py:690-715 | A running run is given one question and one answer per completed run of its thread, its own question, and nothing of any other run. |
| `RunContext.ContextAlternates` | backend/src/work_assistant/repository.py:690-715 | If message times increase in commit order the context alternates question and answer and ends with the run's own question. |
| `RunContext.ReachableContextAlternates` | backend/src/work_assistant/repository.py:690-715 | The same in every database reachable from the empty one. |
| `PolicyLedger.OutcomeAlwaysValid` | backend/src/work_assistant/execution_policy.py:683-705 | The outcome computed from a ledger with consistent evidence is never refused by the evidence validators. |
| `PolicyLedger.AcceptKeepsEvidence` | backend/src/work_assistant/execution_policy.py:613-631 | Confirming any event keeps the persisted sources distinct and the evidence consistent. |
| `PolicyLedger.ResultKeepsEvidence` | backend/src/work_assistant/execution_policy.py:633-675 | Validating any result keeps the evidence consistent; accepted result sources are persisted sources. |
| `Budgets.BudgetsHold` | backend/src/work_assistant/execution_policy.py:359-371 | On every history without violation: at most the allowed model calls and tool calls, no longer stretch of equal calls than allowed, and new progress strictly between any `max_no_progress_steps`+1 consecutive model calls. |
| `Budgets.BatchAllOrNothing` | backend/src/work_assistant/execution_policy.py:433-489 | A batch of tool calls is reserved completely with unknown ids, or the reservations are unchanged. |
| `PolicyExact.ModelCallRefusedIff` | backend/src/work_assistant/execution_policy.py:359-371 | On every history: a model call is refused exactly past the deadline, after the allowed number of calls without progress, or at the call limit, each with its own reason. |
| `PolicyExact.BatchRefusedIff` | backend/src/work_assistant/execution_policy.py:415-489 | A response with tool calls is accepted exactly in time, within the budget, with every call fine (new distinct id, known tool, readable arguments) and no stretch of equal calls beyond the limit. |
| `PolicyExact.CallBeginsIff` | backend/src/work_assistant/execution_policy.py:491-523 | A call begins exactly if it is in time, was asked for before with this tool and these canonical arguments, has not begun, and is permitted now; each refusal has its reason. |
| `PolicyExact.CallFinishesIff` | backend/src/work_assistant/execution_policy.py:525-572 | A finish is accepted exactly if it is in time, the call began with this tool and has not finished, the message is sound and parses, and no source is known with other data; each refusal has its reason. |
| `PolicyExact.LedgerRemembers` | backend/src/work_assistant/execution_policy.py:415-572 | On every history the ledger knows exactly the calls asked for, begun and finished in it. |
| `PolicyRecord.LedgerRecords` | backend/src/work_assistant/execution_policy.py:415-572 | On every history: progress is exactly what its operations showed, and the sources are exactly those its finished calls found, each with exactly the calls that found it. |
| `PolicyRecord.OutcomeCounts` | backend/src/work_assistant/execution_policy.py:683-705 | The usage an outcome reports counts model calls, calls asked for, finished and repeated, and the idle calls at the end of the history. |
| `PolicyLedger.ResultAcceptedIff` | backend/src/work_assistant/execution_policy.py:633-675 | A result is accepted exactly if its text has 1 to 32000 characters within the limit, is not blank and equals the streamed text, and its sources are well formed and distinct, persisted, absent without a succeeded call, and present where the policy asks; a wrong shape and wrong sources have different codes. |
| `RunExecution.RunExecution.BeforeModelCall` | backend/src/work_assistant/execution_policy.py:359-371 | The in-place counters after the call are those of the ledger for which the budgets are proved. |
| `RunExecution.RunExecution.ReserveToolCalls` | backend/src/work_assistant/execution_policy.py:433-489 | The loop over the calls, with its early exits and partly kept counters, has exactly the batch effect proved all-or-nothing. |
| `RunExecution.RunExecution.AfterModelResponse` | backend/src/work_assistant/execution_policy.py:415-425 | Texts count as progress first, then the calls are reserved. |
| `RunExecution.RunExecution.BeginToolCall` | backend/src/work_assistant/execution_policy.py:491-523 | A call begins only once, as reserved, with the same canonical arguments and present permission. |
| `RunExecution.RunExecution.FinishToolCall` | backend/src/work_assistant/execution_policy.py:525-572 | A finish closes the call, merges its sources and emits the finish before the new sources, or changes nothing. |
| `RunExecution.RunExecution.AddToolSources` | backend/src/work_assistant/execution_policy.py:562-572 | Each new source becomes one public event; a known one only gains the contributing call. |
| `RunExecution.RunExecution.AcceptRuntimeEvent` | backend/src/work_assistant/execution_policy.py:613-631 | The persisted sets advance exactly by the confirmed event. |
| `RunExecution.RunExecution.ValidateResult` | backend/src/work_assistant/execution_policy.py:633-675 | The verdict and frozen evidence follow schema, answer limit, agreement with the streamed text, and the source policy, in this order. |
| `ToolPipeline.NeverRejected` | backend/src/work_assistant/execution_policy.py:927-956 | Under every interleaving of concurrent calls and one FIFO queue the consumer never rejects an event the ledger emitted. |
| `ToolPipeline.PersistedInCausalOrder` | backend/src/work_assistant/execution_policy.py:574-631 | Each persisted source follows the persisted finish of a contributing call, which follows that call's persisted start. |
| `ToolPipeline.DrainedSourcesAgree` | backend/src/work_assistant/execution_policy.py:574-631 | When every call has succeeded and the queue is drained, persisted and generated sources are the same set. |
| `Progress.QueueDrains` | backend/src/work_assistant/execution_policy.py:927-956 | From every reachable state, the consumer left alone stores everything that is queued, in its order. |
| `RunSystem.AcceptedSourcesArePersisted` | backend/src/work_assistant/service.py:295-318 | Under every interleaving of worker, appends, cancels, faults, quarantined transactions and restarts an ended run accepts exactly its persisted sources in log order; a detached cancel accepts none, so it agrees exactly when none was persisted. |
| `WholeRuns.SourceLost` | backend/src/work_assistant/service.py:278-308 | A whole run that gets there: a tool call finds a source, its three events are stored, a cancel stops the worker and its transaction rolls back, and the repeated cancel finds no execution. |
| `RunSystem.AnswerIsTheStreamedText` | backend/src/work_assistant/service.py:433-510 | For any runner, a completed run has exactly one answer, equal to its persisted deltas in order and to the announced message; any other run has none. |
| `RunSystem.ConfirmationNeverFails` | backend/src/work_assistant/service.py:438-459 | Whatever happened between validation and commit, the confirmation inside the append child is accepted. |
| `RunSystem.TerminalIsFinal` | backend/src/work_assistant/service.py:585-608 | No step of any kind changes an ended run or its answer. |
| `RunSystem.StepKeeps` | backend/src/work_assistant/service.py:421-583 | Every step keeps the agreement between stored run, ledger, terminal lock, pending writes and quarantined transactions. |
| `RunOutcomes.StreamEndDecides` | backend/src/work_assistant/service.py:491-583 | From any state of the invariant in which the worker streams a running run, the end of the stream and the terminal write complete the run with exactly the result, or fail it: a missing result, a text or id list that is not as it must be, and sources that do not meet the policy each with the code, stop reason and category the design names for it. |
| `RunOutcomes.AcceptableResultCompletes` | backend/src/work_assistant/service.py:491-510 | A result whose text fits the answer limit and equals the stored deltas, and whose sources are well formed, persisted and meet the policy, completes the run: one answer, stop reason `completed`, and these sources in the evidence. |
| `RunOutcomes.FaultEndsRun` | backend/src/work_assistant/service.py:512-583 | Every kind of fault in the worker, at any of its stages, ends the run failed, with the code, stop reason and category of that fault. |
| `RunOutcomes.ReportedOnce` | backend/src/work_assistant/service.py:512-583 | The code, stop reason and category a fault is reported under are determined by it. |
| `RunOutcomes.OfferedEventIsStored` | backend/src/work_assistant/service.py:433-459 | An event the ledger has announced and not yet confirmed is stored as the next numbered event and confirmed. |
| `RunOutcomes.OtherEventFails` | backend/src/work_assistant/service.py:461-490 | Any other event stops the run, with the reason of its kind. |
| `RunOutcomes.CancelEndsRun` | backend/src/work_assistant/service.py:278-318 | A cancel in which nobody is in the way ends the run cancelled, without an answer, keeping its log and accepting its persisted sources. |
| `RunPolicy.CompletedRunMeetsPolicy` | backend/src/work_assistant/execution_policy.py:633-675 | On every interleaving a completed run has an answer of 1 to the allowed number of characters that is not blank, distinct persisted sources, none without a succeeded tool call, and some where `required`, or `required_if_tool_used` after a succeeded call, asks for them. |
| `RunPolicy.FailedRunSaysWhy` | backend/src/work_assistant/service.py:512-583 | On every interleaving a failed run announces the code its evidence records, and the page knows that code. |
| `WholeRuns.RunCompletes` | backend/src/work_assistant/service.py:421-510 | A whole run: a tool call finds a source, its events and the answer are stored, and under `required_if_tool_used` the run completes with that source. |
| `UsageMetrics.AggregatePermutation` | backend/src/work_assistant/usage.py:181-197 | The aggregate does not depend on the order of its metrics. |
| `UsageMetrics.AggregateOfGroups` | backend/src/work_assistant/usage.py:181-197 | Aggregating non-empty groups first gives the aggregate of everything. |
| `UsageMetrics.TokenMetricIsAggregate` | backend/src/work_assistant/repository.py:181-192 | A run's own token metric is the aggregate of one metric per attempt. |
| `UsageMetrics.TwoLevelAgrees` | backend/src/work_assistant/repository.py:444-478 | If every run has an attempt, the account total equals the flat total in every field. |
| `UsageMetrics.TwoLevelCompleteIff` | backend/src/work_assistant/repository.py:444-478 | The account total is complete with value v exactly when the flat total over all attempts is. |
| `UsageMetrics.TwoLevelAgreesIff` | backend/src/work_assistant/repository.py:444-478 | The account total equals the flat total over all attempts, in every field, exactly if every run has an attempt or the flat total is not wholly unavailable. |
| `UsageMetrics.TwoLevelDiffersOnEmptyRun` | backend/src/work_assistant/repository.py:444-478 | A run without attempts beside an unmeasured one: partial above, unavailable below. |
| `UsageLedger.RunUsageLedger.BeginAttempt` | backend/src/work_assistant/usage.py:233-264 | A failed start write uses up the call number but adds no attempt; a retry needs a finished parent and a free position. |
| `UsageLedger.RunUsageLedger.ObserveUsage` | backend/src/work_assistant/usage.py:266-272 | The first usage of an active attempt stays; a different second one is an error. |
| `UsageLedger.RunUsageLedger.RequestFinish` | backend/src/work_assistant/usage.py:274-296 | The first finish request fixes status and usage; a different later one is a conflict. |
| `UsageLedger.RunUsageLedger.PersistPendingFinish` | backend/src/work_assistant/usage.py:327-338 | A failed write leaves the finish waiting for a retry. |
| `UsageLedger.RunUsageLedger.SettleForTerminal` | backend/src/work_assistant/usage.py:304-325 | The walk over the live attempts settles them in order; it stops at the first write that fails, or with an error after the first attempt another coroutine began while a write was awaited; every attempt before that point is settled and none after it. |
| `Metering.WinningCancelRecordsWhatItSettled` | backend/src/work_assistant/service.py:278-308 | A cancel locks, settles to the end and wins later, with any steps of others in between: the frozen rows hold every usage that had been observed when it locked, before that attempt's finish began. |
| `Metering.CancelCountsWhatWasObserved` | backend/src/work_assistant/service.py:278-308 | Whenever a cancel wins, the frozen rows hold every usage covered by the last completed settlement. |
| `Metering.SettlementCovers` | backend/src/work_assistant/usage.py:304-325 | A completed settlement covers everything observed when it took the lock, whatever happened meanwhile. |
| `Metering.LateObservationIsLost` | backend/src/work_assistant/usage.py:266-302 | Settling records a held usage exactly when the finish had not begun or began with that usage. |
| `Metering.LateObservationExample` | backend/src/work_assistant/usage.py:266-302 | A ledger history in which an attempt's finish begins, its usage arrives afterwards and is accepted, and settling leaves it out of the rows. |
| `Metering.MeterStepKeeps` | backend/src/work_assistant/usage.py:233-338 | Every step keeps memory and rows in agreement while the run is active. |
| `AttemptNumbering.AttemptsAreNumbered` | backend/src/work_assistant/usage.py:233-264 | On every history no two attempts have the same place, and the n-th try of a call follows a finished one before it. |
| `FinalizerGraph.OneControlCall` | backend/src/work_assistant/agent_runtime.py:933-975 | Whatever the model answers and in whatever order the hooks run, at most one decision in the history holds a control call, and only one. |
| `FinalizerGraph.FinalizerSeesNoControl` | backend/src/work_assistant/agent_runtime.py:1012-1102 | No message list given to a terminal stream holds the control call or its result. |
| `FinalizerInput.ExitIff` | backend/src/work_assistant/agent_runtime.py:1000-1102 | The exit hook answers done exactly when the answer exists, goes back to the model exactly after a batch that may end the run, and streams exactly under the exit conditions; the list it gives is then the history before the last decision, and for a control exit with other calls that decision with exactly those calls and one result for each, in history order. |
| `FinalizerInput.GivenExactlyThen` | backend/src/work_assistant/agent_runtime.py:1000-1102 | Exactly the steps that begin a terminal stream give one list, and it is the one owed from the history at that moment. |
| `FinalizerInput.GivenIsProjection` | backend/src/work_assistant/agent_runtime.py:1000-1102 | In every run each list a terminal stream was given is that projection of the history when its stream began. |
| `FinalizerInput.AcceptedIff` | backend/src/work_assistant/agent_runtime.py:933-975 | Exactly which responses are accepted, and that only a control call changes the shared fields, to its own id. |
| `FinalizerGraph.FinalTextSetOnceIff` | backend/src/work_assistant/agent_runtime.py:907-919 | In a run that did not fail and whose streams have ended the final text was set at most once exactly if no terminal stream began while another was open. |
| `FinalizerGraph.FinalTextSetOnce` | backend/src/work_assistant/agent_runtime.py:907-919 | Failed or not, and also while streams are open: without such an overlap the final text is set at most once. |
| `FinalizerGraph.OverlapSetsTwice` | backend/src/work_assistant/agent_runtime.py:907-919 | A schedule in which two direct streams overlap and both set it. |
| `Finalizer.RuntimeContext.AcceptResponse` | backend/src/work_assistant/agent_runtime.py:926-989 | A decision is accepted or refused for the same reason, in the same order of checks, and only an accepted control call changes the shared fields. |
| `Finalizer.RuntimeContext.CompleteControl` | backend/src/work_assistant/agent_runtime.py:1136-1146 | The running control call becomes the completed one. |
| `Coalescer.PrefixIsLastGoodCut` | backend/src/work_assistant/agent_runtime.py:567-581 | The flush length is a good cut, no later phrase end in the window is passed over, and 0 means no good cut exists. |
| `Coalescer.TimerFires` | backend/src/work_assistant/agent_runtime.py:635-646 | A timer sends the whole buffer as one delta, unless it is shorter than a phrase; then nothing changes. |
| `Coalescer.ReceiveStream` | backend/src/work_assistant/agent_runtime.py:619-681 | For any chunks, clock and timer firings, deltas plus buffer equal the text received, each delta has 3 to 24 characters, nothing goes out before a non-blank character arrived, after that at most 23 characters wait, the limit is never exceeded, and the invalid-flush error never occurs. |
| `Coalescer.StreamFinalResponse` | backend/src/work_assistant/agent_runtime.py:584-701 | Success means exactly a complete, non-blank text within the limit, equal to the deltas sent; each delta has 1 to 24 characters and all but the last at least 3; a failure has sent a prefix of the text. |
| `Coalescer.FlushPhrases` | backend/src/work_assistant/agent_runtime.py:671-681 | Good cuts are taken until none is left; fewer than 24 characters stay behind. |
| `Coalescer.EmitStreamChunk` | backend/src/work_assistant/agent_runtime.py:549-559 | Blocks are split at the public payload limit and lose nothing. |
| `Lifecycle.RuntimeLifecycle.FinishProducer` | backend/src/work_assistant/agent_runtime.py:763-796 | Terminates for any waits. A normal return has observed the producer and everything transitively found from it exactly if, before the call, whatever of it waited in quarantine could be found without passing a future observed earlier: always in a healthy runtime, and for a producer not seen before. Otherwise the runtime is unhealthy for good and every pending future is quarantined. Only the producer is ever cancelled, and only once. |
| `Lifecycle.RuntimeLifecycle.Quarantine` | backend/src/work_assistant/agent_runtime.py:745-755 | Every given future ends up observed or quarantined, and so does all cleanup this reveals. |
| `Lifecycle.RuntimeLifecycle.ObserveQuarantined` | backend/src/work_assistant/agent_runtime.py:757-761 | A quarantined future that ends is observed and its cleanup kept track of. |
| `Lifecycle.CompleteIff` | backend/src/work_assistant/agent_runtime.py:725-743 | The if-and-only-if behind it, over the sets before and after the loop. |
| `Lifecycle.RuntimeLifecycle.Settle` | backend/src/work_assistant/agent_runtime.py:775-796 | The waiting loop: each turn observes something new, shortens the pending set or uses up time, and what it observed afresh leads only to futures it observed as well. |
| `Lifecycle.HiddenCleanup` | backend/src/work_assistant/agent_runtime.py:725-796 | Two calls of `finish_producer`, the first timing out and its producer ending later, reach a state in which the second returns normally although cleanup found from its producer waits in quarantine and has never ended. |
| `RepositoryCall.Quarantine.FinishRepositoryCall` | backend/src/work_assistant/service.py:80-128 | However often the caller is cancelled it leaves by deadline plus grace; the child is quarantined exactly when it has not settled by then, receives one cancellation if it outlives its own deadline and none otherwise, and its outcome is never changed by the caller's cancellation. |
| `RunService.CommittedRunsHaveWorkers` | backend/src/work_assistant/service.py:208-238 | In a service neither closed nor failed, a run whose creation committed and whose call is over has a worker, registered until it ends, exactly if that call was not cancelled between its commit and its return; no worker is asked to stop twice. |
| `RunService.NothingLost` | backend/src/work_assistant/service.py:80-128 | If no call is cancelled between its commit and its return, no committed run is lost. |
| `RunService.LostRunExample` | backend/src/work_assistant/service.py:80-128 | A call is cancelled in that gap: the run is committed, the service healthy, and whatever follows the run never has a worker. |
| `RunService.LaunchedIfHealthyAtReturn` | backend/src/work_assistant/service.py:208-238 | Across the gap between commit and launch, whatever others do in it: the run has its worker from the return on, for ever, exactly if the service was neither closed nor failed when the call returned. |
| `RunService.FatalStopsEverything` | backend/src/work_assistant/service.py:159-206 | Once fatal, the reason stays and no transaction starts and no worker is launched, ever. |
| `RunService.FailureReachesEveryWorker` | backend/src/work_assistant/service.py:168-177 | After a failure every worker but the one that found it has ended or has been asked to stop exactly once. |
| `RunService.RunService.MarkServiceFatal` | backend/src/work_assistant/service.py:168-177 | The first reason stays and the loop asks every other registered worker to stop, once. |
| `RunService.RunService.CreateCommitted` | backend/src/work_assistant/service.py:208-218 | A commit makes the run durable while its call is still returning; no worker exists yet. |
| `RunService.RunService.AdmitAndLaunch` | backend/src/work_assistant/service.py:219-230 | The return of the call launches the worker of a new run, or fails with the reason the service is not healthy and leaves the run without a worker. |
| `RunService.RunService.RequestCancel` | backend/src/work_assistant/service.py:413-419 | A worker that has been asked, or has ended, is not asked again. |
| `Json.ParsePrint` | backend/src/work_assistant/api.py:302-308 | Every value written on the stream parses back to itself. |
| `Json.PrintOneLine` | backend/src/work_assistant/api.py:302-308 | A written value holds no line break, whatever its strings contain. |
| `Json.CutObjectDoesNotParse` | frontend/src/api.ts:158-163 | No proper prefix of a written object is a JSON text. |
| `Sse.SseRoundTrip` | frontend/src/api.ts:143-178 | Any events with keep-alives, printed, split into any chunks and read back, give exactly the events whose number is a safe integer, in order. |
| `Sse.SseCutDeliversPrefix` | frontend/src/api.ts:143-178 | Cut anywhere and ended in any way the stream delivers a prefix of those events. |
| `Sse.NothingLostIff` | frontend/src/api.ts:115-141 | Nothing is lost exactly when every event number is a safe integer. |
| `Sse.DroppedEventExample` | frontend/src/api.ts:115-141 | A well-formed event numbered 2^53, received whole, is not delivered. |
| `Sse.ReadSseEvents` | frontend/src/api.ts:143-178 | The buffer loop delivers what the concatenated text delivers, however it was chunked. |
| `EventView.PublishedIsPrintable` | backend/src/work_assistant/repository.py:159-168 | Every event of a numbered log can be printed as a frame the browser accepts. |
| `Delivery.StreamEvents` | backend/src/work_assistant/service.py:320-347 | Although events and status are read separately, the loop yields exactly the events after the cursor, once each and in order, and finishes only on an ended run with nothing left to yield. |
| `Delivery.ServedIsLogPrefix` | backend/src/work_assistant/api.py:340-362 | Whatever the loop yields, however the text is chunked and wherever it is cut, the browser receives a prefix of the published log after the cursor. |
| `Delivery.StreamRunEvents` | frontend/src/api.ts:198-251 | The reconnect loop has the effect of the session for which exactly-once delivery is proved. |
| `Delivery.ExactlyOnceFromHost` | frontend/src/api.ts:198-251 | From the server loop to the callback: whatever each poll saw of the growing log, wherever the text was chunked or cut, and however often the connection dropped, the events passed on are the consecutive events of the log after the initial cursor, and the reader ends only on a terminal event. |
| `Delivery.ExactlyOnceInOrder` | frontend/src/api.ts:198-251 | The same for any connections that each serve a prefix of the log after the cursor they were asked for. |
| `Delivery.AcceptedIncreases` | frontend/src/api.ts:232-240 | Even a server that repeats, reorders or mixes runs leads to strictly increasing events of this run only. |
| `Progress.ReaderDeliversAll` | frontend/src/api.ts:198-251 | If the connections up to one that serves everything are neither refused nor given up, the reader delivers the whole rest of the log, and if none breaks off it ends by itself on the terminal event. |
| `Projection.ApplyPublished` | frontend/src/App.tsx:113-200 | A published event changes exactly the owed fields, as the stored event says. |
| `ShownView.FoldTellsTheLog` | frontend/src/App.tsx:94-200 | What a log shows, from its events alone: the tools in order of first appearance, each completed exactly if its last event is a finish, with that event's name and title, its last output and its last non-empty input; the sources with their last announcement; the text; the failure; the status; the number. |
| `ShownView.OtherToolsStay` | frontend/src/App.tsx:94-176 | An event of one call leaves every other tool as it was. |
| `Projection.ReduceTracks` | frontend/src/App.tsx:520-528 | A batch of consecutive events, overlapping what is shown or not, extends the shown log prefix to its end and nothing else; the status moves on by exactly the new events. |
| `Projection.SnapshotFollows` | frontend/src/App.tsx:202-211 | A run snapshot shows the fold of its log although it starts from the final status. |
| `Projection.ProjectionsFromSnapshot` | frontend/src/App.tsx:213-230 | The loops over runs and messages build the map whose entries are proved to show the logs. |
| `Projection.SnapshotShowsTheLog` | frontend/src/App.tsx:213-230 | For an atomic snapshot of any consistent database every run shows the fold of its whole log: the active-run fallback and the text taken from messages change nothing. |
| `Projection.AnsweredText` | frontend/src/App.tsx:178-186 | A completed run shows its announced answer. |
| `ClientView.ClientShowsALogPrefix` | frontend/src/App.tsx:485-1024 | Any mix of snapshots, live events, repeats, batches, dropped batches, late merges, submits and stop requests shows the text, tools and sources of a log prefix; the status too exactly unless a submit or stop answer put it ahead and no status event or replacing snapshot has come since; and never once the whole log is shown. |
| `ClientView.ReplayedSubmitIsAhead` | frontend/src/App.tsx:788-905 | A submit answered with a run already running shows its status with no event shown. |
| `ClientView.StopAnswerIsAhead` | frontend/src/App.tsx:978-1024 | A thread opened while the run was running, then stopped: the shown status is the end of the run, the shown log prefix still runs. |
| `ClientView.LastSeqNeverFalls` | frontend/src/App.tsx:485-632 | Only opening, leaving or submitting ever moves a projection back. |
| `Progress.NextEventIsShown` | frontend/src/App.tsx:485-632 | The next event of an open stream is shown at the next render, whatever is waiting already. |
| `ClientView.MergeProjectionMapsMonotonic` | frontend/src/App.tsx:232-266 | The merge loop computes the entry-wise merge for which the laws below are proved. |
| `ClientView.MergeIsLongerPrefix` | frontend/src/App.tsx:232-266 | Merging two projections of one log shows the longer prefix. |
| `ClientView.MergeIsIdempotent` | frontend/src/App.tsx:232-266 | Merging a map with itself changes no owed field. |
| `ClientView.MergeIsCommutative` | frontend/src/App.tsx:232-266 | The order of two snapshots does not matter for the owed fields. |
| `ClientView.MergeIsAssociative` | frontend/src/App.tsx:232-266 | Nor does the grouping of three. |
| `ThreadMerge.MergeThreadSnapshotMonotonic` | frontend/src/App.tsx:275-333 | The loops compute the merge for which monotonicity is proved. |
| `ThreadMerge.MergeIsMonotone` | frontend/src/App.tsx:268-333 | Merging a server snapshot, however stale, loses no message, keeps every run in its further state, and never shows a run as active that is known to have ended. |
| `ThreadMerge.ActiveIff` | frontend/src/App.tsx:268-333 | Exactly which run the merged page shows as active, from what both sides know of it. |
| `ThreadMerge.MergeMakesNothingUp` | frontend/src/App.tsx:275-333 | A merged page shows only messages of one of the two sides, and none twice. |
| `EndToEnd.CaughtUpShowsTheAnswer` | frontend/src/App.tsx:485-632 | From runner to screen: a browser that has caught up with a completed run shows exactly the stored answer, the concatenation of its deltas. |
| `EndToEnd.CaughtUpShowsTheSources` | frontend/src/App.tsx:485-632 | A browser that has caught up with an ended run shows exactly the sources its outcome accepts, unless the cancel was detached. |
| `EndToEnd.CaughtUpShowsTheFailure` | frontend/src/App.tsx:485-632 | A browser that has caught up with a failed run shows exactly the recorded failure code, and no text. |
| `EndToEnd.TextIsDeltas` | frontend/src/App.tsx:131-134 | While a log holds neither an answer nor a failure, the text shown is its deltas. |

## Left out

- LangChain, LangGraph, the DeepSeek client and checkpoints: their answers and schedules are arbitrary inputs of the hooks.
- SQLAlchemy sessions, pools, isolation levels and row locks: replaced by atomic steps and the unique constraints.
- Authentication, ownership checks, routing, CORS, settings, migrations, titles and the account page: guards and I/O that would only add easy members.
- The first-decision retry (`_invoke_initial_decision_with_retry`) and the capacity of the runner's queue: at most one more attempt and a bound on a FIFO that `ToolPipeline` keeps unbounded.
- The in-memory usage snapshot: terminal totals are recomputed from the rows, which are modelled.
- The shutdown of the runtime lifecycle, and two `finish_producer` calls that share a future at the same time: the model runs one call at a time from any earlier state.
- The reconnect loop: a connection that breaks after its terminal event is reopened; progress is proved given a connection that serves everything (`Progress.ReaderDeliversAll`). Backoff delays are not modelled.
- Carriage returns split across chunks and UTF-8 decoding: the server prints no carriage returns, and text is a sequence of characters.
- JSON fractions, exponents and surrogate escapes: the writer never prints them and the reader model refuses them; numbers other than the event number are exact.
- The message list updated from live events, and errors shown to the user: the projection's own fields are modelled.
- Public payload limits of counters and dates in the usage object: the usage JSON is an arbitrary function of the frozen usage.
- Start writes of concurrent attempts are one step with their memory entry; a cancelled start leaves only the row.
- Usage observations: the guarantee counts only usages seen before the attempt's finish began, as the source persists only those.
- Cancelled tasks are modelled by their requests; how asyncio unwinds them is an input.
