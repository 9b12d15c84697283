# Durable turn runtime of agent-harness: a Dafny model

agent-harness runs conversations between a language model and its tools. Its turn runtime promises that a process
can be lost at almost any moment without the conversation losing or repeating work: the agent loop commits
checkpoints, the rollout log keeps a hash chain of everything that happened, and a resume puts the two together
again. This project models that runtime and proves what it promises, and where the code falls short of a promise,
exactly when it keeps it.

## How the model is built

- `TurnMachine` is the agent loop as a step machine. The volatile part (the run state and the position in the loop)
  is lost in a crash; the checkpoint log and the approval decisions are not. Everything the loop cannot decide is an
  `Input`: provider answers, tool results, permissions, approvals, cancellation, wall time, mailbox. Three counters
  record what the outside world saw: provider calls, executor starts per call id, and approval boundaries per call id.
  A run is any sequence of steps and restarts. `TurnSafety`, `TurnApprovals`, `TurnBudgets`, `TurnFinality` and
  `TurnEndings` prove what holds in all of them; `TurnRefinement` compares them with a process that is never lost;
  `TurnGuards` gives the runs that show why each condition is there.
- `TurnPermissions`, `TurnTranscript`, `TurnRequests`, `TurnFailures` and `TurnAnnouncements` say over the same runs, by
  inputs, records and counters alone, which calls start, what the history holds, what the provider is asked with, how a
  turn ends, and what each checkpoint announces. The modules named `...Contents`, `RecorderAccounts`,
  `SchedulerOutcomes`, `McpRecovery`, `GuidanceText` and `GuidanceReports` do the same for the other components:
  relations on bytes, lines, messages and events that do not use the functions that compute the answer.
- `AgentLoop` is the same loop in the form of the source: a mutable run record, a checkpoint store, a manager and a
  while loop. The `Valid()` of the class says that record, rows, decisions and the loop's own counts of requests and
  executor starts are at every point those of the machine after `tick` steps, so a postcondition
  `Valid() && machine.core.pc == ...` fixes the whole state of record and store; a method that skipped a checkpoint,
  swapped two, or reached the provider or an executor at another point would not verify.
- `RolloutRows`, `RolloutFile`, `RolloutRecovery` are the log: a concrete row encoding and hash, the loader, and what a
  file cut anywhere still gives. `Recorder` is the writer's queue protocol with every interleaving of callers, writer,
  faults and cancellations; `RolloutRecorder` is the object that takes those steps. `TurnFinalization` ties log and
  checkpoints together.
- `Compaction` and `ExternalContext` are the parts of the context that have to be rebuilt after a restart.
- `Scheduler` with `SubagentScheduler`, and `Budgets`, model child agents as interleaved stretches between awaits.
- `McpConnection`, `Pagination`, `GuidanceImports` and `ArtifactStore` are four smaller components with resource bounds.

Where the source changes an object, the model has a class whose methods are proved against a function on values
(`View() == Step(old(View()), ...)`), and the theorems are about runs of that function.

## What the proofs found

- An approved call can start twice. BEFORE_TOOL is committed after the decision, so a crash while the approved tool
  runs is resumed and starts it again. `AtMostOnceEffects` states the exact allowance.
- A successful terminal tool decides the turn in memory only. A crash between AFTER_TOOL and BEFORE_FINALIZE loses the
  decision, although the result is on record. The class allows this, the program does not reach it: the root agent's
  loop is the only one built with checkpoints (`run_manager.py:204-246`), and its completion policy has no terminal
  tools (`completion.py:35-37`); a child's loop has them, but no checkpoints (`scheduler.py:247-263`).
- Resuming at BEFORE_MODEL or MODEL_IN_FLIGHT spends another iteration.
- Cancelling the asyncio task, or answering an approval with CANCEL_TURN, ends a process without a TERMINAL checkpoint,
  and nothing else in the loop does (`ReturnsOrIsCancelled`). If it was the turn's first process, the turn is closed in the rollout
  all the same; a later resume may complete it and close it a second time (`CancelledTurnClosesTwice`).
- A rollout cut exactly between a row and its line break loads, and the next append glues two rows together.
- Cancelling the caller of a flush turns the recorder FAILED when the writer reaches that flush.
- A compaction whose summary equals the one already in the state is not replayed.
- External context selected while a turn is running is pending again after a restart.
- An artifact whose metadata write fails stays in the directory but is not counted until the store is reopened; then
  the temporary files of killed writes are counted, too.
- A child cancelled before its first step keeps its budget lease. A refused reservation leaves a CREATED thread that
  never runs. A thread may take its first turn even when `max_turns_per_thread` is 0.
- A child that completes with output that is not valid JSON gives its lease back without its usage being counted (`EndTurn`).
- A budget id reserved twice leaks its first reservation.

Where the source's documentation says more than its code does, the model follows the code. `call_tool` is documented
to call a tool exactly once; it sends at most once (never, when there is no session). `cancel` is documented to wait for
the child's cleanup; a child that never started has none.

## Model

| member | source | states |
|---|---|---|
| RunStates.RoundTrip | agent-harness/src/agent_harness/checkpoints/serializer.py:13-76 | A checkpointed run state restores if and only if no tool call in its history carries non-empty text instead of a dictionary, and the original comes back (transport fields aside) if and only if every call carries a dictionary. |
| RunStates.RestoredKeeps | agent-harness/src/agent_harness/checkpoints/serializer.py:18-51 | Whenever a checkpoint restores, even one with empty-text arguments, every counter, output and error is unchanged, the same calls have results, and the newest assistant message names the same calls: the facts a resumed loop relies on. |
| AgentLoop.CheckpointManager.Save | agent-harness/src/agent_harness/checkpoints/manager.py:27-51 | Commits exactly one row, numbered one past the newest, holding the record as it is at that moment, and stays in step with the stored numbering. |
| AgentLoop.CheckpointManager.constructor | agent-harness/src/agent_harness/checkpoints/manager.py:53-56 | A manager opened on an existing turn continues its numbering: the next row it commits gets the number the durable log expects. |
| TurnBudgets.RunNumbered | agent-harness/src/agent_harness/checkpoints/manager.py:27-56 | In every reachable state, across processes, checkpoints are numbered 1, 2, 3, ... without gaps, so the row with the highest number is the last one committed. |
| TurnBudgets.LogGrows | agent-harness/src/agent_harness/checkpoints/store.py:48-63 | No step, crash or resume ever rewrites or drops a committed checkpoint. |
| TurnFinality.RestartContinuesFrom | agent-harness/src/agent_harness/recovery/coordinator.py:34-51 | A restart enters the loop if and only if the newest boundary is one of seven and its state restores; it then resumes at that boundary. In every other case the new process stops. |
| TurnFinality.RestartFinds | agent-harness/src/agent_harness/runtime/session.py:99-131 | What every restart finds, by the newest checkpoint alone, in both directions: nothing without one; a closed turn at a TERMINAL that restores; a turn that needs recovery exactly at TOOL_IN_FLIGHT, WAITING_SUBAGENT, PAUSED and RECOVERY_REQUIRED; the restore error exactly when the state cannot be restored at any other boundary. |
| TurnFinality.OtherBoundariesStay | agent-harness/src/agent_harness/runtime/session.py:121-130 | When a restart does not enter the loop, nothing that happens later, further restarts included, calls the provider, starts a tool or adds a checkpoint. In particular a tool in flight is never started again. |
| AgentLoop.Session.Resume | agent-harness/src/agent_harness/runtime/session.py:113-130 | The reopened session shows exactly what the machine's restart gives: entering with the restored record and resume point, already terminal, in need of recovery, or the restore error. |
| AgentLoop.Session.ContinueIncompleteTurn | agent-harness/src/agent_harness/runtime/session.py:162-180 | Whatever the environment answers, the process stops, and the rows, decisions and record it leaves are those of a machine run that starts at the crash. |
| TurnMachine.StepTerminates | agent-harness/src/agent_harness/runtime/agent_loop.py:57-201 | Whatever the environment answers, each step of a process that has not stopped lowers the lexicographic measure (remaining iterations plus the one resumed pass, stage of the pass, pending tool work), so every process stops. |
| AgentLoop.AgentLoop.Run | agent-harness/src/agent_harness/runtime/agent_loop.py:47-242 | The imperative loop always ends, and its record, its checkpoint rows, its decisions, and its own counts of provider requests and executor starts are those of the step machine run on exactly the answers it consumed: every theorem below about machine runs holds of the loop. |
| AgentLoop.AgentLoop.Pass | agent-harness/src/agent_harness/runtime/agent_loop.py:57-201 | One pass of the while loop follows the machine step by step and leaves strictly fewer passes to go, or the turn has ended. |
| AgentLoop.AgentLoop.CheckPass | agent-harness/src/agent_harness/runtime/agent_loop.py:58-69 | Which of the three opening checks raises, in their order of precedence, and that an iteration is paid for exactly when none raises and the pass is not a resumed one. |
| AgentLoop.AgentLoop.BeginPass | agent-harness/src/agent_harness/runtime/agent_loop.py:57-78 | Follows the machine to the point where a model response is needed or reused; afterwards no resume point is left armed, and fewer passes remain. |
| AgentLoop.AgentLoop.CallModel | agent-harness/src/agent_harness/runtime/agent_loop.py:80-110 | Follows the machine through the budget check, both checkpoints and the provider request, in that order, to the committed response, without another iteration being paid. |
| AgentLoop.AgentLoop.AskProvider | agent-harness/src/agent_harness/runtime/agent_loop.py:95-96 | The request leaves the process exactly once, behind its MODEL_IN_FLIGHT checkpoint, and is counted. |
| AgentLoop.AgentLoop.RunTools | agent-harness/src/agent_harness/runtime/agent_loop.py:111-180 | Follows the machine through every pending call, in response order, within one pass. |
| AgentLoop.AgentLoop.BeginTool | agent-harness/src/agent_harness/runtime/agent_loop.py:113-125 | Both checkpoints of a call (BEFORE_TOOL, then TOOL_IN_FLIGHT) are committed before its execution can begin, and only if no check raised. |
| AgentLoop.AgentLoop.ExecuteTool | agent-harness/src/agent_harness/tools/runtime.py:116-176 | Whether the executor started, agreeing with the machine on denial, approval, malformed arguments and cancellation; `TurnPermissions` and `TurnTranscript.DeniedCallReportsError` fix, by the inputs, what that has to be. |
| AgentLoop.AgentLoop.StartExecutor | agent-harness/src/agent_harness/runtime/agent_loop.py:125-126 | The executor of this call starts, exactly once, and is counted under the call's id. |
| AgentLoop.AgentLoop.AskApproval | agent-harness/src/agent_harness/tools/runtime.py:155-164 | The decision is on durable record before the checkpoint that follows it, and that checkpoint before the decision takes effect. |
| AgentLoop.AgentLoop.SettleTool | agent-harness/src/agent_harness/runtime/agent_loop.py:126-158 | The result is appended, counted and committed together; a successful terminal tool closes the turn, any other goes on to the next pending call. |
| AgentLoop.AgentLoop.AcceptText | agent-harness/src/agent_harness/runtime/agent_loop.py:181-201 | A text response either closes the turn with the trimmed text, sends the guard's repair message into another pass, or raises on empty text, as the machine does. |
| AgentLoop.AgentLoop.ResumeFinalization | agent-harness/src/agent_harness/runtime/agent_loop.py:263-276 | A process resumed at BEFORE_FINALIZE stops after one terminal checkpoint. |
| AgentLoop.AgentLoop.Fail | agent-harness/src/agent_harness/runtime/agent_loop.py:210-242 | Every raised harness error, budget errors and cancellation requests included, ends in a terminal checkpoint; which status and error it carries is fixed by `TurnFailures.ReturnReportsFailure`. |
| AgentLoop.CommittedResponse | agent-harness/src/agent_harness/runtime/agent_loop.py:256-261 | The backward search finds the newest assistant message, or none when there is none. |
| AgentLoop.PendingCalls | agent-harness/src/agent_harness/runtime/agent_loop.py:111-113 | The calls without a result, in response order. |
| AgentLoop.PathIsRun | agent-harness/src/agent_harness/runtime/agent_loop.py:47-242 | Following the machine tick by tick for any number of ticks is running it on those inputs. |
| TurnSafety.RunSafe | agent-harness/src/agent_harness/runtime/agent_loop.py:111-139 | The invariant behind at-most-once: in every reachable state what each committed checkpoint says about a call bounds how often that call can have started, also when it is restored later. |
| TurnApprovals.AtMostOnceEffects | agent-harness/src/agent_harness/runtime/agent_loop.py:111-139 | Over every interleaving of steps, crashes and resumes with distinct call ids per response, a call starts at most once, plus at most one further time if an approval boundary fired for it; such a boundary fires at most once per call. |
| TurnApprovals.UnaskedCallStartsOnce | agent-harness/src/agent_harness/tools/runtime.py:116-125 | A call for which the permission check never asks starts at most once, through any number of crashes and resumes. |
| TurnPermissions.RecordSaysWhatWasAnswered | agent-harness/src/agent_harness/tools/runtime.py:147-164 | The durable approvals are exactly the answers given, across processes: a decision for a call and its arguments is on record if and only if some process asked for it and was answered so. |
| TurnPermissions.StartsArePermitted | agent-harness/src/agent_harness/tools/runtime.py:116-176 | The number of executor starts of a call, over any run with crashes, is the number of steps at which the permission check allowed it or a recorded decision did: counted over inputs and record, without the functions that decide. |
| TurnPermissions.StartNeedsPermission | agent-harness/src/agent_harness/tools/runtime.py:116-169 | A tool that has started was allowed: the check said Allow when the call was reached, or an Allowed decision for the call is on record. No crash or resume changes that. |
| TurnPermissions.DeniedCallNeverStarts | agent-harness/src/agent_harness/tools/runtime.py:118-120 | A call that the check never allows and that no recorded answer allows has zero starts, in every run. |
| TurnTranscript.DeniedCallReportsError | agent-harness/src/agent_harness/tools/runtime.py:100-115 | Such a call also reports back: whatever result the turn has recorded for it carries the status error. |
| TurnAnnouncements.EffectsAreAnnounced | agent-harness/src/agent_harness/runtime/agent_loop.py:80-126 | Write-ahead, over any run with crashes: the provider is asked only behind a MODEL_IN_FLIGHT checkpoint, and a tool starts only behind a TOOL_IN_FLIGHT checkpoint that names this call, or behind the BEFORE_TOOL that follows a durable decision allowing it. |
| TurnAnnouncements.RowsSayWhatTheyAreFor | agent-harness/src/agent_harness/runtime/agent_loop.py:244-254 | Every durable row of every run: its status is running exactly when it is not TERMINAL, TOOL_IN_FLIGHT names exactly one action, and an action is named only at BEFORE_TOOL and TOOL_IN_FLIGHT, under the run and turn of the saved state. |
| TurnAnnouncements.CountersAreRows | agent-harness/src/agent_harness/runtime/budgets.py:17-32 | The counters of a turn are exact in every reachable state, crashes included: one iteration for every BEFORE_MODEL row, one model call for every MODEL_IN_FLIGHT row, one tool call for every AFTER_TOOL row. |
| TurnRequests.RequestsAreWellFormed | agent-harness/src/agent_harness/runtime/agent_loop.py:80-159 | The provider is never asked with a call left open: over any run with crashes and resumes, whenever a request leaves, every tool call of every response in the history has its result in the history. |
| TurnRequests.NotesAreDelivered | agent-harness/src/agent_harness/runtime/agent_loop.py:325-330 | What arrives is added behind the history and stays as long as the process lives: the mailbox, message by message and in order, at every step that reads it, and the repair message whenever a final text is held back. |
| TurnTranscript.HistoryIsAccounted | agent-harness/src/agent_harness/runtime/agent_loop.py:70-139 | Nothing in the history is invented: in every reachable state, restored ones included, each message was there at the start or is word for word what the provider answered, what a tool returned, the repair message of the guard, or a message of the mailbox. |
| TurnTranscript.NothingReceivedIsLost | agent-harness/src/agent_harness/runtime/agent_loop.py:97-139 | Every answer and every tool result that the turn has received is in the history of every later state, and in the newest checkpoint, through any number of crashes. |
| TurnTranscript.ResultsAreHonest | agent-harness/src/agent_harness/runtime/agent_loop.py:126-139 | A tool result of the turn says error, or it says success of a call whose executor has started. |
| TurnGuards.ApprovedCallStartsTwice | agent-harness/src/agent_harness/runtime/run_manager.py:277-280 | The allowance for approvals is needed: for every environment that asks for and grants an approval there is a run in which the approved call starts twice, because BEFORE_TOOL is committed after the decision. |
| TurnGuards.RepeatedIdStartsTwice | agent-harness/src/agent_harness/runtime/agent_loop.py:112-126 | Distinct ids are needed: a response naming one id twice starts it twice without any crash. |
| TurnBudgets.BudgetsSurviveCrashes | agent-harness/src/agent_harness/runtime/budgets.py:17-32 | Over any number of crashes and resumes: provider calls so far <= durable model calls <= their limit, durable iterations and tool calls within theirs, and executor starts at most the tool limit plus the approval boundaries. |
| TurnFinality.DecidedOutputIsFinal | agent-harness/src/agent_harness/runtime/agent_loop.py:190-201 | After a committed BEFORE_FINALIZE, under any continuation with crashes, no provider or tool call happens, and the only further checkpoint is a completed TERMINAL one with the same final output. |
| TurnFinality.DecidedTurnCloses | agent-harness/src/agent_harness/runtime/agent_loop.py:263-276 | One restart and one step bring a decided turn to its TERMINAL checkpoint, provided its state restores. |
| TurnEndings.ReturnsOrIsCancelled | agent-harness/src/agent_harness/runtime/agent_loop.py:203-242 | Any process that enters the loop, the first of its turn or a resumed one: when it stops it has returned or was cancelled; it has returned if and only if the newest checkpoint is TERMINAL; it was cancelled if and only if its task was cancelled at an await or an approval was answered with CANCEL_TURN. |
| TurnEndings.UncancelledTurnCloses | agent-harness/src/agent_harness/runtime/agent_loop.py:203-209 | In terms of the inputs alone: a turn in which nobody cancels a task or answers CANCEL_TURN is never left without its TERMINAL checkpoint. |
| TurnEndings.CancelledTurnGoesOn | agent-harness/src/agent_harness/runtime/session.py:113-130 | A run from the start of a turn that is cancelled without a TERMINAL checkpoint, with a run state that says cancelled, and that a restart then carries to completion. |
| TurnFailures.ReturnReportsFailure | agent-harness/src/agent_harness/runtime/agent_loop.py:203-242 | How a turn ends, by its inputs: if a step of the process that returns met a failure, the newest row is TERMINAL with exactly that ending (CANCELLED with status cancelled after a cancellation request; LIMIT_REACHED with status failed after wall time, iterations, model calls or tool calls; the reported error, failed or cancelled by its category, after a provider or context error; failed after an empty response); if none did, it is completed, without an error and with an output. |
| TurnFailures.OutputWasDecided | agent-harness/src/agent_harness/runtime/agent_loop.py:181-201 | A final output is never made up: it is the trimmed text of the response that was newest when it was decided, which asked for no tool, or the content a successful terminal tool returned; restored states included. |
| TurnRefinement.ResumeRefines | agent-harness/src/agent_harness/runtime/agent_loop.py:57-201 | With a deterministic environment, dictionary arguments and distinct ids, losing the process any number of times at AFTER_MODEL, WAITING_APPROVAL, BEFORE_TOOL, AFTER_TOOL, BEFORE_FINALIZE or TERMINAL never changes the state the turn is heading for: messages, output, error and all three counters. |
| TurnRefinement.RootResumeRefines | agent-harness/src/agent_harness/runtime/run_manager.py:204-246 | The refinement for the one loop that is built with checkpoints, the root agent's, which has no terminal tools: the newest checkpoint alone decides whether a loss leaves no trace. |
| TurnRefinement.CrashesLeaveNoTrace | agent-harness/src/agent_harness/runtime/session.py:99-131 | The two runs side by side: both the crashed run and the crash-free one can be driven to an end, and the two ends agree. |
| TurnRefinement.StopsAlone | agent-harness/src/agent_harness/runtime/agent_loop.py:47-202 | A process left alone stops after finitely many steps in the state the reference semantics names. |
| TurnRefinement.OutcomeLike | agent-harness/src/agent_harness/checkpoints/serializer.py:63-76 | The transport fields that a restore drops do not influence how a turn ends. |
| TurnRefinement.ApprovalsIrrelevant | agent-harness/src/agent_harness/tools/runtime.py:151-164 | Whether decisions are asked for again or found on record does not influence how a turn ends, if the record is honest. |
| TurnGuards.TerminalSuccessIsLost | agent-harness/src/agent_harness/runtime/agent_loop.py:139-158 | The window the refinement excludes, reached by a run from the start of a turn: from the same moment a process that goes on commits the decided output, while one that is lost is resumed into another pass of the loop, with nothing committed in between. No loop of the program is built with both checkpoints and terminal tools. |
| TurnGuards.RetriedPassCostsAnIteration | agent-harness/src/agent_harness/runtime/agent_loop.py:61-78 | The two boundaries the refinement excludes: resuming at BEFORE_MODEL or MODEL_IN_FLIGHT starts the pass over with one more iteration spent, or fails the turn when none is left. |
| RolloutRows.ItemRoundTrip | agent-harness/src/agent_harness/threads/recorder.py:158-160 | An encoded row decodes to the item that was written, every field included. |
| RolloutRows.ParsePrefix | agent-harness/src/agent_harness/rollout/integrity.py:37-46 | No proper prefix of a row decodes, so a cut row is always recognised as one. |
| RolloutRows.ParseGlued | agent-harness/src/agent_harness/rollout/integrity.py:37-46 | A row with anything glued behind it does not decode. |
| RolloutRows.HashInjective | agent-harness/src/agent_harness/rollout/integrity.py:19-23 | Items with equal hashes are equal in everything but the hash field. |
| RolloutFile.RolloutFile.LoadVerified | agent-harness/src/agent_harness/rollout/integrity.py:26-63 | The line loop returns exactly the specified load of the bytes, truncates to what it accepted, sets the tail aside, and leaves the file alone when it raises. |
| RolloutFile.RolloutFile.Open | agent-harness/src/agent_harness/threads/recorder.py:43-53 | A new recorder loads and repairs the file and continues with the highest number and the newest hash, or fails with the integrity error. |
| RolloutFile.RolloutFile.AppendItems | agent-harness/src/agent_harness/threads/recorder.py:152-163 | Each item of the batch gets the next number and its predecessor's hash; the rows go behind the existing bytes. |
| RolloutFile.StampStandsFor | agent-harness/src/agent_harness/threads/recorder.py:157-161 | What becomes of the items of a batch: one durable row for each, in order, with its id, type, turn and payload untouched, version 2, the next number, and the hash of the row before it. |
| RolloutRecovery.CrashPrefix | agent-harness/src/agent_harness/rollout/integrity.py:26-63 | Any recorded history cut at any byte, except just before a line break, loads as exactly the items whose rows are complete, keeps exactly their bytes, and sets the rest of the cut row aside. |
| RolloutRecovery.SecondLoad | agent-harness/src/agent_harness/rollout/integrity.py:39-45 | For any bytes whatever: loading what a first load kept finds the same items and nothing to repair. |
| RolloutRecovery.LoadLinked | agent-harness/src/agent_harness/rollout/integrity.py:33-63 | For any bytes whatever: what loads is legacy rows first, then items numbered 1, 2, 3, ..., each naming its predecessor's hash and carrying its own. |
| RolloutRecovery.ChainUnique | agent-harness/src/agent_harness/rollout/integrity.py:55-61 | Two accepted chains of equal length with the same last hash are the same list of items. |
| RolloutRecovery.LoadedChainUnique | agent-harness/src/agent_harness/rollout/integrity.py:33-63 | The same for files: equal chain length and equal last hash mean the same chain, with only legacy rows before it. |
| RolloutRecovery.AppendLoads | agent-harness/src/agent_harness/threads/recorder.py:152-163 | A clean file with a reopened recorder's rows behind it loads if and only if the file ended with a line break (or was empty) and the recorder continues the numbers and hashes the loader expects; then it loads as the old items followed by the new. |
| RolloutRecovery.RecoverThenAppend | agent-harness/src/agent_harness/threads/recorder.py:51-53 | Recorded, cut, repaired, reopened and written on: what loads in the end is what was complete before the crash followed by everything recorded after it, item by item with its content untouched. |
| RolloutRecovery.CutBeforeBreak | agent-harness/src/agent_harness/rollout/integrity.py:39-62 | The excluded cut is a real failure for every history: the row loads, the line stays open, and the next append makes the file unloadable or in need of repair. |
| Recorder.FlushMeansWritten | agent-harness/src/agent_harness/threads/recorder.py:77-84 | In every run, once a flush is granted everything recorded before its call is in the file, in order, whatever happens afterwards. |
| Recorder.FailureIsForever | agent-harness/src/agent_harness/threads/recorder.py:124-150 | After the first failure, for every continuation, the state stays FAILED and nothing more is accepted or written. |
| Recorder.ExitAnswersEveryFlush | agent-harness/src/agent_harness/threads/recorder.py:106-139 | In every reachable state in which the writer has exited, no promised flush is still waiting. |
| Recorder.FailedExactlyWhen | agent-harness/src/agent_harness/threads/recorder.py:108-122 | A recorder is FAILED at the end of a run if and only if, somewhere in the run, a write faulted or the writer reached a flush whose caller had been cancelled. |
| Recorder.Drain | agent-harness/src/agent_harness/threads/recorder.py:106-122 | A writer left alone, without faults and cancelled callers, writes everything recorded and grants every waiting flush. |
| RecorderAccounts.AcceptedIsAccountedFor | agent-harness/src/agent_harness/threads/recorder.py:61-122 | Over every run, whatever was handed over while the recorder was open is, until a failure, in the file, in the hands of the writer or queued, in that order; and nothing is in the file that was not accepted. |
| RecorderAccounts.OpenExactlyUntil | agent-harness/src/agent_harness/threads/recorder.py:86-150 | The recorder accepts items if and only if no failure and no call of shutdown has occurred. |
| RecorderAccounts.FlushedItemsAreWritten | agent-harness/src/agent_harness/threads/recorder.py:61-84 | End to end: items accepted anywhere before a flush that is granted stand in the file, in one piece and behind everything accepted before them, whatever happens in between and afterwards. |
| RolloutRecorder.RolloutRecorder.Record | agent-harness/src/agent_harness/threads/recorder.py:61-67 | The object takes the protocol's step, and accepts if and only if it is open. |
| RolloutRecorder.RolloutRecorder.Flush | agent-harness/src/agent_harness/threads/recorder.py:77-84 | The object takes the protocol's step: the acknowledgement is queued behind everything recorded so far. |
| RolloutRecorder.RolloutRecorder.Shutdown | agent-harness/src/agent_harness/threads/recorder.py:86-104 | The object takes the protocol's step, and refuses if and only if it has failed. |
| RolloutRecorder.RolloutRecorder.TakeCommand | agent-harness/src/agent_harness/threads/recorder.py:106-117 | The writer takes the oldest command and answers it as the protocol says, a cancelled acknowledgement included. |
| RolloutRecorder.RolloutRecorder.FinishWrite | agent-harness/src/agent_harness/threads/recorder.py:111-112 | A finished batch is in the file, stamped and behind what was there, and counted as written. |
| RolloutRecorder.RolloutRecorder.FaultyWrite | agent-harness/src/agent_harness/threads/recorder.py:118-120 | A write that fails after any number of bytes leaves exactly those bytes and a failed recorder whose waiting callers are all answered. |
| RolloutRecorder.RolloutRecorder.SetFailure | agent-harness/src/agent_harness/threads/recorder.py:124-139 | The draining loop empties the queue and fails every acknowledgement in it that is still open; a second failure changes nothing. |
| TurnFinalization.ExactlyOneTerminalItem | agent-harness/src/agent_harness/runtime/session.py:136-149 | For every turn whose last process returned and that no earlier process has closed in the rollout (the history has no terminal item for it), and every sequence of closing attempts, each lost at any appended byte (line-break cut excluded): the file always loads with at most one terminal item for the turn, nothing recorded is lost, and once an attempt completes there is exactly one, of the type the status fixes (`TerminalItemSaysStatus` says which), with the thread idle. |
| TurnFinalization.TerminalItemSaysStatus | agent-harness/src/agent_harness/turns/controller.py:54-61 | After a completed attempt the terminal items of the turn are ["turn.completed"] if and only if the status is completed, ["turn.cancelled"] if and only if it is cancelled, and ["turn.failed"] in every other case. |
| TurnEndings.TerminalItemFollowsCheckpoint | agent-harness/src/agent_harness/runtime/session.py:136-149 | Log and rollout agree over whole runs: the one terminal item is of the type that the durable status of the newest TERMINAL checkpoint asks for, in both directions. |
| TurnFinalization.ClosedOnceExactlyWhen | agent-harness/src/agent_harness/runtime/session.py:199-219 | The exact condition for that: there is exactly one terminal item of the right type if and only if the first process of the turn was not cancelled (or a repair finds the turn cancelled in the end, too). Otherwise the file ends with two, or with one that says cancelled. |
| TurnEndings.CancelledTurnClosesTwice | agent-harness/src/agent_harness/runtime/session.py:162-180 | Both sides together, for every recorded history: the cancelled process writes turn.cancelled, the resumed one completes the same turn and writes turn.completed. |
| TurnFinalization.CloseAfterRun | agent-harness/src/agent_harness/runtime/session.py:173-179 | A process that has run the turn closes it with a new controller, whatever the history says. |
| TurnFinalization.RepairTerminalCheckpoint | agent-harness/src/agent_harness/runtime/session.py:136-149 | The repair done on resume is one completed closing attempt on the reopened file. |
| TurnFinalization.TerminalExists | agent-harness/src/agent_harness/runtime/session.py:141-142 | The scan finds a terminal item if and only if the history has one for this turn. |
| TurnFinalization.TurnController.Finalize | agent-harness/src/agent_harness/turns/controller.py:74-99 | The first call appends the closing pair with the recorder's numbers and hashes and makes the thread idle; every later call changes nothing durable. |
| Compaction.CompactionReplays | agent-harness/src/agent_harness/compaction/service.py:79-102 | Reapplying the record of a compaction to the checkpoint taken before it never fails, and gives the live process's summary and messages if and only if that summary was not already in the state. |
| Compaction.RunStands | agent-harness/src/agent_harness/compaction/service.py:39-102 | Over any run of turns, checkpoints, compactions and restarts in which no compaction repeats the summary in the state, reopening gives the summary and messages of the process that was lost. |
| Compaction.RepeatedSummaryIsSkipped | agent-harness/src/agent_harness/compaction/service.py:86-87 | A concrete state whose compaction repeats its summary: reapplying skips it and the compacted messages come back. |
| Compaction.ToolTrafficKept | agent-harness/src/agent_harness/compaction/service.py:47-60 | Every tool call and tool result survives compaction in the original order, and the same calls have results. |
| Compaction.RetainedTurns | agent-harness/src/agent_harness/compaction/service.py:43-46 | The retained part starts at a turn and holds exactly the configured number of turns; the limit 0 retains them all. |
| CompactionContents.CompactionIs | agent-harness/src/agent_harness/compaction/service.py:39-61 | For every state: the messages with tool calls and the tool results before the boundary stay, in order; all others become a transcript of lines "role: content"; the summary is the beginning of that transcript up to the limit; the record names source, summary and kept messages; nothing else changes. Said by relations on messages and text. |
| CompactionContents.CompactsExactlyWhen | agent-harness/src/agent_harness/compaction/service.py:41-51 | A compaction happens if and only if the turn is completed and some ordinary message lies before the turns to retain. |
| CompactionContents.ReapplyIs | agent-harness/src/agent_harness/compaction/service.py:79-102 | For every store of records: reapplying succeeds if and only if the newest record of the run is intact and its summary is in the state already or it was made from the very messages it replaces; what it then does is fixed in both cases. |
| Compaction.CompactionService.Compact | agent-harness/src/agent_harness/compaction/service.py:39-61 | The two filtering loops produce the specified record, summary and messages, or change nothing. |
| Compaction.CompactionService.ApplyLatest | agent-harness/src/agent_harness/compaction/service.py:79-102 | Reapplies the newest record of the thread with all its integrity checks, or reports failure with the state unchanged. |
| ExternalContext.ReopenRebuilds | agent-harness/src/agent_harness/runtime/session.py:302-378 | Over any run of selections and turns, replaying the rollout rebuilds the dedup set, and it rebuilds the pending list (content and order) if and only if what is pending is of a known kind without an empty media type and nothing of a known kind was selected while a turn was running. |
| ExternalContext.InjectionIsBounded | agent-harness/src/agent_harness/runtime/session.py:331-348 | What a turn injects costs at most the turn budget; injected and remaining items are an order-preserving split of what was pending. |
| ExternalContext.ChosenExactly | agent-harness/src/agent_harness/runtime/session.py:335-343 | An item is injected if and only if it fits behind the items injected before it. |
| ExternalContext.TooLargeStays | agent-harness/src/agent_harness/runtime/session.py:338-342 | An item larger than the turn budget is never injected and stays pending. |
| ExternalContents.ItemsAreChosen | agent-harness/src/agent_harness/runtime/session.py:302-329 | Over any run every pending or steered item is what the user chose, in the way it was chosen: the payload word for word within the item limit, otherwise the notice with the artifact. |
| ExternalContents.InjectedBytesAreBounded | agent-harness/src/agent_harness/runtime/session.py:331-343 | After any run the texts that the next turn takes in are together at most the turn budget in UTF-8 bytes. |
| ExternalContents.NothingIsLost | agent-harness/src/agent_harness/runtime/session.py:302-348 | Every payload ever chosen is pending, was steered, or is on record as injected; no two queued items carry the same payload, and none is queued that has been injected. |
| ExternalContext.Session.QueueExternalContext | agent-harness/src/agent_harness/runtime/session.py:302-329 | A payload seen before changes nothing; a new one is queued or steered, marked as seen and put on record, with oversized content replaced by its reference. |
| ExternalContext.Session.InjectPending | agent-harness/src/agent_harness/runtime/session.py:331-348 | The loop performs the specified split and records one injection per injected item, in order. |
| ExternalContext.Session.Restore | agent-harness/src/agent_harness/runtime/session.py:350-378 | The loop over the history rebuilds the state the theorem compares. |
| Budgets.RunConserves | agent-harness/src/agent_harness/runtime/budgets.py:56-79 | Over any sequence of reservations and releases with fresh ids, both reserved totals are the sums over unreleased leases and within the run's limits. |
| Budgets.UsageIsReported | agent-harness/src/agent_harness/runtime/budgets.py:70-79 | Over any sequence with fresh ids both used totals are the sums, over the released leases, of what was reported at the first release of each; unreleased leases have never been returned. |
| Budgets.GrantedExactlyWhen | agent-harness/src/agent_harness/runtime/budgets.py:56-68 | After any run with fresh ids a reservation is granted if and only if, with what the unreleased leases hold, both limits suffice; it takes just what it asked for, and a refused one nothing. |
| Budgets.ReusedIdLeaks | agent-harness/src/agent_harness/runtime/budgets.py:64-67 | Fresh ids are needed: an id reserved twice keeps the first reservation for ever, with no lease holding it. |
| Budgets.RunBudgetManager.ReserveChild | agent-harness/src/agent_harness/runtime/budgets.py:56-68 | Refuses exactly when a limit would be exceeded, changing nothing; otherwise the lease and both totals go up together. |
| Budgets.RunBudgetManager.ReleaseChild | agent-harness/src/agent_harness/runtime/budgets.py:70-79 | The object takes the specified release. |
| Scheduler.SchedulerSafety | agent-harness/src/agent_harness/runtime/subagents/scheduler.py:59-325 | For every interleaving, cancelled callers of cancel and close included: the running count is the number of permits held and within the limit; RUNNING threads hold exactly one permit; CREATED, QUEUED, IDLE, FAILED, CANCELLED and CLOSED ones none; thread and turn limits hold. |
| Scheduler.ClosedForever | agent-harness/src/agent_harness/runtime/subagents/scheduler.py:174-186 | No continuation takes a CLOSED thread out of that state. |
| Scheduler.LeasesReturn | agent-harness/src/agent_harness/runtime/subagents/scheduler.py:303-320 | Reserved budget is always the sum of unreleased leases; when no child task is under way, the leases still held are exactly those of children cancelled before their first step. |
| Scheduler.DroppedChildKeepsLease | agent-harness/src/agent_harness/runtime/subagents/scheduler.py:154-172 | A run in which a child is cancelled before it starts: it ends CANCELLED with its lease reserved. |
| Scheduler.RefusedChildNeverRuns | agent-harness/src/agent_harness/runtime/subagents/scheduler.py:77-78 | From every reachable state and in every continuation, a child whose reservation was refused counts against the total and never gets a task, a turn or a lease; it stays CREATED unless it is cancelled or closed. |
| Scheduler.StatusSaysHowItEnded | agent-harness/src/agent_harness/runtime/subagents/scheduler.py:264-318 | Over every interleaving a child is IDLE only if its last finished turn was a success, and FAILED only if it was not. |
| Scheduler.FailureRefusesFollowUps | agent-harness/src/agent_harness/runtime/subagents/scheduler.py:137-152 | After a failed turn the child is FAILED or CLOSED in every continuation, and every follow-up is refused. |
| Scheduler.SuccessInvitesFollowUps | agent-harness/src/agent_harness/runtime/subagents/scheduler.py:137-152 | After a successful turn, until somebody cancels, closes or writes to it, the child is IDLE, and a message within the limits reaches its mailbox and queues it again with a task of its own. |
| Scheduler.QueuedChildStarts | agent-harness/src/agent_harness/runtime/subagents/scheduler.py:219-229 | In every reachable state a free permit starts any queued child that is not cancelled: RUNNING, one more turn, one more permit held. |
| Scheduler.ChildRunsTwice | agent-harness/src/agent_harness/runtime/subagents/scheduler.py:59-325 | A whole life as one run: spawned, run to success, asked again, running again, its usage counted and its lease given back. |
| SchedulerOutcomes.SpawnIsIdempotent | agent-harness/src/agent_harness/runtime/subagents/scheduler.py:61-80 | An accepted spawn under a new key makes one queued child, and in every continuation a spawn under that key changes nothing and the key stands for that child. |
| SchedulerOutcomes.EndsAreAskedFor | agent-harness/src/agent_harness/runtime/subagents/scheduler.py:154-186 | Over every interleaving a child is being cancelled or CANCELLED only if a cancel or close named it, and CLOSED only if a close did. |
| SchedulerOutcomes.ReturnMeansEnded | agent-harness/src/agent_harness/runtime/subagents/scheduler.py:166-186 | When the wait of a cancel or close is over, the child is CANCELLED or CLOSED, and CLOSED when a close has finished. |
| SubagentScheduler.SubagentScheduler.Spawn | agent-harness/src/agent_harness/runtime/subagents/scheduler.py:59-99 | The object takes the specified step; a new child is QUEUED under the next id, and a refused reservation still leaves its thread. |
| SubagentScheduler.SubagentScheduler.BeginChild | agent-harness/src/agent_harness/runtime/subagents/scheduler.py:219-229 | The first step of a child: no code at all when it was cancelled before, otherwise the semaphore or its queue. |
| SubagentScheduler.SubagentScheduler.EnterWork | agent-harness/src/agent_harness/runtime/subagents/scheduler.py:223-229 | Permit, running count, status and turn count change in one stretch. |
| SubagentScheduler.SubagentScheduler.LeaveWork | agent-harness/src/agent_harness/runtime/subagents/scheduler.py:303-325 | Lease, permit and running count are settled in one stretch, with the status its caller has chosen: `EndTurn` after a finished turn, `DeliverCancellation` after a cancellation. |
| SubagentScheduler.SubagentScheduler.EndTurn | agent-harness/src/agent_harness/runtime/subagents/scheduler.py:264-318 | Chooses how a turn of a child ends: success exactly for a completed run with valid structured output, and the specified step with that outcome; invalid output fails without counting its usage. |
| SubagentScheduler.SubagentScheduler.DeliverCancellation | agent-harness/src/agent_harness/runtime/subagents/scheduler.py:312-325 | A delivered cancellation takes the specified step from waiting, working or cleaning up. |
| SubagentScheduler.SubagentScheduler.SendMessage | agent-harness/src/agent_harness/runtime/subagents/scheduler.py:137-152 | Refuses if and only if the child is inactive, the message too long or its turns used up; an IDLE child is queued again. |
| SubagentScheduler.SubagentScheduler.RequestCancel | agent-harness/src/agent_harness/runtime/subagents/scheduler.py:154-168 | `cancel` up to its wait: the specified state, and whether there is a task to wait for. |
| SubagentScheduler.SubagentScheduler.Cancel | agent-harness/src/agent_harness/runtime/subagents/scheduler.py:154-172 | The object takes the specified step of a cancel call. |
| SubagentScheduler.SubagentScheduler.Close | agent-harness/src/agent_harness/runtime/subagents/scheduler.py:174-186 | Refuses if and only if the child is active and the close is not forced. |
| SubagentScheduler.SubagentScheduler.ResumeCaller | agent-harness/src/agent_harness/runtime/subagents/scheduler.py:168-186 | What follows the wait: a child that never cleaned up is marked CANCELLED, and a closer closes it. |
| SubagentScheduler.SubagentScheduler.ActiveAgentIds | agent-harness/src/agent_harness/runtime/subagents/scheduler.py:195-201 | Exactly the children that can still consume work, in creation order. |
| McpConnection.SingleFlight | agent-harness/src/agent_harness/mcp/connection.py:348-371 | For every interleaving of callers, losses and cancellations: a usable generation is taken down only by a caller that observed exactly that generation, and at most once; a tool call sends at most once and a read at most twice, the second time on a newer generation; at most one caller is reconnecting. |
| McpConnection.GenerationGrows | agent-harness/src/agent_harness/mcp/connection.py:204-221 | No continuation lowers the generation. |
| McpRecovery.OutcomesAreHonest | agent-harness/src/agent_harness/mcp/connection.py:348-371 | Over every interleaving an outcome says how often the request left: answered once, or a read twice; unknown only for a tool call sent exactly once; refused never, or a read once; and whoever waits has sent once. |
| McpRecovery.ReconnectServes | agent-harness/src/agent_harness/mcp/connection.py:361-371 | From every reachable state whose session has expired, the first waiting caller gets a new one when nothing fails: READY one generation later with the lock free; its read is sent again on that generation, its tool call is not and reports an unknown outcome; nobody else is touched. |
| McpRecovery.WaitersAreServed | agent-harness/src/agent_harness/mcp/connection.py:361-366 | Every other caller that met the expired session then uses the same new one: nothing is taken down, and a read is sent again. |
| McpRecovery.ExpiredRequestIsServed | agent-harness/src/agent_harness/mcp/connection.py:152-170 | The whole story of one request, from any reachable state with a session: a read ends answered after two sends, a tool call with an unknown outcome after one. |
| McpConnection.MCPServerConnection.Begin | agent-harness/src/agent_harness/mcp/connection.py:152-162 | Generation and request belong to one stretch; without a session nothing is sent. |
| McpConnection.MCPServerConnection.SessionExpired | agent-harness/src/agent_harness/mcp/connection.py:348-359 | A first session-not-found answer leads to the reconnect lock, a second one to failure. |
| McpConnection.MCPServerConnection.EnterReinitialize | agent-harness/src/agent_harness/mcp/connection.py:361-370 | Under the lock: a newer usable session is reused, any other is taken down by this caller. |
| McpConnection.MCPServerConnection.AfterRecovery | agent-harness/src/agent_harness/mcp/connection.py:165-170 | What a recovered caller does: a tool call reports an unknown outcome without sending again, a read sends once more. |
| McpConnection.MCPServerConnection.FinishInitialize | agent-harness/src/agent_harness/mcp/connection.py:216-220 | The generation bump after the handshake is the specified step, whatever has become of the session meanwhile. |
| McpConnection.MCPServerConnection.FinishConnect | agent-harness/src/agent_harness/mcp/connection.py:67-81 | With the catalog loaded the connection is READY and the lock is passed on. |
| McpConnection.MCPServerConnection.FailConnect | agent-harness/src/agent_harness/mcp/connection.py:87-92 | A failed connect leaves no session and gives the lock back. |
| Pagination.CollectPaginated | agent-harness/src/agent_harness/mcp/pagination.py:12-42 | For every server: at most `max_pages` requests with pairwise distinct cursors, each taken from the answer before; exactly the first min(total, `max_items`) items of the fetched pages; truncated if and only if an item was dropped or the last page had a next cursor; the two errors exactly when they are due. |
| Pagination.CollectionIsUnique | agent-harness/src/agent_harness/mcp/pagination.py:12-42 | Those conditions leave no choice: they determine the result and the requests. |
| GuidanceImports.ExpansionIsBounded | agent-harness/src/agent_harness/guidance/imports.py:21-75 | For every file graph, cyclic ones included: at most `max_files` files are taken in, each once; the byte count is the sum of their sizes and within its limit; the text is no longer than that. |
| GuidanceImports.SilentMeansComplete | agent-harness/src/agent_harness/guidance/imports.py:35-75 | An expansion without diagnostics has taken in its root and, with every file, everything that file imports. |
| GuidanceImports.OnlyImportedFiles | agent-harness/src/agent_harness/guidance/imports.py:27-73 | Every file taken in is reached from the root by imports outside code fences, within the depth limit. |
| GuidanceText.DirectiveExactly | agent-harness/src/agent_harness/guidance/imports.py:9-63 | A line is an import of a path if and only if it consists of white space, the directive, white space, that path and white space. |
| GuidanceText.LiveExactly | agent-harness/src/agent_harness/guidance/imports.py:57-63 | A line of a file imports a path if and only if it directs to it and an even number of fence lines has gone before. |
| GuidanceText.LinesAreTheText | agent-harness/src/agent_harness/guidance/imports.py:59 | Splitting a file loses nothing: its lines, with the breaks between them, are the text. |
| GuidanceText.ExpansionIsATree | agent-harness/src/agent_harness/guidance/imports.py:59-73 | What the text of an expansion is, for every file graph: the text of a tree in which every file taken in stands exactly once, below a line that imports it; each file gives its lines in order, with the text below in place of a live import, nothing in place of a refused or repeated one, absolute ones removed, joined by line breaks and stripped. |
| GuidanceText.PlainFileIsKept | agent-harness/src/agent_harness/guidance/imports.py:59-73 | A file without live imports, within the limits, expands to its own lines, joined and stripped. |
| GuidanceText.OrdinaryLinesAreKept | agent-harness/src/agent_harness/guidance/imports.py:71-73 | Every ordinary line of every file taken in is in the text, up to white space at its ends. |
| GuidanceReports.ReportsAreWarranted | agent-harness/src/agent_harness/guidance/imports.py:30-69 | No false report: a boundary or absolute path is named only if a file taken in asks for it, a cycle only if the file imports itself through a chain, the depth limit only for a file that many levels below the root, the file count and the byte limit only when the files taken in leave no room. |
| GuidanceImports.Expander.LoadFile | agent-harness/src/agent_harness/guidance/imports.py:27-60 | The recursive method terminates and agrees with the recursive specification on text, seen files, byte count and diagnostics; `GuidanceText` and `GuidanceReports` say what those are. |
| GuidanceImports.Expander.LoadLines | agent-harness/src/agent_harness/guidance/imports.py:57-73 | The line loop, which toggles fences and recurses into imports, agrees with the same specification. |
| ArtifactStore.CounterAgrees | agent-harness/src/agent_harness/artifacts/store.py:65-123 | Over any run of puts, failed writes, processes killed at either of the two writes, and reopenings, counter plus drift is what the directory holds; the counter is right if and only if nothing was left uncounted since the store was opened. |
| ArtifactStore.QuotasHold | agent-harness/src/agent_harness/artifacts/store.py:105-123 | A store opened within its quotas stays within the thread quota and within every turn's quota. |
| ArtifactStore.StoredAgain | agent-harness/src/agent_harness/artifacts/store.py:103-104 | Bytes once stored under a type can be put again later, by any turn and whatever the quotas, with the same reference and no change. |
| ArtifactStore.OnlyGenuineMedia | agent-harness/src/agent_harness/artifacts/store.py:125-150 | Everything kept as image or audio carries the signature of its type, whatever was declared. |
| ArtifactContents.NormalizedNames | agent-harness/src/agent_harness/artifacts/store.py:127 | How a declaration is read: parameters cut off at the first semicolon, white space around it, capitals made small; nothing declared stands for octets. |
| ArtifactContents.SniffExactly | agent-harness/src/agent_harness/artifacts/store.py:135-150 | A media type is recognised if and only if its signature, given in bytes, is there; no data carries two. |
| ArtifactContents.StoredExactlyWhen | agent-harness/src/agent_harness/artifacts/store.py:92-123 | For every state and input: a put succeeds if and only if the named type is allowed and not belied by the bytes, the item is small enough, and it is already there or both quotas have room; it is charged exactly when it is new, and nothing else changes. |
| ArtifactContents.RefusedExactlyBy | agent-harness/src/agent_harness/artifacts/store.py:92-134 | Each of the five refusals occurs exactly under its own condition, in order of precedence, and leaves the store as it was. |
| ArtifactContents.MediaAreGenuine | agent-harness/src/agent_harness/artifacts/store.py:125-150 | After any run every file kept as image or audio begins with the bytes its type requires, whatever was declared. |
| ArtifactStore.ArtifactStore.Store | agent-harness/src/agent_harness/artifacts/store.py:92-123 | The object takes the specified step and returns the specified reference or error, each error in its order of precedence. |
| ArtifactStore.ArtifactStore.constructor | agent-harness/src/agent_harness/artifacts/store.py:65-68 | Opening recomputes the usage from the directory, whatever the previous counter was. |

## Left out

- Time, cancellation, provider, tools, permissions and mailbox: inputs of the model, arbitrary unless a theorem says otherwise.
- Trace events, usage, pricing, timestamps, task text, agent names and agent summaries: not part of the modelled run state.
- SQLite, fsync, atomic rename and file handles: a committed transaction is one step, a file is a sequence of characters, and a crash keeps any prefix of what was being appended.
- JSON text and SHA-256: replaced by a concrete row encoding and a concrete injective hash whose properties are proved; the payload hash of checkpoint envelopes is not modelled.
- Asyncio: lock, semaphore, condition and queue are assumed correct; each stretch between awaits is one step. Cancelling the writer task itself and the 5 second limits of the recorder's shutdown are left out.
- The root agent's setup inside a resume (guidance, skills, MCP start) and the skill invocations before the loop.
- Approval grants for a turn or a thread: folded into the permission answer. Exceptions raised by an approval handler, and the set of approvals consumed inside one process, which only a repeated call id can reach, are not modelled.
- Tool arguments that are JSON but neither text nor a dictionary.
- TurnRefinement.ResumeRefines: assumes that the environment does not look at the transport fields of tool calls, which a restore drops, and leaves out crashes at BEFORE_MODEL, MODEL_IN_FLIGHT and between a terminal tool's AFTER_TOOL and BEFORE_FINALIZE, where the outcomes do differ (`TurnGuards` has the runs).
- TurnApprovals.AtMostOnceEffects: allows one further start per approval boundary and asks for distinct ids in each response, because the code does not promise more (`TurnGuards` has the runs).
- TurnFinalization.ExactlyOneTerminalItem: speaks of turns whose last process returned and that no cancelled process has closed before, because the code does not promise more (`ClosedOnceExactlyWhen` has the exact condition, `CancelledTurnClosesTwice` the run).
- Compaction.RunStands: assumes that no two compaction records of a thread carry the same creation time, so that the newest is the last one written, and a positive summary limit.
- Child threads of the scheduler are values in a sequence, so aliasing of their records is not captured; `wait` and `cancel_all` are not modelled.
- McpConnection.SingleFlight: `close` called from outside, the DEGRADED status and the contents of a catalog refresh are not modelled; an old transport owner that clears a newer session is covered by the event that loses the session.
- ArtifactStore: concurrent puts from several threads, the base64 path and `cleanup`.
- GuidanceImports: path resolution and UTF-8 decoding are parameters; files rejected for their size have been read but are not counted, as in the code; the white space of the import pattern is ASCII.
- The bookkeeping of `run_turn` around the loop (titles, metadata, summaries), which only adds easy members, and exceptions raised around the loop rather than in it (skill invocations, summary writing), on which `run_turn` closes the turn as failed.
- Legacy session migration: it writes rows without numbers or hashes, outside the chain properties.
- Permission rules, hooks, trust gates, configuration precedence, the skill catalog, memory search, file tools, sandbox, CLI and OAuth: mostly one branch per case, or libraries the model cannot see.
