# A verified model of blackgeorge's runs

blackgeorge is an agent runtime whose runs can stop anywhere, be written out as data, be reloaded
and carry on. This project models the code that makes that work and proves what it promises:

- **Workflows** (`Workflow*.dfy`): trees of Step, Parallel, Condition, Router and Loop. A pause deep
  in a tree becomes a list of continuations that is stored as tree paths. `WorkflowExec` and
  `WorkflowFlow` are the engine as functions, `WorkflowRuntime` is the same engine as classes and
  loops that update a context in place, and `WorkflowDirect` is an independent reference in which
  every pause is answered on the spot. `WorkflowTransparency` proves that storing and resuming any
  number of times gives the reference result; `WorkflowOutcome` says of the steps' own reports how a
  flow ends; `WorkflowBounds` bounds loops and says when a pause can be stored; `WorkflowFindings`
  has the inputs on which a pause shows, and `WorkflowNesting` is about loops inside loops of the
  same name.
- **Workers** (`Conversation`, `Compaction`, `WorkerTools`, `ToolOverrides`, `WorkerTurn`,
  `WorkerRunner`, `WorkerSafety`, `WorkerRuns`, `WorkerTranscript`): the turn loop with planning,
  execution, compaction, pausing, resuming, handing over and sessions, and what becomes of a job's
  tools in storage. `WorkerRunner` and `WorkerRuns` give the loop and whole runs both as functions
  and as methods on mutable state that are proved equal to them; `WorkerSafety` and `WorkerRuns`
  prove the invariants, and `WorkerTranscript` says which messages a run adds and keeps, and why it
  ends.
- **Streamed tool calls** (`Streaming`, `StreamRouting`): fragments routed by index, id and
  position.
- **Workforces** (`Workforce`, `Members`, `Swarm`, `SwarmPairing`): sequential collaboration, and
  swarm handoff between workers as modelled above.
- **Costs** (`RunCosts`): the totals of a run whose workers are nested in workforces and flows.
- **Smaller parts**: overlapping chunks (`VectorMemory`), the structured-output fallback
  (`Structured`), subworker slots (`Subworkers`), channels (`Channel`).

## How it is modelled

- A runner started by a step is an oracle (`Script`): some number of pauses, then one report. It may
  depend on the context and on the whole history. What it does once it is resumed is part of it, in
  place as after storing; what a worker loses in storage is the subject of `WorkerRuns`. The model
  behind a worker, its tools, a worker inside a workforce, and a provider are oracles in the same way.
- A report's `uid` stands for the identity of the Python object that `add_output` compares with `is`.
  Every start of a runner reports with a new object, numbered by the moment of the start.
- `looksAt` says what the callbacks of an executable look at: some loop counters, or everything. What is
  asked of them (`Suits`) is that those inside a Parallel, or that may run after one, look at counters.
- `encode`, `dump` and `freeze` say what artifacts, reports and states of runners become when they are
  written as JSON and read again, if they can be written. `Tame` asks that callbacks leave artifacts
  that come back as they were, and that reports and states do.
- A `Way` says where a resume takes a run from: kept in memory or from the database by the desk that
  paused it, or only from what was written, as in a new process and for whatever runs inside a workforce
  or a flow. `Seen` is the list of tools that such a resume gets.
- Stored state is a value. Fields named as history (`log`, `answered`, `forked`, `executions`, `turns`,
  `stays`, `visits`, `taken`) are not stored by the source; statements about whole runs refer to them.
- `Paired` states with quantifiers what it means that calls and answers match; the ledger in
  `Conversation` is a left-to-right reading that is proved equivalent to it.
- The lemmas carry `{:induction false}`: every inductive step is written out.

## Model

| member | source | states |
|---|---|---|
| WorkflowTransparency.PauseAndResumeIsTransparent | src/blackgeorge/workflow/flow.py:415-531 | For every tree without Parallel whose instances are used once, if artifacts, reports and runner states survive JSON, and for arbitrary callbacks and runners: resuming exactly as often as there are pauses gives the reports, outputs, artifacts, loop counters, status and history (starts and questions asked, in order) of answering every pause in place; every earlier resume ends paused |
| WorkflowTransparency.ParallelKeepsSiblings | src/blackgeorge/workflow/nodes.py:133-135 | For every tree in which callbacks inside a Parallel, or that may be asked after one, look at loop counters only, no branch writes a counter of another, instances are used once, and artifacts, reports and runner states survive JSON: the resumed run ends, one resume for every pause. If the in-place run executes no Parallel, the two are equal; otherwise the status is the same and nothing is started or asked more often, and if the in-place run completes, reports have the same contents in the same order, every start and question happens exactly as often, and the loop counters agree |
| WorkflowOutcome.FlowEndsAsReported | src/blackgeorge/workflow/flow.py:282-371 | With `d` what the steps report in place: the flow, paused and resumed any number of times, completes if and only if `d` has a report and no failed one, and then its reports are those of `d` (up to their numbers after a Parallel); with a failed one it fails (with the first that failed, if no Parallel was executed); with none at all it fails because no step was executed |
| WorkflowOutcome.NothingToDoFails | src/blackgeorge/workflow/flow.py:354-371 | A concrete flow whose only step is a condition that takes an empty branch fails with `No steps executed` |
| WorkflowOutcome.ReportsAreOfRunners | src/blackgeorge/workflow/nodes.py:114-199 | Every report of a tree is that of a runner that was started: its text, completed if that runner succeeded and failed if not |
| WorkflowTransparency.StepResultsMean | src/blackgeorge/workflow/flow.py:282-334 | Taking results one by one either accepts all of them as the reference does, or stops with a failure or with a stored pause whose meaning is that of everything still to be done |
| WorkflowTransparency.RunContsMean | src/blackgeorge/workflow/flow.py:505-530 | Popping restored continuations and then running the later steps ends as their reference meaning does |
| WorkflowTransparency.ResumeMeans | src/blackgeorge/workflow/flow.py:415-531 | One resume of a stored flow changes nothing about what the whole run means |
| WorkflowTransparency.PauseMeans | src/blackgeorge/workflow/flow.py:240-280 | Where instances are used once and artifacts, reports and runner states survive JSON, a pause is stored, and the stored data means what the pause and its continuations meant |
| WorkflowTransparency.RunTopMeans | src/blackgeorge/workflow/flow.py:336-378 | From any step on, the top-level loop means the reference run of the remaining steps |
| WorkflowAgreement.NodeAgrees | src/blackgeorge/workflow/nodes.py:82-243 | For every executable: executing it and then answering what it left paused, through the continuations, equals its reference meaning; once a Parallel has been executed, up to the order of the history, and with no more than a failing reference run does |
| WorkflowAgreement.SequenceAgrees | src/blackgeorge/workflow/nodes.py:82-100 | The same for a sequence: the remaining steps are deferred behind the first pause |
| WorkflowAgreement.IterationsAgree | src/blackgeorge/workflow/nodes.py:201-243 | The same for a loop from any step of any iteration, begun or not |
| WorkflowAgreement.ParallelAgrees | src/blackgeorge/workflow/nodes.py:133-135 | The same for parallel branches that share no counter, up to the order of the history |
| WorkflowAnswers.DeferredMeaning | src/blackgeorge/workflow/nodes.py:62-79 | Deferring work behind a pause means answering the results and then doing the deferred work |
| WorkflowLocality.LocalNode | src/blackgeorge/workflow/nodes.py:82-243 | If callbacks look at counters only, a tree does the same in any two worlds that agree on the counters it touches: the same reports, history, pauses and counters |
| WorkflowAgreement.EitherOrder | src/blackgeorge/workflow/nodes.py:133-135 | Two branches that are apart may run in either order: each reports the same, and the counters and the bag of events are the same in the end |
| WorkflowFit.ExecuteFits | src/blackgeorge/workflow/nodes.py:62-100 | What a tree leaves behind when it pauses keeps to what is asked of callbacks: after a Parallel nothing that is still to run looks at more than counters |
| WorkflowNumbers.ExecuteNumbers | src/blackgeorge/workflow/nodes.py:39-43 | Until a Parallel is executed, whatever a tree runs publishes exactly its completed reports, once each, in the order of their starts (a lone step leaves that to its caller) |
| WorkflowGraph.GraphDistinct | src/blackgeorge/workflow/nodes.py:254-270 | The traversal never yields one path twice |
| WorkflowGraph.ResolvePathFor | src/blackgeorge/workflow/nodes.py:322-334 | An executable has a path if and only if it occurs once, and resolving that path gives it back |
| WorkflowGraph.ContRoundTrip | src/blackgeorge/workflow/nodes.py:360-431 | Restoring a serialised continuation, nested in any way, gives back the continuation with the loop name recorded |
| WorkflowGraph.ContsRoundTrip | src/blackgeorge/workflow/nodes.py:384-439 | The same for lists of continuations |
| WorkflowGraph.ResultsRoundTrip | src/blackgeorge/workflow/nodes.py:337-357 | The same for stored sibling outputs with continuations of their own |
| WorkflowGraph.SettleMeaning | src/blackgeorge/workflow/nodes.py:239-243 | The recorded loop name does not change what a continuation means while names are stable |
| WorkflowFlow.RestoredCallable | src/blackgeorge/workflow/nodes.py:399-431 | Whatever data is restored successfully is a list of continuations that can be called |
| WorkflowBounds.LoopBound | src/blackgeorge/workflow/nodes.py:197-230 | A run of a loop begins at most `max_iterations` iterations after it is entered, and its counter is their number |
| WorkflowBounds.IterationsCounted | src/blackgeorge/workflow/nodes.py:201-230 | From any step of any iteration, counter and iterations begun since the loop was entered stay equal; a resumed iteration is not counted again |
| WorkflowBounds.FlowLoopBound | src/blackgeorge/workflow/nodes.py:197-230 | Wherever a loop is in a flow, at no moment of the in-place run have more than `max_iterations` iterations begun since it was last entered |
| WorkflowBounds.LoopBoundAcrossPauses | src/blackgeorge/workflow/nodes.py:233-243 | The same for a loop anywhere in a flow that is paused, stored and resumed any number of times; after a Parallel, at most `max_iterations` iterations for every time the loop is entered |
| WorkflowNesting.GoesWithinLimit | src/blackgeorge/workflow/nodes.py:197-212 | A loop without a loop of its own name inside begins at most `max_iterations` iterations once its counter is at zero, whatever callbacks and runners do |
| WorkflowNesting.SameNameBoundIff | src/blackgeorge/workflow/nodes.py:197-212 | For every loop, whatever is inside it at any depth (its parts being valid): it keeps to its limit for all callbacks and runners if and only if the limit is one or no loop inside has its name; otherwise callbacks are built from the tree with which it never stops |
| WorkflowNesting.StaysPositive | src/blackgeorge/workflow/nodes.py:197-212 | No valid tree, not even a loop that resets it, takes a positive counter back to zero |
| WorkflowBounds.PauseStoredIff | src/blackgeorge/workflow/flow.py:144-162 | A pause is stored if and only if every executable that its continuations mention occurs exactly once in the flow, and the artifacts, all accepted reports, the state of the paused runner, and the reports and states of the siblings behind it can be written as JSON; otherwise the run fails |
| WorkflowFindings.ReusedStepNotStored | src/blackgeorge/workflow/nodes.py:326-327 | A concrete flow with a reused step instance in a continuation: its first pause fails the run |
| WorkflowFindings.UnwritableNotStored | src/blackgeorge/workflow/context.py:34-39 | A concrete flow whose artifacts have no JSON form: its first pause fails the run |
| WorkflowFindings.UnwritableReportNotStored | src/blackgeorge/workflow/flow.py:153-157 | A concrete flow whose first step completed with a report that has no JSON form: the pause after it fails the run |
| WorkflowFindings.UnwritableStateNotStored | src/blackgeorge/workflow/flow.py:156-157 | A concrete flow that pauses with a runner state that has no JSON form fails |
| WorkflowFindings.ChangedArtifactsShow | src/blackgeorge/core/serialization.py:7-17 | If artifacts come back changed, a concrete flow starts a step in place that it does not start after a resume |
| WorkflowFindings.ChangedReportsShow | src/blackgeorge/workflow/flow.py:164-169 | If a report comes back changed, a concrete flow ends with the changed report after a resume and with the step's own in place |
| WorkflowFindings.OrderShows | src/blackgeorge/workflow/nodes.py:82-100 | A concrete flow in which a callback after a Parallel looks at the first output: it ends with three reports in place and with two after a resume |
| WorkflowRuntime.WorkflowContext.AddOutput | src/blackgeorge/workflow/context.py:17-20 | In place: a report object is appended unless that very object is there |
| WorkflowRuntime.WorkflowContext.SetLoopIteration | src/blackgeorge/workflow/context.py:25-26 | In place: the counter is set |
| WorkflowRuntime.WorkflowContext.IncrementLoopIteration | src/blackgeorge/workflow/context.py:28-32 | In place: the counter grows by one, from zero if missing, and is returned |
| WorkflowRuntime.WorkflowContext.PublishOutputs | src/blackgeorge/workflow/nodes.py:39-43 | In place: exactly the completed reports are added, in order |
| WorkflowRuntime.Flow.Execute | src/blackgeorge/workflow/nodes.py:114-199 | The five kinds of executables, on a mutable context, equal the function `Execute` |
| WorkflowRuntime.Flow.Gather | src/blackgeorge/workflow/nodes.py:133-135 | The branches of a Parallel, gathered from left to right |
| WorkflowRuntime.Flow.ExecuteSequence | src/blackgeorge/workflow/nodes.py:82-100 | The loop that collects outputs and stops at a pause or failure equals `ExecuteSequence` |
| WorkflowRuntime.Flow.RunIterations | src/blackgeorge/workflow/nodes.py:201-230 | The while loop over iterations equals `RunIterations` |
| WorkflowRuntime.Flow.RunBody | src/blackgeorge/workflow/nodes.py:213-222 | One pass over the body from a given step, deferring the loop behind a pause |
| WorkflowRuntime.Flow.CallContinuation | src/blackgeorge/workflow/nodes.py:46-243 | Calling any of the three kinds of continuations equals `ExecuteCont` |
| WorkflowRuntime.Flow.PauseFlow | src/blackgeorge/workflow/flow.py:240-280 | Storing a pause, or failing because continuations, artifacts, reports or the runner's state cannot be stored |
| WorkflowRuntime.Flow.ExecuteStepResults | src/blackgeorge/workflow/flow.py:282-334 | The loop over results equals `StepResults` |
| WorkflowRuntime.Flow.RunSteps | src/blackgeorge/workflow/flow.py:336-378 | The loop over top-level steps equals `RunTop` |
| WorkflowRuntime.Flow.Run | src/blackgeorge/workflow/flow.py:380-397 | A run from a fresh context equals `Run` |
| WorkflowRuntime.Flow.Resume | src/blackgeorge/workflow/flow.py:415-531 | Rebuilding the context from stored state and carrying on equals `Resume` |
| WorkflowRuntime.Flow.RunContinuations | src/blackgeorge/workflow/flow.py:505-530 | The loop that pops continuations equals `RunConts` |
| Conversation.LedgerIsPairing | src/blackgeorge/worker_messages.py:185-203 | The left-to-right ledger is in order with exactly `open` open if and only if no call is declared twice, every answer follows its call, none is answered twice, and exactly the calls in `open` are unanswered |
| Compaction.PreserveToolCallBoundary | src/blackgeorge/worker_context.py:234-255 | The loop finds the greatest index not above the clamped request such that no assistant before it declares a call answered at or after it |
| Compaction.SplitPartitions | src/blackgeorge/worker_context.py:215-231 | System messages, head and tail keep every message, in order, and the cut separates no call from its answer |
| Compaction.SummaryNeverLengthens | src/blackgeorge/worker_context.py:294-312 | A committed summary never makes the conversation longer |
| Compaction.CompactionKeepsPairing | src/blackgeorge/worker_context.py:294-312 | Compacting a fully answered conversation leaves it fully paired and declares no new call |
| Compaction.CommittedMeans | src/blackgeorge/worker_context.py:294-312 | A committed summary keeps all system messages in front, in order, then has exactly one summary message that ends with the summary text, then the other messages from the cut on |
| WorkerTools.PlanAndResumeAgreeIff | src/blackgeorge/worker_runner.py:136-158 | Planning and resuming look up the same tool for a name if and only if the first item of that name in the list and the last one of that name that stands for a tool stand for the same tool, or none stands for a tool |
| WorkerTools.DistinctNamesAgree | src/blackgeorge/worker_runner.py:136-158 | With distinct names in a list, planning and a resume that sees the same list find the same tool |
| WorkerTools.DuplicateNamesDiffer | src/blackgeorge/worker_runner.py:150-158 | With a duplicate name in a list that both see it can find another one: planned behind a gate, resumed without |
| WorkerTools.ApprovedIff | src/blackgeorge/worker_runner.py:87-99 | A text, with any white space around it, approves if and only if it spells no decline in any case; a blank one declines |
| ToolOverrides.DeskPutsToolsBack | src/blackgeorge/desk.py:292-308 | With distinct names, a resume by the desk that paused the run gets the very list the run was started with, from memory or from the database |
| ToolOverrides.NamesAreEnoughIff | src/blackgeorge/core/job.py:94-98 | For any list, duplicates or not: after it was written as names, planning finds the same tool under a name if and only if the last item of that name that stands for a tool is a name or the toolbelt's own tool, and a resume if and only if the first item of that name is |
| ToolOverrides.WrittenToolsIff | src/blackgeorge/core/job.py:94-98 | With distinct names the whole toolset survives being written, for planning and for every resume, if and only if every listed tool is the toolbelt's own |
| ToolOverrides.InstanceIsLost | src/blackgeorge/core/job.py:94-98 | A listed tool that the toolbelt does not have is planned, but neither planned nor found once only its name is left |
| ToolOverrides.DuplicatesDependOnStore | src/blackgeorge/desk.py:292-308 | With a name twice in the list a resume finds the first tool from memory, the last one from the database, and the toolbelt's from what was written |
| ToolOverrides.Desk.Remember | src/blackgeorge/desk.py:284-290 | In place: the tools of a paused run's list are remembered under the run; a run without a list is forgotten |
| ToolOverrides.Desk.Restore | src/blackgeorge/desk.py:292-308 | In place: the two loops put every remembered tool back at the first item of its name, and nothing is ever appended |
| WorkerTurn.LoopState.PlanToolCalls | src/blackgeorge/worker_runner_helpers.py:305-360 | The planning loops compute `PlanOf` and record exactly the calls that the budget admits |
| WorkerTurn.PlanIsSafe | src/blackgeorge/worker_runner_helpers.py:305-360 | A plan holds back exactly the first gated call; every other admitted call is executed, and then has no gate, or is answered with an error; nothing beyond the budget is admitted |
| WorkerTurn.LoopState.ExecuteToolCalls | src/blackgeorge/worker_runner_helpers.py:363-392 | Every planned call gets one tool message, in order, and its result in the call list. Where ids are distinct, message k has the id of planned call k and tells what the run of that very call gave (its content, else its error), or, if it was not run, its immediate error |
| WorkerTurn.TurnTells | src/blackgeorge/worker_runner_helpers.py:305-392 | What a turn with calls adds, said of the calls: the model's message, and for each admitted call but the one that waits, in order, one tool message with what its own run gave, the error of its arguments, that there is no such tool, or that another call waits |
| WorkerTurn.LoopState.ReplaceToolCall | src/blackgeorge/worker_messages.py:211-216 | The first recorded call with that id is replaced; it says whether there was one |
| WorkerTurn.TurnKeepsPairing | src/blackgeorge/worker_runner.py:665-690 | After a turn within the call budget exactly the held-back call is open |
| WorkerRunner.ApplyContextSummary | src/blackgeorge/worker_context.py:367-400 | In place: for some n, the first n messages that are not system messages are replaced by one summary message that ends with what the model made of exactly these, behind all system messages and before the other messages from n on; nothing changes if n is zero or the model makes nothing of them. It equals `Summarized` |
| WorkerRunner.HandleContextLimit | src/blackgeorge/worker_runner_helpers.py:143-194 | In place: fail, or summarize and count it |
| WorkerRunner.ProcessToolCalls | src/blackgeorge/worker_runner.py:655-713 | In place: a response with tool calls equals `CallsReplied` |
| WorkerRunner.RecordTurn | src/blackgeorge/core/usage.py:19-28 | The worker's metrics and the run's totals both stay the sum of their recorded turns |
| WorkerRunner.RecordUsage | src/blackgeorge/worker_runner.py:107-112 | A turn whose response has no usage, or that raised before there was one, leaves both alone |
| WorkerRunner.RunTotals.Restore | src/blackgeorge/core/usage.py:42-45 | Totals that hold something are left alone |
| WorkerRunner.RunLoop | src/blackgeorge/worker_runner.py:731-777 | The turn loop on mutable state equals `LoopOf`, and both totals record the same turns |
| WorkerTranscript.BuiltForJob | src/blackgeorge/worker_runner.py:121-134 | A job's messages: the instructions first, alone or behind what the first system message says already; the conversation as it is; the job's input last |
| WorkerTranscript.CallsReplySays | src/blackgeorge/worker_runner.py:655-713 | A reply with calls: the conversation so far stays, what is added tells of every call (`TurnTells`), and the turn fails if the limit admits not all of them, waits for the first that needs a decision, or goes on |
| WorkerTranscript.LoopEndsFor | src/blackgeorge/worker_runner.py:731-777 | A loop ends for the reason it gives: with the text of the model's last reply, whose message closes the conversation; waiting for a call of the last reply, behind its own tool's gate; or failed with the error of its last turn, after the last iteration, or because more than the budget was spent |
| WorkerTranscript.RunEndsFor | src/blackgeorge/worker_runner.py:785-901 | The same for a run with any number of pauses |
| WorkerTranscript.InstructionsStay | src/blackgeorge/worker_context.py:294-312 | However long a run goes on, with any compactions, pauses and resumes: its system messages are at every stop those it started with, in order, and the first ends with the job's instructions |
| WorkerSafety.ContextLimitedKeeps | src/blackgeorge/worker_runner_helpers.py:168-194 | At most two reactive summaries between two stops; the conversation stays paired and does not grow |
| WorkerSafety.TurnIsSafe | src/blackgeorge/worker_runner_helpers.py:319-357 | A turn runs no gated tool and no call twice, and has not run the call it holds back |
| WorkerSafety.LoopKeeps | src/blackgeorge/worker_runner.py:731-777 | From a paired conversation, whatever the model replies, the loop stops with the pairing, the limits and the budget kept, no call run twice, no gated tool run, and at most as many recorded turns as turns taken |
| WorkerSafety.BuildKeeps | src/blackgeorge/worker_runner.py:121-134 | The messages a job starts with are as paired as its initial ones |
| WorkerRuns.PendingAnsweredKeeps | src/blackgeorge/worker_runner.py:845-881 | Answering the pending call leaves no call open and runs none twice, whatever tool is found; with a tool behind the same gate it runs only with approval or with its input |
| WorkerRuns.WholeRunIsSafe | src/blackgeorge/worker_runner.py:820-901 | Over a run through any number of pauses, with any list of tools, each resume with the list it really gets: pairing up to the one pending call of a paused run, `max_iterations`, `max_tool_calls`, no call run twice, every recorded turn begun within the budget; and if every resume meets the planned gates, no gated tool ran but in a resume of its own pause, with approval or input |
| WorkerRuns.RunsSafelyIff | src/blackgeorge/worker_runner.py:150-158 | For any toolbelt, list and store: a pause and its resume run no tool past its gate, for all models, messages and decisions, if and only if what the resume finds under the name of each gated tool has the same gate, or none, or is gone |
| WorkerRuns.WrittenGatesIff | src/blackgeorge/core/job.py:94-98 | With distinct names a resume from what was written meets the planned gates if and only if the toolbelt's tools of the same names have the same gates, as far as they have any |
| WorkerRuns.DistinctNamesKeepGates | src/blackgeorge/desk.py:292-308 | With distinct names every resume of a run meets the planned gates, if the run is never resumed from what was written or the toolbelt has the same gates |
| WorkerRuns.ApprovedWithoutInput | src/blackgeorge/worker_runner.py:150-158 | A concrete toolbelt and list: after the run was written, approval runs the toolbelt's tool of that name, which needs input and has got none |
| WorkerRuns.LostToolIsRefused | src/blackgeorge/worker_runner.py:846-854 | A listed tool that the toolbelt does not have: a resume from what was written answers its pending call with `Tool not found` and runs nothing |
| WorkerRuns.WhereKeptDoesNotMatter | src/blackgeorge/worker_runner.py:820-901 | If names are distinct and all listed tools are the toolbelt's own, two runs with the same decisions end alike, wherever each was kept at each of its pauses |
| WorkerRuns.StoreAndResume | src/blackgeorge/runner/loop_state.py:113-138 | In place: a paused run that is kept in memory, in the database or only as written, and resumed with the totals at hand or restored, goes on as the paused run would have with the list that this resume gets to see; beside tools only the number of summaries is lost, which no resume looks at |
| WorkerRuns.AnswerPending | src/blackgeorge/worker_runner.py:845-881 | In place: equals `PendingAnswered`; the recorded call is always found. One message is added, with the id of the pending call: that the tool was not found, that it was declined, or what the run of that very call, with its input, gave; and only in the last case a tool ran |
| WorkerRuns.ResumeWorker | src/blackgeorge/worker_runner.py:820-901 | A resume from stored state, with the tools of the stored job and the totals at hand or restored, equals `ResumeOf` |
| WorkerRuns.RunJob | src/blackgeorge/worker_runner.py:785-901 | A run with its pauses equals `RunOf`, wherever it is kept at each pause, and the cost total is the sum of all recorded turns |
| WorkerRuns.HandoffKeepsPairing | src/blackgeorge/workforce.py:244-255 | What a worker is handed is fully paired and has no system message |
| WorkerTranscript.HandedOver | src/blackgeorge/workforce.py:244-255 | What a worker is handed: exactly the messages of the report that are not system messages, in order, and last an answer to the call that handed over |
| WorkerRuns.ExtractKeeps | src/blackgeorge/session.py:244-260 | What a session keeps of a completed run is fully paired |
| WorkerTranscript.SessionKeeps | src/blackgeorge/session.py:237-260 | A completed run leaves its session exactly the messages of users and models, the answers with a call id, and the summaries, in order; any other run leaves it what it had |
| WorkerRuns.WorkerSession.PersistReport | src/blackgeorge/session.py:237-242 | Only a completed run replaces the stored messages |
| WorkerRuns.WorkerSession.RunTurn | src/blackgeorge/session.py:98-104 | In place: a job of a session starts from the stored messages and leaves the session in order |
| WorkerRuns.WorkerSession.Resume | src/blackgeorge/session.py:106-124 | In place: any paused run of the session goes on from its own state, whatever was stored since it paused, and leaves the session in order |
| WorkerRuns.SessionStaysPaired | src/blackgeorge/session.py:229-260 | After any number of jobs and resumes in any order, also of runs that were paused before later jobs replaced the messages: every call in the stored conversation has its answer, and every run of the session is paired up to its one pending call and within its limits |
| Streaming.StreamAssembler.ProcessDelta | src/blackgeorge/worker_runner.py:415-493 | In place: one fragment is routed, claims its keys and is merged, as `Step` says |
| Streaming.StreamAssembler.ProcessChunk | src/blackgeorge/worker_runner.py:408-493 | In place: the fragments of a chunk in order |
| Streaming.FragmentsConserved | src/blackgeorge/worker_runner.py:408-481 | In a stream of deltas, keyed or not, every argument text is in exactly one call, each call holds its texts in stream order, and every call has a fragment |
| Streaming.IndexedStreamsAreGrouped | src/blackgeorge/worker_runner.py:359-481 | If every fragment has an index and ids agree one-to-one with indices: one call per index in order of first appearance, each as if only its own fragments had arrived |
| Streaming.InterleavingIsIrrelevant | src/blackgeorge/worker_runner.py:408-481 | Chunks and interleaving do not matter to the call of an index |
| StreamRouting.FragmentGoes | src/blackgeorge/worker_runner.py:359-481 | After any stream, the next fragment goes where a key of it is known; else, if the call at its position may be joined, there: its keys agree with those of the call and its index with the position, the names can be parts of one, and it has no keys, or the arguments are not complete, or it is a payload equal to them; else it starts a call of its own. Nothing else changes |
| StreamRouting.PositionedStreamsAreGrouped | src/blackgeorge/worker_runner.py:359-481 | Streams whose keys are missing, or arrive late but before a call is done: one call for each position, in the order of first appearance, each as if only its own fragments had arrived, with its texts in order and the last id that came there |
| StreamRouting.UnkeyedStreamsAreGrouped | src/blackgeorge/worker_runner.py:359-481 | The same for streams of deltas without any keys, if the names at a position can be parts of one |
| StreamRouting.LateIdJoins | src/blackgeorge/worker_runner.py:359-406 | A concrete stream: a name first, then index, id and arguments at the same position, makes one call with both |
| Streaming.CallsParseTheirOwnTexts | src/blackgeorge/runner/streaming.py:75-98 | The arguments of a call are parsed from the texts of its own index, joined in order |
| StreamRouting.FinishedSays | src/blackgeorge/runner/streaming.py:75-98 | A finished call has its own id, or a new one if it came without; the entries of its object, or what its joined texts parse to; and an error exactly if one was collected, its name is blank, or its texts do not parse |
| Streaming.PayloadReplaces | src/blackgeorge/worker_runner.py:470-477 | A message payload replaces the collected text; repeating it changes nothing |
| Streaming.StreamedToolCalls | src/blackgeorge/runner/streaming.py:75-98 | One call per state, in order |
| Collaboration.CollaborationIsTransparent | src/blackgeorge/workforce.py:530-600 | If the workers cannot tell the list of tools from its names: any number of pauses and resumes ends with the same report, or the same pending worker, as answering every pause on the spot, although waiting workers are resumed and later ones started with names only |
| Collaboration.LostToolShows | src/blackgeorge/workforce.py:388-398 | A concrete team with a tool in the list: in place the run completes, resumed it fails, because the worker that starts after the resume gets a name only |
| Members.OwnToolsSuffice | src/blackgeorge/workforce_helpers.py:14-41 | Real workers cannot tell a list with distinct names from its names if all its tools are in their toolbelts |
| Members.StepTells | src/blackgeorge/worker_runner_helpers.py:43-141 | From outside, a worker's stop is finished with the run's text, failed with its error, or waiting for its pending call, and has the run's calls and messages |
| Collaboration.EveryWorkerOnce | src/blackgeorge/workforce.py:375-404 | Without a failure exactly one report of every worker is reduced, in worker order; with one, the reports up to and including the failed one are aggregated |
| Collaboration.AggregateSays | src/blackgeorge/workforce_helpers.py:118-144 | An aggregated report has the calls, errors and messages of all reports, one after the other, and a paragraph for each that names its worker |
| Collaboration.ReduceSays | src/blackgeorge/workforce_helpers.py:73-81 | A team with a reducer reports what it makes of the reports; one without reports the aggregate, failed if and only if one of them is |
| Collaboration.PendingIndexCountsReports | src/blackgeorge/workforce.py:388-398 | `pending_worker_index` is the number of completed reports, none of which failed, however often the run is stopped |
| Collaboration.RunWorkers | src/blackgeorge/workforce.py:384-404 | The loop over workers equals `RunFrom` |
| Collaboration.ResumeCollaborate | src/blackgeorge/workforce.py:530-600 | The resume stage equals `ResumeStage`, including the invalid index |
| SwarmMode.SwarmIsOrderly | src/blackgeorge/workforce.py:294-334 | Over a run with resumes: the first worker starts on the job; at most `max(1, min(max_iterations, max_tool_calls)) + 1` workers are started; each is registered, listed by the tool that handed over, named by the handoff that ended the visit before, and starts on its conversation; the run ends as its last worker did, or failed with the error of the handoff that could not be made, with the errors of all visits; the final calls are those of the visits in order |
| SwarmMode.ConversationIsHandedOn | src/blackgeorge/workforce.py:244-334 | Over a run with resumes, for every visit but the first: its job starts with exactly the messages of the report before it that are not system messages, in order, and last an answer to the handoff call; its input is the call's context if that is not empty, else that of the job before; and it is started with the tools of the job before |
| SwarmMode.ListIsHandedOn | src/blackgeorge/workforce.py:406-463 | With distinct names in the list of tools: over a run with resumes every worker works with that list or with its names only, and with the very list if every resume is made by the desk that paused the run |
| SwarmMode.HandsOverIff | src/blackgeorge/workforce.py:257-285 | A report that waits at a handoff call hands over if and only if the call names a worker that is registered and, if its tool lists agents, listed; otherwise the error says which of these was wrong |
| SwarmMode.CallsCountedOnceIff | src/blackgeorge/workforce.py:309-318 | Over a run with resumes: the final calls are those of the visits, each once, if and only if the run did not hand over once more after as many handoffs as the budget admits, or the worker that did so made no calls; a completed run always counts them once |
| SwarmMode.DoubledCalls | src/blackgeorge/workforce.py:309-318 | A concrete run of two workers with one call each that ends with three calls |
| SwarmMode.HandoffToolIsPlanned | src/blackgeorge/workforce.py:213-226 | The tool whose list of agents is looked at is the one that planning used with the same list |
| SwarmMode.ResumedHandoffToolIff | src/blackgeorge/workforce.py:406-463 | After a resume it is the one that the worker planned if and only if the job too has names only, or the last item of that name that stands for a tool is a name or the toolbelt's own tool |
| SwarmMode.SwarmKeeps | src/blackgeorge/workforce.py:294-334 | Whatever starting, resuming and handing over keep holds of every visit of a run and of the worker that waits |
| SwarmPairing.TransitionKeepsPairing | src/blackgeorge/workforce.py:257-285 | The next job's conversation has every call answered |
| SwarmPairing.SwarmStaysPaired | src/blackgeorge/workforce.py:294-334 | A swarm whose members are workers, through any number of handoffs, pauses and resumes: every worker starts on a fully paired conversation; what waits, waits for the one open call of its report; the report that completes the run has none open |
| SwarmMode.SwarmLoop | src/blackgeorge/workforce.py:302-334 | The while loop shared by run and resume equals `Go` |
| SwarmMode.DriveIsOrderly | src/blackgeorge/workforce.py:406-463 | Every resume keeps the order of the visits, the count and the history |
| VectorMemory.ChunkText | src/blackgeorge/memory/vector.py:31-51 | The while loop computes the overlapping chunks, also for sizes below one |
| VectorMemory.ChunksFit | src/blackgeorge/memory/vector.py:31-51 | A text not longer than the size, or any text for a size below one, is one chunk; a longer one is cut into chunks of exactly that size, only the last may be shorter, and each begins with the last characters of the one before, as many as were asked for, at least none and at most all but one |
| VectorMemory.ReassembleChunks | src/blackgeorge/memory/vector.py:240-252 | Reassembling the chunks gives the text, for every text, every size of at least one and every requested overlap |
| VectorMemory.RecordsHoldTheText | src/blackgeorge/memory/vector.py:182-252 | The records of an entry give back its text in whatever order they are returned and whatever the reading store's configuration |
| VectorMemory.VectorMemoryStore.Write | src/blackgeorge/memory/vector.py:200-225 | The collection holds the new text under scope and key, and everything else unchanged |
| VectorMemory.VectorMemoryStore.Read | src/blackgeorge/memory/vector.py:227-253 | The text last written under scope and key, or nothing |
| VectorMemory.VectorMemoryStore.Reset | src/blackgeorge/memory/vector.py:288-294 | Exactly the entries of the scope are gone |
| RunCosts.RunBalances | src/blackgeorge/core/usage.py:19-45 | A runner started or resumed at any depth keeps the totals at the sum of all turns, adds turns of its own workers only, and leaves every waiting worker with the sum of its own |
| RunCosts.TotalsAreConserved | src/blackgeorge/workflow/flow.py:450-451 | A whole run of a worker, a workforce or a flow with runners nested in it, every resume in a process that has only what was written out: the totals are the sum of all turns, and every turn of every worker began within the run's budget |
| RunCosts.SpendTakes | src/blackgeorge/worker_runner.py:731-777 | A worker takes all of its turns, or the first of them up to where more than the budget was spent |
| RunCosts.NothingSkipped | src/blackgeorge/core/usage.py:19-45 | Without a budget and without pauses every turn of every runner at any depth is recorded, in order |
| Structured.LastStageCalls | src/blackgeorge/adapters/litellm.py:408-422 | The last stage makes at most retries + 1 calls; each retried failure adds one correction made from its own error, seen by all later calls |
| Structured.PipelineIsBounded | src/blackgeorge/adapters/litellm.py:387-422 | At most retries + 3 calls for every sequence of replies, at most `retries` corrections, and a failure only by an error that no stage passes on or after all retries |
| Structured.PipelineDecides | src/blackgeorge/adapters/litellm.py:387-422 | The first good answer ends the pipeline with what it is worth, and a failure is that of the last call. With a schema the first call asks for JSON by schema; one for a JSON object, with the schema's prompt, follows if and only if schemas are not available or the answer does not fit; without one only the last stage is asked |
| Structured.ProviderErrorsAreRetried | src/blackgeorge/adapters/litellm.py:387-422 | For every schema and every call that raises: before the last stage another call follows if and only if the error says that the format is not supported; in the last stage if and only if fewer than `retries` calls of that stage came before it, whatever the error, although docs/adapters.md:57-59 says that such errors are never retried |
| Structured.RaisedInLastStage | src/blackgeorge/adapters/litellm.py:408-422 | The same for the last stage, entered with any progress and any number of attempts used |
| Structured.UnrelatedErrorIsRetried | src/blackgeorge/adapters/litellm.py:408-422 | A concrete request with a schema whose last stage is called a second time after an error that has nothing to do with the response format |
| Structured.CountsAddUp | src/blackgeorge/core/usage.py:12-16 | Prompt, completion and total tokens are each the sum over all answered calls, and unknown exactly while no call told any |
| Structured.StructuredRequest.Run | src/blackgeorge/adapters/litellm.py:309-319 | The pipeline in place equals `Pipeline`, and the usage is that of all calls made |
| Structured.StructuredRequest.Complete | src/blackgeorge/adapters/litellm.py:267-288 | A call that raises adds no usage |
| Subworkers.SlotsAreSound | src/blackgeorge/tools/swarm.py:180-257 | In every interleaving, with cancellation anywhere, `active_count` is the number of slots taken and neither committed nor given back, `spawn_count` that of successes, and their sum never exceeds `max_subworkers` |
| Subworkers.RejectedIff | src/blackgeorge/tools/swarm.py:182-257 | When no call is under way, a new one is rejected exactly when successes and lost slots use up the budget |
| Subworkers.LostIff | src/blackgeorge/tools/swarm.py:252-257 | A slot is lost if and only if some call was cancelled while it waited for the lock in its `finally` |
| Subworkers.OutcomeFollowsChild | src/blackgeorge/tools/swarm.py:180-257 | In every interleaving, for a call that nobody cancels: it commits its success if and only if its child returned well, and gives its slot back if and only if the child returned otherwise |
| Subworkers.NoSlotLeaks | src/blackgeorge/tools/swarm.py:182-257 | Unless that happened, a new call is rejected, when no call is under way, exactly when successes have used up the budget |
| Messaging.Channel.Receive | src/blackgeorge/collaboration/channel.py:86-112 | A clearing one-shot receive delivers what waits for the recipient, sorted by time, and marks exactly that as done for it alone |
| Messaging.SortedInOrder | src/blackgeorge/collaboration/channel.py:106-106 | What is delivered is all that waits, in the order of time, and in that of arrival where times are equal |
| Messaging.Channel.Broadcast | src/blackgeorge/collaboration/channel.py:60-80 | A broadcast waits for every recipient, once |
| Messaging.Channel.Clear | src/blackgeorge/collaboration/channel.py:123-131 | Clearing one recipient leaves the others alone; clearing all forgets everything |
| Sorting.SortedIsUnique | src/blackgeorge/memory/vector.py:239-239 | Records with distinct indices have one sorted order |
| Sorting.SortIsStable | src/blackgeorge/collaboration/channel.py:106-106 | Elements with the same key keep their order |

## Findings

The code is kept as it is where a plain reading of it promises more than it does:

- A pause fails the run if a step instance that its continuations mention occurs twice, as in a branch
  that holds the same step twice, or if an artifact, an accepted report or the runner's state has no
  JSON form; in a top-level flow `[Step(1), Step(1)]` the pause has no continuation and is stored
  (`PauseStoredIff`, `ReusedStepNotStored`, `UnwritableNotStored`, `UnwritableReportNotStored`,
  `UnwritableStateNotStored`).
- Artifacts and reports that JSON changes, such as tuples and models, come back changed, and callbacks
  and the final report can tell (`ChangedArtifactsShow`, `ChangedReportsShow`).
- After a Parallel, outputs are in another order once the flow was resumed, and callbacks can tell
  (`OrderShows`); `ParallelKeepsSiblings` says which callbacks cannot.
- A loop inside a loop of the same name resets the counter of the outer one, which then can run forever
  unless its limit is one (`SameNameBoundIff`).
- Duplicate names in `tools_override`: planning takes the last tool, a resume the first
  (`PlanAndResumeAgreeIff`, `DuplicateNamesDiffer`), and which one a resume sees depends on the store
  (`DuplicatesDependOnStore`), so a call planned behind a gate can be resumed with a tool that has none.
- Tools in `tools_override` are written as names, although docs/core-types.md:14 supports instances. The
  desk that paused a run puts them back, but not in a new process, and not into workers that run inside a
  workforce or a flow, nor for those that sequential collaboration starts after a resume. There a tool is gone that
  the toolbelt does not have (`InstanceIsLost`, `LostToolIsRefused`, `LostToolShows`), and one of the same
  name with another gate runs past it (`ApprovedWithoutInput`); `RunsSafelyIff`, `WrittenGatesIff`,
  `WrittenToolsIff` and `ResumedHandoffToolIff` say exactly when that does not happen.
- A swarm that hands over once more than its budget admits counts the calls of its last visit twice
  (`CallsCountedOnceIff`, `DoubledCalls`).
- The last stage of the structured pipeline retries every exception, unlike docs/adapters.md:57-59
  (`ProviderErrorsAreRetried`, `UnrelatedErrorIsRetried`).
- A subworker call that is cancelled while it waits for the lock in its `finally` loses its slot
  (`LostIff`). Within one event loop the lock is never contended, because its sections await nothing,
  so no call ever waits there.

## Left out

- ParallelKeepsSiblings: with a failing branch only status, answers and an upper bound on the history are stated, because the source drops every sibling then.
- PauseAndResumeIsTransparent: trees with Parallel are the subject of ParallelKeepsSiblings.
- LoopBoundAcrossPauses: after a Parallel the bound is on totals, because only the bag of events is known to agree with the in-place run.
- SameNameBoundIff: the loops inside are `Valid` themselves, and the run is the one in which every pause is answered on the spot; the other theorems leave out trees with such loops.
- Gather: branches run one after the other, while the source interleaves them where they wait; EitherOrder says that branches that are apart may change places.
- PauseFlow: the stored usage totals are the subject of RunCosts, and the flow signature is not modelled.
- Resume: the check of the flow signature against changed trees is not modelled, nor are loops renamed between rebuilds; the restored totals are the subject of RunCosts.
- TotalsAreConserved: the branches of a Parallel make their turns one branch after the other; token counts are summed in the same way and are not modelled there.
- RecordTurn: the token counts that are added beside the cost are not modelled.
- IndexedStreamsAreGrouped: streams whose ids and indices disagree are routed by the first key that is known; FragmentGoes says where each fragment goes, and of the whole only FragmentsConserved is stated.
- PositionedStreamsAreGrouped: streams in which a key arrives after the arguments of its call are complete, or a name that cannot be part of it, are left to FragmentGoes.
- FragmentsConserved: streams that switch to message payloads are excluded, because a payload replaces what was collected (PayloadReplaces).
- WholeRunIsSafe: call ids are assumed new and distinct, and what else JSON changes in a job is not modelled; runs that end failed keep limits and gates but not the pairing, because a turn beyond the call budget leaves calls unanswered.
- SwarmStaysPaired: the report that completes the run is the last worker's; the merged messages of a swarm report, which are taken from the history only and deduplicated by id, are not modelled.
- Read: values are compared as the texts that were stored; decoding JSON on reading is not modelled.
- Executables that users define, plain reports as step outputs, stream flags, events, and how report contents are combined.
- Structured output inside a worker is one kind of final reply; exceptions that propagate out of a worker are not modelled.
- Whitespace and case of a confirmation are handled for ASCII only.
- Python integers used as booleans and unusual types of decisions; a decision is a flag, nothing, or a text.
- The parallel path of collaboration, managed mode, and the cancellation of its workers.
- Token counting, prices, summary texts, embeddings, search ranking and the database behind the vector store, including deletions that fail silently.
- Blackboard, evaluations, command line, logging and the in-memory stores.
