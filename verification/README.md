# Verified model of the Synthia runtime

A Dafny model of the parts of Synthia whose correctness depends on more than one
function: the formal G4 flow, the worker's job runtime, the self-evolution
scheduler, the agent loop and its conversations, the GJB stage chain, and the
text transformations for Word documents, ZIP packages, Verilog sources and
evidence files. `dafny verify dfyconfig.toml` checks all of it.

Code that mutates fields or local variables is a class or a method with loops;
its `ensures` equate the new state with a specification function, and lemmas
prove what the repository promises of that function over every input or every
run. What the outside world answers (a model, Core, a clock, a file write, a
crash) is always an arbitrary parameter: a choice, a script or an action.

## What is modelled

**Formal G4 flow** (`FormalCore`, `FormalFlow`, `FormalSafety`,
`FormalGuarantees`, `FormalOutcome`, `FormalAdvance`, `FormalCompletion`). Core is a server with
durable records that is idempotent per key; the runtime is a state machine that
may die between any two awaits, before or after the effect, and starts again
from the last saved progress. Jobs move on in Core and other clients act at any
time. Every run keeps one invariant, from which follow: at most one job created
for the runtime per operation, under whatever key, submission in order, facts
that never change, a complete binding chain at the gate, a release that names
that chain, and a way on to the gate from every point of every run. `advance`
itself is the class `FormalFlowOrchestrator`; its contract determines Core, the
saved progress and the outcome for every fate of every await. It does so twice:
by the state machine, and by what the call has asked and been told, where
`FormalOutcome` says field by field when a reply fits and which outcome follows
from the last one.

**Worker** (`WorkerModel`, `WorkerSafety`, `WorkerGuarantees`, `WorkerHistory`,
`WorkerRuntime`).
Each stretch of code between two awaits is a step; submissions, cancellations,
ends of awaits, snapshots and crashes interleave freely. Two windows in the code
are kept, each with its exact condition. A cancellation that arrives while the
workspace is being made is forgotten in the job's state, although the comment at
connector/worker.ts:155-157 says that it takes effect: `CancelHonoured` shows
that a cancellation is certain to be honoured if and only if it does not arrive
then. (The abort signal stays set and is handed to the executor, which may or
may not look at it; the executor's answer is arbitrary here.) A failing write of the output overwrites a terminal state:
`TerminalIsFinal` shows that a terminal state is final if and only if the output
is not still being written (or the state is already `failed`). `WorkerHistory`
reads the state and the error code of every job off the submissions, cancellations
and answers since the last crash, without the functions that compute them.

**Self-evolution scheduler** (`EvolutionModel`, `EvolutionHistory`,
`EvolutionGuarantees`, `EvolutionAnswers`, `EvolutionScheduler`). The claims are
about the whole history of events, with a clock that may go backwards, manual
runs reported while an await is pending, switches and restarts from saved fields.
The history also takes down what workers, schedule and host have answered, and
`EvolutionAnswers` says what each answer counts for, and that none is missed.

**Agent loop** (`Conversation`, `ConversationRecovery`, `AgentLoop`,
`AgentRuns`, `ContextView`). Which conversations `restoreConversationMessages`
accepts and what it returns; one prompt with its tool batches, steering, aborts,
the claim check and every save; any number of processes that die at any await
and take up a saved copy; the view of a long conversation given to the model.
The model's claim that a simulation passed is an arbitrary predicate on texts.

**Stage chain** (`StageChain`, `RepairLoop`). The legacy chain with its gates,
over any number of processes that crash anywhere and take up the saved state.
Besides the order of gates and stages, the contents of the snapshots put up for
review are followed. `resume` restores the chain context
(runtime/loop.ts:632-635), `run` does not (runtime/loop.ts:196-205). For every
process, however it is started, a snapshot holds a revision of every stage under
review if and only if each of these stages is run by the process or has a
revision in the context it begins with (`Live`). So as long as no process is
started by `run` in the middle of the chain all snapshots are full, and one
started there puts up a full one if and only if the gate reviews no stage before
its first (`StartedMidway`); `Restarted` gives the saved state and the run in
which G3 then lacks the architecture. The chain also goes on when it should: from
every state earlier processes have left there is a process that resumes it and
ends with all eleven stages run and all four gates approved (`CanFinish`), while
one started by `run` behind the RTL never does (`Live`). Loops with a negative number of repair rounds are the
one exception in the repair loops: they simulate nothing and return.

**Text** (`TextSearch`, `RunReplacement`, `XmlText`, `XmlElements`,
`DocxReplace`, `DocxExact`, `DocxEditor`, `DocxDocument`, `DocxReread`,
`ZipDirectory`, `VerilogLexer`, `Base64`, `EvidenceExchange`). Find/replace over
text runs is plain string replacement, down to the document read back. At
runtime/ooxml-docx.ts:235 the code looks for a run's text in the whole element
and may find it in the opening tag (a run `w` in `<w:t>`); `WriteBackAstray`
gives the input, and `ParagraphExactly` and `DocumentRefinesReplace` the exact
condition under which a paragraph and a document read back as edited. It only
concerns paragraphs in which something is replaced. "Read back" is by the
editor's own scan; `OutsideExactly` says exactly when nothing but the texts of
runs is touched (an unchanged run `"` is written into an attribute of its own
tag as `&quot;`), and `TagCanClose` shows a tag that becomes `</w:p>`.

## Model

| member | source | states |
|---|---|---|
| FormalCore.JobKeyInjective | runtime/formal-flow.ts:1122-1126 | two jobs share an idempotency key only if they are the same operation of the same approval |
| FormalCore.SubmitKeeps | runtime/formal-flow.ts:1043-1047 | a submission, new or replayed, keeps Core's records sound, changes none of them, and brings at most its own key into use |
| FormalCore.HandleKeeps | runtime/formal-flow.ts:1043-1047 | the same for every request: records only grow, jobs only move on, terminal jobs stay |
| FormalSafety.OnApprovalBound | runtime/formal-flow.ts:1103-1116 | an accepted approval is the one in Core, matches the preview, and what is then saved is bound to it |
| FormalSafety.OnJobBound | runtime/formal-flow.ts:1119-1140 | a job answered for a key is recorded bound to the approval, without disturbing any other record, and only a succeeded one leads on to its evidence |
| FormalSafety.OnEvidenceBound | runtime/formal-flow.ts:1141-1172 | evidence is recorded only verified and of a job that succeeded; evidence read again must equal the recorded one |
| FormalSafety.OnEvaluationBound | runtime/formal-flow.ts:1175-1192 | a recorded evaluation is the verified one in Core under the deterministic id, with all four jobs evidenced |
| FormalSafety.OnSubmissionBound | runtime/formal-flow.ts:1194-1208 | the gate is awaited only after a submission that references the recorded evaluation |
| FormalSafety.OwnKeyInOrder | runtime/formal-flow.ts:1118-1126 | what the runtime submits adds its own key only, with all earlier operations evidenced |
| FormalSafety.StepKeeps | runtime/formal-flow.ts:1101-1209 | every step, including a crash before or after an effect, another client's request and a job moving on, keeps the invariant and takes back no saved fact and no record |
| FormalSafety.RunKeeps | runtime/formal-flow.ts:1101-1209 | the same for every run |
| FormalGuarantees.OwnStepNew | runtime/formal-flow.ts:1118-1126 | one request of the runtime makes Core create one job or none: under the key of its approval and operation, which was not in use, with all earlier operations done at that moment; no other key comes into use |
| FormalGuarantees.OwnLedger | runtime/formal-flow.ts:1118-1133 | over every run, the jobs created for the runtime are of different operations, and a key of the flow comes into use in no other way |
| FormalGuarantees.AtMostOneJob | runtime/formal-flow.ts:1118-1133 | however often the runtime dies and restarts, Core creates at most one job for it per operation, under whatever key; each is under the key of its approval and operation, and the job recorded for an operation is that one |
| FormalGuarantees.SubmittedInOrder | runtime/formal-flow.ts:1118-1173 | at the moment the runtime has a job created, every earlier operation has succeeded with verified evidence already saved |
| FormalGuarantees.KeyUsedInOrder | runtime/formal-flow.ts:1118-1173 | once the key of an operation is in use, every earlier one has succeeded with verified evidence already saved |
| FormalGuarantees.FactsNeverChange | runtime/formal-flow.ts:1101-1209 | recorded approval, job ids, evidence and evaluation never change in any later run |
| FormalGuarantees.AwaitingIsChained | runtime/formal-flow.ts:1011-1041 | whenever a saved progress awaits the gate, all four jobs and their evidence carry the approval's input and toolchain hash, and the evaluation is of the same submission, snapshot and profile |
| FormalGuarantees.VerifyReleased | runtime/formal-flow.ts:1211-1236 | returns the first listed release with the evaluation's release id exactly if it matches the flow, and otherwise the error of the check that fails |
| FormalGuarantees.ReleaseNamesTheChain | runtime/formal-flow.ts:1211-1236 | a release that matches the saved progress of any run names the approval and the evaluation of that flow, with its sealed hash |
| FormalAdvance.DriveIsRun | runtime/formal-flow.ts:1101-1209 | whatever one call of `advance` does, cut off anywhere, is a run of the state machine that ends stopped |
| FormalAdvance.AdvanceKeeps | runtime/formal-flow.ts:1101-1209 | one call keeps the invariant and takes nothing back |
| FormalOutcome.OutcomeMeans | runtime/formal-flow.ts:1101-1209 | what each outcome says of the saved progress and of Core: the gate with evaluation and all evidence saved, a running or failed job saved in that state with all earlier operations evidenced, an unconfirmed input not in Core |
| FormalOutcome.EarlierEvidenced | runtime/formal-flow.ts:1118-1173 | whenever something is asked after the evidence of an operation, that evidence is saved |
| FormalOutcome.ChecksAgree | runtime/formal-flow.ts:980-1041 | the four checks of replies are the field-by-field equations on approval, job, evidence and evaluation |
| FormalOutcome.ToldMore | runtime/formal-flow.ts:1101-1209 | one more reply continues the account of a call: it is learned, and ends the call or lets it go on |
| FormalOutcome.BackedMore | runtime/formal-flow.ts:1043-1047 | whatever has been told stays on record in Core while the call goes on |
| FormalAdvance.FormalFlowOrchestrator.Ask | runtime/formal-flow.ts:1106-1126 | a call to Core changes Core and the position of the code exactly as the state machine does, for each of its three fates |
| FormalAdvance.FormalFlowOrchestrator.Keep | runtime/formal-flow.ts:1133-1133 | saving progress, likewise |
| FormalAdvance.FormalFlowOrchestrator.Advance | runtime/formal-flow.ts:1101-1209 | `advance` leaves Core, the saved progress and the outcome that driving the state machine with the same fates leads to; and, apart from the state machine, it asks in the order of its agenda, each request rightly made, ends with each outcome exactly for the last reply that calls for it, and saves what was learned; it waits for the gate only with the evaluation and all evidence saved, for a job or with its failure only if that job is saved so with all earlier ones evidenced, and for the input only if the approval is not in Core |
| FormalAdvance.FormalFlowOrchestrator.RunOperation | runtime/formal-flow.ts:1118-1173 | the loop body takes the state machine from one operation to the next, or stops as it does; it has then asked for the job and its evidence, or ended as its last reply calls for |
| FormalAdvance.FormalFlowOrchestrator.CollectEvidence | runtime/formal-flow.ts:1141-1172 | the evidence part of it, for evidence read again and evidence frozen |
| FormalAdvance.FormalFlowOrchestrator.SubmitForReview | runtime/formal-flow.ts:1175-1208 | evaluation and submission, likewise |
| FormalCompletion.StartAgain | runtime/formal-flow.ts:1101-1117 | whatever the runtime was doing, it can be started again and comes to its first operation |
| FormalCompletion.FinishFrom | runtime/formal-flow.ts:1118-1173 | from every operation there is a way through the remaining ones |
| FormalCompletion.CanFinish | runtime/formal-flow.ts:1043-1047 | from every point of every run, with the input confirmed and nothing in Core against the flow, there is a continuation that awaits the gate |
| WorkerSafety.PumpKeeps | connector/worker.ts:175-175 | pumping keeps the invariant, leaves no slot free while a job waits, and starts only queued jobs that are not over |
| WorkerSafety.StepStateKeeps | connector/worker.ts:151-215 | every step of the process keeps slots, queue order, run phases and job states consistent |
| WorkerGuarantees.RunKeeps | connector/worker.ts:66-88 | so does every interleaving with snapshots, crashes and restarts |
| WorkerGuarantees.QueueSafety | connector/worker.ts:172-215 | in every interleaving of a process the slots in use are the runs in progress and within the cap, no slot is free while a job waits, starts follow submission order, and no id is queued, started or executed twice by it |
| WorkerGuarantees.FinalRun | connector/worker.ts:204-211 | a state that is final stays, and a job that is over is never run again, as long as the process lives |
| WorkerGuarantees.CancelledInQueue | connector/worker.ts:160-163 | a job cancelled while it waits is never started and never executed, and stays cancelled |
| WorkerGuarantees.CancelDuringSetupForgotten | connector/worker.ts:181-184 | a cancellation that arrives while the workspace is made leaves no trace in the states of jobs or in the queue once it has been made |
| WorkerGuarantees.CancelLost | connector/worker.ts:181-191 | the run of such a job that ends in success |
| WorkerGuarantees.CancelHonoured | connector/worker.ts:151-167 | a cancellation is certain to end in `cancelled`, whatever the executor does, if and only if the workspace is not being made when it arrives |
| WorkerGuarantees.LateWriteFails | connector/worker.ts:191-211 | a failing write of the output turns any other terminal state into failed |
| WorkerGuarantees.TerminalIsFinal | connector/worker.ts:191-211 | a terminal state is final if and only if the output is not still being written |
| WorkerGuarantees.RestartIsSafe | connector/worker.ts:73-88 | after a restart exactly the newest 512 jobs are back, terminal ones unchanged and the others lost, none is queued, and none of them is ever started or executed |
| WorkerHistory.EveryJobIsTold | connector/worker.ts:151-215 | in every interleaving with snapshots and crashes, a job not read back from the registry file is exactly what the actions since the last crash tell: who submitted which request, whether its workspace could be made, whether its owner cancelled it before, in or after that, what the executor answered, and whether its output could be written |
| WorkerHistory.OutcomeBecause | connector/worker.ts:186-191 | a job is succeeded, timed out, lost or of unknown effect only if the executor has returned just that, was entered, and its owner had not cancelled it in between |
| WorkerHistory.AnswerDecides | connector/worker.ts:186-211 | what the executor returns decides state and error code for good: failed for a failure, with the returned code, and so on for each outcome, unless it was cancelled meanwhile or its output could not be written |
| WorkerHistory.FailureDecides | connector/worker.ts:204-211 | so do an executor that throws and a workspace that cannot be made: cancelled if its owner had asked for it, and failed with WORKER_EXECUTION_ERROR otherwise |
| WorkerRuntime.Runtime.constructor | connector/worker.ts:88-88 | a new process has the state the registry file calls for |
| WorkerRuntime.Runtime.TakeNext | connector/worker.ts:175-175 | one turn of the pump loop on the fields |
| WorkerRuntime.Runtime.Pump | connector/worker.ts:175-175 | the loop makes all the turns the specification makes, and leaves no slot free while a job waits |
| WorkerRuntime.Runtime.Submit | connector/worker.ts:172-172 | a new id is registered, queued and pumped; a known one changes nothing and is answered by its job, by `JOB_NOT_FOUND` exactly if the binding differs, and by `IDEMPOTENCY_CONFLICT` exactly if only the request does |
| WorkerRuntime.Runtime.Cancel | connector/worker.ts:151-167 | with the right binding a running job becomes cancelling, a queued one cancelled, and a terminal one stays; nothing else changes |
| WorkerRuntime.Runtime.AfterSetup | connector/worker.ts:181-185 | the run enters the executor, or takes the catch clause |
| WorkerRuntime.Runtime.AfterExecution | connector/worker.ts:186-200 | a cancelled run ends cancelled whatever was returned; otherwise each of the five outcomes gives its own state, and a returned error code is kept |
| WorkerRuntime.Runtime.AfterOutput | connector/worker.ts:193-204 | the run goes on to save, or takes the catch clause |
| WorkerRuntime.Runtime.AfterSave | connector/worker.ts:203-215 | the run frees its slot and pumps |
| WorkerRuntime.Runtime.Catch | connector/worker.ts:204-214 | cancelled stays cancelled and is saved; anything else fails with an error code and ends |
| WorkerRuntime.Runtime.Finish | connector/worker.ts:212-215 | the controller and the slot are released and the queue is pumped |
| WorkerRuntime.Runtime.WriteSnapshot | connector/worker.ts:73-87 | the file holds exactly the newest 512 jobs with their bindings, each id once |
| EvolutionHistory.ObserveTimeKeeps | runtime/evolution-scheduler.ts:370-375 | a reading, also one that goes backwards, keeps every claim about the history |
| EvolutionHistory.ObserveIdleKeeps | runtime/evolution-scheduler.ts:377-385 | the idle start always stands for an unbroken window of idle answers |
| EvolutionHistory.RunLaneKeeps | runtime/evolution-scheduler.ts:466-504 | an attempt waits out every failure of its series; its outcome keeps the claims |
| EvolutionHistory.EnsureAndRunKeeps | runtime/evolution-scheduler.ts:420-464 | the schedule is ensured only in a full window and interval; what follows keeps the claims |
| EvolutionHistory.TickKeeps | runtime/evolution-scheduler.ts:267-368 | every tick, however it ends, keeps the claims |
| EvolutionGuarantees.RunKeeps | runtime/evolution-scheduler.ts:223-368 | so does every history of ticks, manual runs, switches and restarts |
| EvolutionGuarantees.CuratorHistory | runtime/evolution-scheduler.ts:309-406 | whenever the schedule is ensured at t, every probe since some s at least the required idle span earlier answered idle, no reading since s went backwards, no Curator attempt ended since s, and every recorded success lies an interval back; that every run is recorded is `EvolutionAnswers.EveryRunCounts` |
| EvolutionGuarantees.BackoffBound | runtime/evolution-scheduler.ts:506-514 | after its k-th failure in a row a lane is not tried again before min(max, base times 2^min(k-1,52)), across rollback and restarts |
| EvolutionGuarantees.SeriesSpan | runtime/evolution-scheduler.ts:473-514 | the failures of a series lie apart by at least all the delays between them |
| EvolutionGuarantees.DelayGrows | runtime/evolution-scheduler.ts:506-514 | delays double up to the maximum and never shrink |
| EvolutionGuarantees.SnapshotIsValid | runtime/evolution-scheduler.ts:248-264 | every snapshot between ticks passes the validation of saved fields |
| EvolutionGuarantees.TickSame | runtime/evolution-scheduler.ts:267-368 | what a tick does and returns depends on the saved fields alone |
| EvolutionGuarantees.RestoreIsFaithful | runtime/evolution-scheduler.ts:206-214 | a restored scheduler gives the same results on the same later ticks, manual runs, switches and restarts, and ends with the same fields |
| EvolutionGuarantees.QuietTick | runtime/evolution-scheduler.ts:267-368 | a healthy scheduler ensures its first schedule in the first quiet tick that completes the idle span, and not before |
| EvolutionAnswers.EveryRunCounts | runtime/evolution-scheduler.ts:229-246 | over every history: the last success is no earlier than any Curator run answered as completed, with no nested result or one in state `completed`, or any completed real manual run, and is the time of one of them or was saved before; once such a run has ended at u the schedule is not ensured before u plus an interval |
| EvolutionAnswers.EveryAnswerCounts | runtime/evolution-scheduler.ts:420-514 | a lane fails right after its worker or schedule answered so, or gave no proper answer, at that time, and then only; it recovers right after an idle or completed answer, an empty schedule or a success, and then only |
| EvolutionAnswers.TickTells | runtime/evolution-scheduler.ts:267-368 | no answer is missed: what the Distiller answers is taken down unless it backs off or the tick is aborted, and in a tick that ensures the schedule so are the schedule's answer and the Curator's, with their times; the result says what they were |
| EvolutionAnswers.CompletionCounts | runtime/evolution-scheduler.ts:342-347 | after any history, a tick in which the schedule is ensured and the Curator completes leaves a last success no earlier than the end of that run |
| EvolutionScheduler.Scheduler.constructor | runtime/evolution-scheduler.ts:169-221 | the fields are the saved ones, and the claims hold |
| EvolutionScheduler.Scheduler.SetEnabled | runtime/evolution-scheduler.ts:223-227 | switching off breaks the idle window |
| EvolutionScheduler.Scheduler.ObserveTime | runtime/evolution-scheduler.ts:370-375 | the fields after a reading, and whether it went backwards |
| EvolutionScheduler.Scheduler.ObserveIdle | runtime/evolution-scheduler.ts:377-385 | the fields after a probe |
| EvolutionScheduler.Scheduler.CuratorSkip | runtime/evolution-scheduler.ts:387-406 | the first reason not to run, in the code's order |
| EvolutionScheduler.Scheduler.RecordFailure | runtime/evolution-scheduler.ts:506-514 | one failure more, and the delay for it |
| EvolutionScheduler.Scheduler.RecordCuratorSuccess | runtime/evolution-scheduler.ts:516-523 | the last success never moves back, and the Curator lane is healthy |
| EvolutionScheduler.Scheduler.RecordManualCuratorRun | runtime/evolution-scheduler.ts:229-246 | only a completed real run counts |
| EvolutionScheduler.Scheduler.RunLane | runtime/evolution-scheduler.ts:466-504 | the fields, the rollback flag and the result of a lane |
| EvolutionScheduler.Scheduler.EnsureAndRunCurator | runtime/evolution-scheduler.ts:420-464 | likewise for the Curator with its schedule |
| EvolutionScheduler.Scheduler.Tick | runtime/evolution-scheduler.ts:266-368 | the fields and the result of a tick, for every answer of workers, probe and clock; every persistent run is counted at its end, and in a tick that ensures the schedule every answer is heard |
| Conversation.RestoreConversation | runtime/free-agent.ts:1580-1605 | the loop with its pending map computes the restored conversation, or rejects at the first unmatched result |
| ConversationRecovery.AcceptedExactly | runtime/free-agent.ts:1593-1597 | a history is accepted if and only if every tool result answers, for the first time, a call of the turn it follows |
| ConversationRecovery.OriginalsKept | runtime/free-agent.ts:1598-1598 | the restored history holds the original messages in order |
| ConversationRecovery.SettledComplete | runtime/free-agent.ts:1580-1605 | when nothing waits at any turn, every call has its result before the next turn |
| ConversationRecovery.RestoredConversation | runtime/free-agent.ts:1580-1605 | restoring puts in nothing but interrupted results, each with the id and name of a call of the turn it follows, and gives every call exactly one result before the next turn |
| ConversationRecovery.RestoreIdempotent | runtime/free-agent.ts:1580-1605 | restoring once more changes nothing |
| ConversationRecovery.BatchPending | runtime/free-agent.ts:1181-1217 | a batch with distinct ids, answered in order, is accepted after every result and leaves exactly the later calls waiting |
| ConversationRecovery.BatchAccepted | runtime/free-agent.ts:1181-1217 | whatever the ids, the results so far are accepted if and only if the calls they answer have distinct ids |
| AgentLoop.Session.constructor | runtime/free-agent.ts:643-660 | a session starts from any conversation that can be restored, behind a new system prompt, with the steering and claim checks saved with it |
| AgentLoop.Session.ConsumeSteer | runtime/free-agent.ts:748-752 | pending steering becomes one user message, in which every correction stands whole, in order and on lines of its own, and is gone |
| AgentLoop.Session.Persist | runtime/free-agent.ts:720-720 | the conversation as it is has been saved, and can be restored |
| AgentLoop.Session.Request | runtime/free-agent.ts:1062-1079 | at most one repetition per prompt, and the reply given is the last one received |
| AgentLoop.Session.RunCall | runtime/free-agent.ts:1190-1219 | one call of a batch: its result is recorded and saved, or the batch stops where it is |
| AgentLoop.Session.RunTools | runtime/free-agent.ts:1181-1219 | the turn is recorded first, then the results of its calls in order; it ends early only for an abort, a failure or a dead process, with the answered part of the batch saved |
| AgentLoop.Session.InterceptClaim | runtime/free-agent.ts:1120-1151 | an intercepted claim stands in the conversation as a call and its failed result, and is saved |
| AgentLoop.Session.AnswerClaim | runtime/free-agent.ts:1119-1163 | two interceptions, then the fixed fallback |
| AgentLoop.Session.AcceptText | runtime/free-agent.ts:1112-1179 | what a text turn appends, returns and counts in each case |
| AgentLoop.Session.TakeTurn | runtime/free-agent.ts:1097-1220 | a text turn leaves the nudge, the corrections, the intercepted claim, the fallback or the text, each in its own case alone; and for a batch of calls the turn and its results in order |
| AgentLoop.Session.BeforeRequest | runtime/free-agent.ts:1013-1024 | abort first, then steering, then the pre-check, each with its effect |
| AgentLoop.Session.RunLoop | runtime/free-agent.ts:1008-1228 | every outcome has the cause the code gives it, at most R+1 model calls for a limit of R rounds, at most two interceptions, no unsupported claim, and a conversation that can be restored at every save |
| AgentLoop.Session.Prompt | runtime/free-agent.ts:699-741 | the same for a whole prompt, which records and saves the user's message first and the conversation last; a running session refuses |
| AgentLoop.Session.Steer | runtime/free-agent.ts:743-746 | steering is queued and saved |
| AgentLoop.JoinStands | runtime/free-agent.ts:750-750 | in the joined text every correction stands whole at its place, and nothing else does |
| AgentLoop.CrashAndResume | runtime/free-agent.ts:1580-1605 | a copy saved by a run is accepted after a crash, and the next session may start from it |
| AgentRuns.RestoredGuarded | runtime/free-agent.ts:1580-1605 | the results a restart adds never come between a claim and the record that supports it |
| AgentRuns.Live | runtime/free-agent.ts:643-746 | whatever a process is asked and however far it comes, every copy it saves can be restored and holds no unsupported claim |
| AgentRuns.LiveAll | runtime/free-agent.ts:643-746 | over any number of processes, prompts, corrections and crashes no saved copy is ever refused, every call in the conversation taken up has its one result, and no reply that claims a passed simulation stands in it without a result of one before it |
| ContextView.TailSplitIndex | runtime/free-agent.ts:192-207 | the longest tail within the budget that does not reach the first message |
| ContextView.CompactForContextWindow | runtime/free-agent.ts:273-342 | the loop from the end computes the shortened view |
| ContextView.CompactIdempotent | runtime/free-agent.ts:268-342 | shortening what has been shortened changes nothing |
| ContextView.ShownExactly | runtime/free-agent.ts:273-342 | which messages are cut, if and only if, and to what: a result beyond those to be kept, or any over a full window, to the budget; a narration over a full window to twice the budget; with the number of missing characters |
| ContextView.DigitsReadBack | runtime/free-agent.ts:308-337 | that number is written in decimal digits |
| ContextView.LaterShown | runtime/free-agent.ts:892-950 | every message after the summarised part is shown once, in its place, with role and call ids, with or without summary and reference data |
| ContextView.ContextManager.MaybeCompactBySummary | runtime/free-agent.ts:958-1001 | exactly when a summary is made, which region it covers, and that it keeps the longest tail within the budget |
| ContextView.ContextManager.CompactAll | runtime/free-agent.ts:958-1001 | over any number of attempts of a process the summarised regions lie end to end |
| ConversationRecovery.UncoveredStays | runtime/free-agent.ts:640-657 | after a restart every message that was not covered by the saved summary still is not, whatever results are put in |
| ContextView.TilesCoverOnce | runtime/free-agent.ts:958-987 | regions that lie end to end cover every message between once |
| StageChain.GateAfter | runtime/types.ts:285-290 | which gate follows a stage, and that no other does |
| StageChain.ClearedAfterGate | runtime/loop.ts:712-721 | the stage after an approved gate is the next one, and all gates before it are approved |
| StageChain.FullExactly | runtime/loop.ts:909-931 | a snapshot has a revision for every stage its gate reviews if and only if each of them has registered one |
| StageChain.RevisionsExactly | runtime/loop.ts:909-931 | what is listed for a gate is exactly the revisions of the stages it reviews |
| StageChain.NeverEmpty | runtime/loop.ts:587-588 | after the stage before a gate there is always something to review |
| StageChain.MadeIsFull | runtime/loop.ts:896-933 | with everything up to the gate made, its snapshot is full |
| StageChain.SnapshotExactly | runtime/loop.ts:896-933 | in a process that has run everything from its first stage on, the snapshot of a gate is full if and only if every stage under review was run by it or had a revision in the context it began with |
| StageChain.CoveredByNothing | runtime/loop.ts:196-205 | a process that begins with nothing must itself run every stage under review |
| StageChain.LoopExecutor.SyncContext | runtime/loop.ts:1031-1057 | what is saved is the chain context, field by field, with sources and their revisions kept where the context has none; it stays consistent, and no source is lost |
| StageChain.LoopExecutor.RestoreContext | runtime/loop.ts:1058-1091 | a resumed process has the context that was saved |
| StageChain.LoopExecutor.RunStage | runtime/loop.ts:305-404 | a stage that ends well has left what it makes, has taken nothing away, and has given no earlier stage its first revision; with its sources there and all going well it ends well, and behind the RTL it cannot without the RTL |
| StageChain.LoopExecutor.ConformityGate | runtime/loop.ts:1156-1229 | only what is there can fail the checks; repairs before a gate take nothing away and give no stage its first revision; the first two gates have none |
| StageChain.LoopExecutor.Repair | runtime/loop.ts:1231-1246 | the failing documents, or the RTL, are written anew |
| StageChain.LoopExecutor.HandleGate | runtime/loop.ts:579-625 | the chain goes on only if governance has approved the gate; it pauses only with the gate saved as awaited; the one snapshot put up is that of the context, full exactly if the process covers what is under review, and the shortcut for an empty one is unreachable |
| StageChain.LoopExecutor.StageAndGate | runtime/loop.ts:301-416 | one turn: the stage is run once, after all gates before it, and its own gate is approved; once its state is saved it is run, and when all goes well the chain goes on |
| StageChain.LoopExecutor.ExecuteChain | runtime/loop.ts:287-419 | stages are run in order without a gap from the first one on, success means that all eleven have been run, by this process or before, and that all four gates are approved, and every snapshot is full exactly if the process covers what is under review; when all goes well and the sources are there it succeeds |
| StageChain.LoopExecutor.ResumeFromGate | runtime/loop.ts:631-710 | what governance answers decides: rejected ends closed, in review pauses at the gate again, approved at G4 succeeds once the state is saved, approved elsewhere runs the stage after the gate; without a pending gate the saved stage is run; when all goes well it succeeds; the branch for a missing submission id is unreachable |
| StageChain.LoopExecutor.MoveOn | runtime/loop.ts:687-702 | from an approved gate the chain continues at the next stage, which is run when state and stage are saved, and after the last gate it has succeeded |
| StageChain.LoopExecutor.Live | runtime/loop.ts:178-233 | one process from the saved state keeps all of this, however it ends; its snapshots are full if and only if it covers what is under review, by running it or with the context it begins with; when all goes well it succeeds if and only if it is not started by `run` behind the RTL |
| StageChain.LoopExecutor.StartedMidway | runtime/loop.ts:196-205 | started by `run` in the middle of the chain, a snapshot is full if and only if its gate reviews no stage before the saved one; from the register specification on, when all goes well, G3 is paused at with a snapshot that is not full |
| StageChain.Restarted | runtime/loop.ts:196-205 | a saved state from which `run` has G3 review the register specification alone, while `resume` has it review both documents |
| StageChain.LoopExecutor.LiveAll | runtime/loop.ts:178-233 | so does any number of processes, each taking up what the last one has saved |
| StageChain.LoopExecutor.CanFinish | runtime/loop.ts:631-710 | from every state any number of processes have left there is a process that resumes it and ends with every stage run and every gate approved |
| RepairLoop.SimulateStage.RunSimulateLoop | runtime/loop.ts:421-471 | which simulations are run, of which sources and testbench; on return the pair left in the context is the one that has just passed |
| RepairLoop.SimulateStage.RunExternalAcceptanceLoop | runtime/loop.ts:473-557 | every simulation uses the evaluator's testbench; on return the RTL left in the context has passed it |
| RepairLoop.SimulateStage.Run | runtime/loop.ts:354-361 | both loops together, with the bounds on simulations and repairs |
| RepairLoop.StoryAt | runtime/loop.ts:486-491 | the sources of each round are those of the repair before it, and an evaluator's testbench is the same in every round |
| RunReplacement.NodeAtOffset | runtime/ooxml-docx.ts:303-308 | the first run whose current text, placed at its original offset, holds the position |
| RunReplacement.CollectStarts | runtime/ooxml-docx.ts:261-269 | the offsets of the non-overlapping matches from left to right, or of the first |
| RunReplacement.EditedIsReplace | runtime/ooxml-docx.ts:259-294 | editing by match offsets is plain string replacement, in both modes, with as many matches as occurrences replaced |
| RunReplacement.LookupFindsOwner | runtime/ooxml-docx.ts:303-308 | while all edits lie to the right, the run that is found for a position is the one that held it originally |
| RunReplacement.MatchLocated | runtime/ooxml-docx.ts:281-283 | both ends of every match are found, in order, so the `continue` is never taken |
| RunReplacement.WrittenIsEditedRun | runtime/ooxml-docx.ts:284-293 | writing a match into the runs it spans gives each run its own stretch of the edited text |
| RunReplacement.UntouchedRunKept | runtime/ooxml-docx.ts:279-294 | a run no match touches keeps its text |
| RunReplacement.RunsRefineReplace | runtime/ooxml-docx.ts:259-300 | the runs join up to the plain replacement of the joined text, and the count is exact |
| RunReplacement.WriteMatch | runtime/ooxml-docx.ts:284-293 | the assignments of the loop body, run by run |
| RunReplacement.ReplaceRuns | runtime/ooxml-docx.ts:259-300 | the right-to-left loop gives each run its stretch of the edited text |
| XmlText.EscapeIsPerCharacter | runtime/ooxml-docx.ts:320-327 | five successive replacements are one per-character map |
| XmlText.EscapedHasNoMarkup | runtime/ooxml-docx.ts:320-327 | escaped text cannot open or close an element |
| XmlText.EscapeRoundTrip | runtime/ooxml-docx.ts:320-335 | unescaping what was escaped gives back every text |
| XmlText.NumericReference | runtime/ooxml-docx.ts:329-335 | a decimal or hexadecimal reference, with any leading zeros and in either case, is read as the code point its numeral spells, or is out of range |
| XmlText.HasNumeral | runtime/ooxml-docx.ts:329-335 | every number is spelt by some numeral |
| XmlText.NamedReferences | runtime/ooxml-docx.ts:320-335 | the five characters and the names they are written and read as |
| XmlText.ReferenceExactly | runtime/ooxml-docx.ts:330-330 | a reference is found if and only if the text begins with one of the five names or with digits between `&#` or `&#x` and a semicolon |
| XmlElements.ElementBodies | runtime/ooxml-docx.ts:230-245 | the offsets the pattern scan records delimit exactly the bodies a reader of the text finds |
| XmlElements.RebuildReread | runtime/ooxml-docx.ts:295-299 | text rebuilt with new bodies reads back with exactly those bodies |
| DocxReplace.WriteBackReread | runtime/ooxml-docx.ts:230-249 | with no run's text earlier in its own element, the written paragraph reads back as the values written |
| DocxReplace.ParagraphRefinesReplace | runtime/ooxml-docx.ts:251-301 | under that condition the edited paragraph reads as the plain replacement of the text it had |
| DocxExact.WriteBackExactly | runtime/ooxml-docx.ts:234-241 | a paragraph whose text elements are well formed, or have their texts where they are looked for, reads back as written if and only if no run that changes has its text in its own opening tag |
| DocxExact.ParagraphExactly | runtime/ooxml-docx.ts:251-301 | the same for a whole edit: if and only if nothing was replaced or that holds |
| DocxExact.OutsideExactly | runtime/ooxml-docx.ts:295-299 | everything outside the texts of the elements stays as it was if and only if no tag is written over with anything but what was there |
| DocxExact.WriteBackAstray | runtime/ooxml-docx.ts:235-235 | a run `w` whose edit is lost |
| DocxEditor.FindElements | runtime/ooxml-docx.ts:221-233 | the scan finds the leftmost matches of the pattern, each after the end of the one before |
| DocxEditor.ReadTextNodes | runtime/ooxml-docx.ts:230-245 | the texts of all runs and the offsets they are written to, or the error of a reference out of range |
| DocxEditor.ReplaceInsideParagraph | runtime/ooxml-docx.ts:251-301 | the method computes the specified edit of a paragraph |
| DocxEditor.WriteBack | runtime/ooxml-docx.ts:295-299 | the loop from the last run to the first writes every run |
| DocxDocument.EditsExactly | runtime/ooxml-docx.ts:48-59 | the edited paragraphs read as edited if and only if in none of them a run that changes is written over its own tag; nothing is asked of paragraphs in which nothing is replaced |
| DocxDocument.EditsRefineReplace | runtime/ooxml-docx.ts:48-59 | what is read then is plain replacement in all paragraphs, or in the first with a match |
| DocxDocument.EditsCount | runtime/ooxml-docx.ts:48-59 | the count is the number of occurrences, without any condition |
| DocxDocument.NotFoundExactly | runtime/ooxml-docx.ts:60-62 | "not found" is reported if and only if no paragraph's text holds the text looked for |
| DocxDocument.EditsFirst | runtime/ooxml-docx.ts:49-53 | a single replacement touches only the first paragraph that matches |
| DocxDocument.FirstMatch | runtime/ooxml-docx.ts:51-51 | the filter finds that paragraph |
| DocxDocument.ReplaceEverywhere | runtime/ooxml-docx.ts:48-59 | the loop from the last paragraph to the first computes the document with every paragraph edited |
| DocxDocument.ReplaceOnce | runtime/ooxml-docx.ts:48-59 | the same for a single replacement |
| DocxDocument.ReplaceDocumentText | runtime/ooxml-docx.ts:37-65 | the edited document part, or the error, for every document and every text |
| DocxReread.WrittenIsWhole | runtime/ooxml-docx.ts:221-228 | a paragraph written to is one paragraph again, closed at its end and nowhere before, even where texts are written over tags, as long as no tag becomes `</w:p>` |
| DocxReread.TagCanClose | runtime/ooxml-docx.ts:235-235 | the run `w:t` given the text `/w:p` makes its tag one |
| DocxReread.EditIsWhole | runtime/ooxml-docx.ts:221-228 | it never does in an edit that reads back as edited |
| DocxReread.DocumentRefinesReplace | runtime/ooxml-docx.ts:37-65 | the edited document is made of the edited paragraphs, each reading as edited, if and only if in no edited paragraph a run that changes is written over its own tag; its texts are then the plain replacement, and the count is exact in any case |
| ZipDirectory.SafeExactly | runtime/ooxml-docx.ts:202-205 | the check on names passes exactly the relative paths without backslash that never step up |
| ZipDirectory.InspectZipDirectory | runtime/ooxml-docx.ts:164-211 | the verdict for every byte sequence, with every read in range |
| ZipDirectory.InspectEntries | runtime/ooxml-docx.ts:175-210 | the loop over the entries gives the specified verdict |
| ZipDirectory.WalkTiles | runtime/ooxml-docx.ts:181-207 | an accepted walk has passed entries that lie end to end |
| ZipDirectory.TiledWalks | runtime/ooxml-docx.ts:181-207 | entries that lie end to end are accepted |
| ZipDirectory.AcceptedExactly | runtime/ooxml-docx.ts:164-211 | a package is accepted if and only if at most 256 plain, safely named entries of at most 8 MiB together tile exactly the announced stretch |
| ZipDirectory.VerdictExactly | runtime/ooxml-docx.ts:164-211 | which of the three errors a package gets: the limit for too many entries or a stretch past the end, the fault of the first faulty entry, or inconsistent length |
| ZipDirectory.ReadsBack16 | runtime/ooxml-docx.ts:175-190 | a 16-bit read gives v if and only if v is written there, least significant byte first |
| ZipDirectory.ReadsBack32 | runtime/ooxml-docx.ts:169-190 | the same for 32 bits |
| ZipDirectory.WrittenPackage | runtime/ooxml-docx.ts:164-211 | a directory and end record laid out as APPNOTE has them are found, and accepted if and only if there are at most 256 files, none encrypted or unsafely named, of at most 8 MiB together |
| VerilogLexer.StripVerilogLexical | connector/vivado.ts:158-168 | the index-driven loop computes what a character automaton keeps, which `VerilogLexer.StripIsCode` shows to be the code |
| VerilogLexer.StripIsCode | connector/vivado.ts:158-168 | every text is made of stretches of code, comments and strings, the last of which may be left open, and however it is divided into them exactly its code is kept, in its order |
| VerilogLexer.CodeAlone | connector/vivado.ts:158-168 | of a text written from such pieces the code alone is kept |
| VerilogLexer.CodeStays | connector/vivado.ts:165-165 | where the lexer is in code, a stretch with neither slash nor quote is kept unchanged between what stands around it |
| VerilogLexer.PlainText | connector/vivado.ts:165-165 | text with neither is left as it is |
| VerilogLexer.SlashStays | connector/vivado.ts:162-165 | a slash that opens no comment is kept |
| VerilogLexer.ClosedIsTransparent | connector/vivado.ts:158-168 | closed comments and literals inserted in code contribute nothing |
| VerilogLexer.CommentIsClosed | connector/vivado.ts:163-163 | every block comment is closed |
| VerilogLexer.LiteralIsClosed | connector/vivado.ts:164-164 | every string literal with its escapes is closed |
| VerilogLexer.LineCommentIsTransparent | connector/vivado.ts:162-162 | a line comment before the end of its line contributes nothing |
| VerilogLexer.TransparentExactly | connector/vivado.ts:158-168 | comments may be inserted without effect if and only if the lexer is in code and the last character is no undecided slash |
| VerilogLexer.BodiesDoNotCount | connector/vivado.ts:169-174 | what a comment or literal holds never counts as a declaration |
| VerilogLexer.DeclaredModules | connector/vivado.ts:170-174 | declarations are read off stripped text |
| VerilogLexer.AssertSimulateModules | connector/vivado.ts:175-182 | the totals kept in a map give the specified verdict, whose conditions are those of `VerilogLexer.JudgedExactly` |
| VerilogLexer.AcceptedExactly | connector/vivado.ts:175-182 | a simulation is accepted if and only if one source declares the top, once, and another one the testbench, once |
| VerilogLexer.JudgedExactly | connector/vivado.ts:175-182 | which verdict is given when, by the places of declarations in the stripped sources: missing if a module is declared nowhere, the role ambiguous if one source alone declares each once, accepted if two different ones do, and ambiguous otherwise |
| Base64.RoundTrip | connector/remote.ts:356-373 | decoding what was encoded gives the bytes back |
| Base64.Alphabet | connector/remote.ts:356-363 | the 64 characters in their order |
| Base64.SixBitsEach | connector/remote.ts:356-373 | three bytes are one number written in base 64, and shorter groups are padded |
| Base64.DecodableExactly | connector/remote.ts:356-363 | exactly the texts of the client's pattern can be decoded |
| Base64.DecodeBase64 | connector/remote.ts:356-373 | the loop decodes, and rejects everything else |
| EvidenceExchange.AssertEvidenceLimits | connector/worker.ts:234-234 | the worker's early-exit check is the conjunction of the three limits |
| EvidenceExchange.ManifestAccepted | connector/remote.ts:652-672 | exactly when the client accepts a manifest, and which of its two errors it gives otherwise; what it asks of sizes is what the worker asks |
| EvidenceExchange.PreviewShape | connector/worker.ts:227-231 | a preview is beginning, note and end, at most 257 KiB, and the note gives the number of bytes left out |
| EvidenceExchange.EvidenceContent | connector/worker.ts:216-233 | the reply for the first entry of the name, or the error of the first check that fails |
| EvidenceExchange.FetchEvidenceContent | connector/remote.ts:675-733 | the client's verdict on a reply |
| EvidenceExchange.ExchangeSucceeds | connector/worker.ts:216-233 | the client accepts the worker's reply for every file that matches its entry, and gets the exact bytes or the preview |
| EvidenceExchange.Exchange | connector/remote.ts:675-733 | worker and client together: the client gets the file or its preview if and only if the manifest keeps the limits and the first entry of the name describes and matches the file, and an error otherwise |
| EvidenceExchange.CompleteIsExact | connector/remote.ts:720-726 | bytes taken for a whole file are the file, whatever was sent |

## Left out

- DocxReplace.WriteBackReread: one direction only; its exact condition is `DocxExact.WriteBackExactly`.
- DocxReread.DocumentRefinesReplace: asks of every edited paragraph that each text element has its text found in its place or holds no `<` or `>` in text and tag; for an element with markup inside whose text is found too early nothing is stated.
- XmlText.UnescapeXml: a surrogate on its own is read as U+FFFD and a character is one Dafny character, so UTF-16 code units are not modelled.
- WorkerGuarantees.CancelDuringSetupForgotten: the abort signal is not part of the state; it stays set and is handed to the executor, whose answer is arbitrary.
- WorkerRuntime.Runtime.AfterSave: releasing the controller and freeing the slot are one step; in the code a microtask lies between them, in which a terminal job has no controller and still holds its slot.
- WorkerRuntime.Runtime.Submit: admission checks, the cache of replies per idempotency key, registration, lease and heartbeat are left out; the request is one that has been admitted.
- WorkerRuntime.Runtime.WriteSnapshot: the file write itself may happen at any time or not at all, and after a crash the file may be unreadable; input and output hashes and the evidence manifest of a job are not part of the snapshot modelled.
- FormalGuarantees.AtMostOneJob: starts from a Core in which no key of this approval is in use; a second flow for the same preview and task finds the keys and jobs of the first, which `FormalSafety.RunKeeps` covers only if they are in order.
- FormalCore.HandleKeeps: an assumption about Core in the form of a model; freezing evidence is idempotent per job rather than per key, and other clients do not use this flow's keys.
- FormalAdvance.FormalFlowOrchestrator.Advance: digests are an arbitrary function of the text, and cutting a digest to 48 digits is part of it; error codes taken over from a job are not modelled.
- EvolutionScheduler.Scheduler.Tick: timestamps are unbounded, so the range check of `safeTimestampAdd` is not modelled; `setEnabled` is called between ticks only.
- AgentLoop.Session.Prompt: prompts do not overlap and gate locks, permissions, hooks around tool calls, streaming and token accounting are left out.
- AgentLoop.Session.RunTools: call ids are distinct within a batch; what happens otherwise is stated by `ConversationRecovery.BatchAccepted`.
- ContextView.ContextManager.CompactAll: within one process; after a restart the saved index may cover fewer messages than were summarised, which are then shown in full as well.
- ContextView.LaterShown: says nothing about tool calls and results staying together, since the tail may begin inside a batch; the cost of a message is an arbitrary function.
- StageChain.LoopExecutor.ConformityGate: the checks on topic, names and ports are arbitrary answers about what is in the context; whether a document's text is there is taken to be whether its revision is.
- StageChain.LoopExecutor.Live: a process always has an agent state and writes it; a first run without one, audit, evidence summaries and the modern process plan are left out.
- VerilogLexer.DeclaredModules: the pattern for declarations is an arbitrary function of the stripped text.
- EvidenceExchange.CompleteIsExact: assumes that the digest is injective.
- EvaluatedGateOrchestrator and the stage flow of the modern process plan: the evaluation and submission steps of the formal flow once more, with fewer facts.
- Field-by-field parsers of Core's replies: each is a list of independent checks.
- ZIP compression, UTF-8 decoding, SHA-256 and the file system: parameters or assumptions.
- HTTP and Cloudflare transport, timers, process spawning and Tcl scripts: awaits that may succeed or fail.
- Constraint file policy, log digests, output capture, context budgets and evolution workers: small separate checks.
- The text of prompts and the patterns that recognise claims and oversize errors: arbitrary predicates.
