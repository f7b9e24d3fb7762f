# Zest: crash-safe execution, leases and the ledgers around them

A Dafny model of how Zest keeps one research run safe while processes crash, leases expire, operators interfere and
several dispatchers act on what they read earlier. `dafny verify dfyconfig.toml` checks everything.

## How it is built

The centre is a transition system (`Runs`): any number of controller processes, operators and crashes over one durable
store. Every transaction is one step, a process remembers what it read, and a crash may fall between any two steps. A step
that is not possible leaves the state alone, so a run is any sequence of steps, and a theorem about `Run(Initial(limits),
steps)` is about every interleaving. The steps are made of the functions that the imperative classes are proved equal to:

| module | what it holds |
|---|---|
| `Orchestration`, `Controller` | the orchestration row, its compare-and-set statements, fencing, and the controller's write paths |
| `Ledger`, `Store`, `Execution`, `Ingestion` | budget charges, attempts, the four transactions of an experiment, ingestion |
| `Statements`, `Outcomes` | what each statement, verdict and Worker answer leaves, stated on rows and answers alone |
| `Spine` | what each transaction keeps true of these tables |
| `Runs`, `Protocol`, `Dispatches`, `Uninterrupted` | the transition system; tables and Worker calls in every run; a process nobody interrupts |
| `Fencing`, `FencedCalls`, `SecondCalls`, `SecondAttempts`, `LateCalls`, `EndStates`, `Cycles`, `Boundaries`, `Restart`, `Takeovers`, `RunProvenance`, `RunOutcomes`, `Checkpoints`, `Ceilings`, `Liveness` | theorems over whole runs |
| `StaleOperator`, `Witnesses`, `LeaseWitnesses` | concrete runs in which a property fails |
| `Recovery`, `Supervisor` | restart classification; one supervisor thread, its registry and its heartbeat timing |
| `ObserverBrief`, `ObserverLimiter` | the observer's briefs, call limiter and cache |
| `Oast`, `Admissions` | callback admission by overlapping transactions; what each caller is told, and on whose verdict |
| `Redaction`, `Replay`, `SafeData` | redaction, replay documents, the secret walk |
| `V3Dispatch`, `V3Overlap`, `OutcomeFold` | unit dispatch over an audit ledger, one call after the other and overlapping; latest outcome per subject |

`Controller.CommandIsReadThenWrite`, `Controller.EndIsEndCycle` and module `Uninterrupted` tie the controller's and the
executor's functions to the steps; `Controller.CommandsThatEndTheRun` says which commands end a run.

A process holds a lease when its supervisor acquired one; every acquisition starts a process of its own. Its saves and its
Worker are then fenced by (owner, epoch). Processes without a lease are modelled too.

## Where the code and its intent part

The model follows the code. Eight things follow that its documentation does not say.

* A dispatch sets the attempt's state without looking at it, and a charge already on the ledger is skipped silently. Two
  unleased processes that both read AUTHORIZED therefore both call the Worker
  (`Dispatches.StaleDispatchCallsTheWorkerTwice`). Requests are dispatched once exactly when no dispatch commits over an
  attempt that has left AUTHORIZED. With leases, the check in front of the Worker keeps each request to one call as long as
  no accepted unfenced write carries another epoch than the row.
* A save writes the whole record, lease columns included, and operator commands save unfenced. One that saves a record read
  before a takeover revives the old lease (`StaleOperator.StaleCommandRevivesOldLease`), and leased processes then call the
  Worker twice for one request (`Witnesses.StaleCommandLetsLeasedProcessesCallTwice`). A second pass always needs the
  second process to have wanted the request already, and its lease to be honoured again in between
  (`SecondCalls.SecondPassNeedsRevival`); the stale write behind it may lie before both calls
  (`Witnesses.StaleCommandMayPrecedeBothCalls`). Epochs never fall exactly when no such write is accepted. It also lets a superseded
  process commit a second hooked attempt (`LeaseWitnesses.StaleCommandLetsTwoAttemptsThrough`). Commands whose read and save
  nothing comes between never do this, so leased runs of that kind need no condition (`Boundaries`).
* The constructor of `LeaseConfig` checks heartbeat < ttl. Ticks up to `gap` apart with renewals taking up to `latency` need
  heartbeat + gap + 2 * latency <= ttl (`Supervisor.LeaseHeldExactlyWithin`, and on the row `Liveness.RowKeptExactlyWhen`).
* Even then the lease can be lost with every renewal accepted: a command read before a renewal and saved after it, under the
  same epoch, puts the older expiry back (`LeaseWitnesses.OldExpiryLosesTheLease`). The row's expiry is what the last
  acquisition or renewal granted exactly while no save carries another expiry (`Liveness.ExpiryIsGrantedExactly`).
* `mark_operational_failure` of a RUNNING run through a fenced repository always raises, because the two guards exclude each other
  (`Orchestration.ReconciliationNeverPassesFencedSave`).
* Neither the dispatch transaction nor the Worker's lease check looks at the state of the run. A run that is cancelled before
  its attempt is dispatched is dispatched, charged and called all the same
  (`Witnesses.CancelledRunStillCallsTheWorker`). After the end only processes already past their entry checks act, and only
  those unleased or holding the row pass the lease check (`LateCalls.OnlyLateProcessesAct`); `LateCalls.CallsExactlyWhenAble`
  says which of them a call is open to.
* The entry checks stop whoever enters while an attempt is open, not whoever is past them already: a dispatcher that read
  AUTHORIZED before can still call the Worker for the open attempt (`Takeovers.LateDispatcherCallsWhileOpen`). Only such
  processes act while attempts are open (`Restart.OnlyEnteredProcessesAct`), and with leases a takeover shuts them out of
  the Worker unless a stale write intervenes (`Takeovers.TakeoverStopsTheWorker`).
* Two overlapping dispatches of one unit can both find the audit ledger empty and both send it
  (`V3Overlap.HandedOnceExactlyWithoutOverlap`).

## Model

| member | source | states |
|---|---|---|
| FencedCalls.LeasedProcessesInvokeAtMostOnce | src/zest/application/lease_fencing.py:113-140 | in every run of leased processes in which no accepted unfenced write carries another epoch than the row, with crashes, takeovers and stale reads: each request passes the lease check and reaches the Worker at most once, though several may have committed its dispatch |
| SecondCalls.SecondPassNeedsRevival | src/zest/application/lease_fencing.py:113-140 | in any run: when two processes pass the lease check for one request, the second wanted it when the first passed, and (unless they share a lease) its lease was not honoured then and was honoured again by a step in between |
| SecondCalls.SecondPassNeedsStaleWrite | src/zest/data/postgres/repositories.py:3107-3146 | with leased processes, a second pass for one request has an accepted stale write before it |
| SecondCalls.AbleProcessCallsAgain | src/zest/application/execute_planned_experiment.py:510-580 | the converse: once a request was called, a process that holds the row and still wants it calls it again by its own steps |
| Witnesses.StaleCommandLetsLeasedProcessesCallTwice | src/zest/application/autonomous_research_controller.py:1032-1076 | a reachable state in which leased processes have called the Worker twice for one request after a stale pause |
| Witnesses.StaleCommandMayPrecedeBothCalls | src/zest/data/postgres/repositories.py:2817-2872 | two passes for one request with no stale write between them: the stale write came first and an epoch was acquired twice |
| FencedCalls.RunKeepsPassed | src/zest/application/local_run_supervisor.py:324-351 | under the same condition, the inductive invariant: whoever still wants a request that passed the check holds an older epoch than the one that passed |
| Dispatches.ClearedOnceExactlyWhenNoneStale | src/zest/application/execute_planned_experiment.py:510-580 | in any run, fenced or not: each request is dispatched at most once if and only if every dispatch commit found AUTHORIZED, and then called at most once |
| Dispatches.EveryInvocationSpendsItsOwnDispatch | src/zest/application/execute_planned_experiment.py:540-580 | distinct Worker calls spend distinct committed dispatches |
| Dispatches.StaleDispatchCallsTheWorkerTwice | src/zest/data/postgres/repositories.py:978-1011 | a reachable state in which two stale unleased dispatchers have called the Worker for one request |
| Protocol.RunKeepsTables | src/zest/application/execute_planned_experiment.py:217-580 | in every run a request was dispatched exactly when its attempt has left AUTHORIZED, and no attempt comes back |
| Protocol.RunKeepsTickets | src/zest/application/execute_planned_experiment.py:571-580 | a process reaches the Worker only with a dispatch of its own that passed the lease check once |
| RunProvenance.LedgerAgreesThroughout | src/zest/application/execute_planned_experiment.py:1300-1326 | in every run an attempt has left AUTHORIZED exactly when its request has one WORKER_INVOCATION and one REQUEST row, and no total exceeds its allowance |
| Spine.LedgerAgreesWithAttempt | src/zest/application/execute_planned_experiment.py:541-570 | the same agreement as a property of the tables |
| Spine.DispatchKeepsSpine | src/zest/application/execute_planned_experiment.py:541-571 | the dispatch transaction keeps ledger, attempts, audits and results in agreement |
| Spine.AuthorizeKeepsSpine | src/zest/application/execute_planned_experiment.py:366-486 | the authorize transaction keeps that agreement, allowed or refused |
| Spine.IngestionKeepsSpine | src/zest/application/execute_planned_experiment.py:688-740 | so does ingestion and the write that follows a rejected result |
| Ceilings.HandedCeilingsFitTheBudget | src/zest/application/execute_planned_experiment.py:1280-1297 | in every run in which each request passes the lease check at most once, the request ceilings handed to browser Workers of a budget add up to at most its REQUEST charges, hence max_requests |
| Ceilings.RequestsPassOnce | src/zest/application/execute_planned_experiment.py:541-580 | that is so without stale dispatches, fenced or not, and with leased processes without stale writes |
| Ceilings.StaleDispatchersAreHandedTooMuch | src/zest/application/execute_planned_experiment.py:554-580 | a reachable state in which two stale dispatchers were handed 32 requests against a charge of 16 |
| Ceilings.HandedCeilingsAreCharged | src/zest/application/execute_planned_experiment.py:554-580 | every ceiling handed out, also by a stale dispatch, is covered by the REQUEST row of its request |
| Fencing.FencedHistory | src/zest/application/lease_fencing.py:29-32 | while no accepted unfenced write carries another epoch than the row, epochs of accepted acquisitions, renewals, releases, fenced saves and lease checks never decrease, and an older lease is never accepted again |
| Fencing.EpochFallsExactlyOnStaleWrite | src/zest/data/postgres/repositories.py:3107-3146 | the row's epoch never falls if and only if no accepted unfenced write was read under another epoch |
| StaleOperator.StaleCommandRevivesOldLease | src/zest/application/autonomous_research_controller.py:1032-1076 | a reachable run with accepted epochs 1, 2, 1: a pause saved from a record read before the takeover revives the first lease |
| EndStates.AttemptsWereCreatedLive | src/zest/application/autonomous_research_controller.py:694-718 | in every run, each attempt committed through the hook found a non-terminal row held by its creator's lease |
| EndStates.EndStatesAreFinal | src/zest/data/postgres/repositories.py:2735-2815 | once the row is terminal it never changes but for a release; no cycle record and no hooked attempt is added |
| EndStates.SupersededLeasesAuthorizeNothing | src/zest/application/execute_planned_experiment.py:457-486 | once the row has epoch e, no continuation without stale writes commits a hooked attempt for a process with a smaller epoch |
| SecondAttempts.SupersededAuthorizationNeedsRevival | src/zest/application/execute_planned_experiment.py:457-486 | whatever is written: a process whose lease is not honoured commits a hooked attempt again only after a step made the row honour it again |
| SecondAttempts.SecondAttemptNeedsRevival | src/zest/application/autonomous_research_controller.py:1480-1504 | whatever is written: a second hooked attempt of an experiment needs its process to have been authorizing it when the first was committed, and (unless the two share a lease) its lease, not honoured then, to be honoured again since |
| LeaseWitnesses.StaleCommandLetsTwoAttemptsThrough | src/zest/application/autonomous_research_controller.py:1032-1076 | a reachable state in which leased processes have committed two hooked attempts of one experiment, the second under a superseded epoch |
| EndStates.OneAttemptPerExperiment | src/zest/application/autonomous_research_controller.py:1480-1504 | leased processes that authorize through the hook, without stale writes, never commit two attempts of one experiment, stale reads included |
| Dispatches.InterleavedReadsCommitTwoAttempts | src/zest/application/execute_planned_experiment.py:217-486 | a reachable state in which two unleased processes have committed two attempts of one experiment |
| Boundaries.OneCallPerExperiment | src/zest/application/autonomous_research_controller.py:694-718 | under the same conditions the Worker is called at most once per experiment |
| Boundaries.LeasedRunsAtBoundaries | src/zest/application/autonomous_research_controller.py:1032-1130 | leased processes with operator commands at transaction boundaries, no other condition: accepted epochs never decrease, each request is called at most once, cycle records are exactly 1..cycle_number |
| Boundaries.BoundaryRunsAreCurrent | src/zest/application/autonomous_research_controller.py:1040-1075 | such runs contain no stale write and no old cycle number |
| Cycles.CycleRecordsAreContiguous | src/zest/application/autonomous_research_controller.py:1181-1270 | in every run the cycle records are numbered 1..m without gaps and cycle_number is at most m |
| Cycles.ExactExactlyWithoutOldRecords | src/zest/application/autonomous_research_controller.py:1199-1262 | in every run, leased or not: the records are exactly 1..cycle_number throughout if and only if no save is accepted whose record has a smaller cycle number than the row |
| Cycles.ExactExactlyWithoutOldNumbers | src/zest/application/autonomous_research_controller.py:1199-1262 | with leased processes and no stale epochs, only operator commands can do that |
| Boundaries.OneControllerStaysExact | src/zest/application/autonomous_research_controller.py:1199-1262 | one stepping controller at a time, fenced or not, with commands at transaction boundaries: the records are exactly 1..cycle_number throughout |
| Witnesses.OldCommandTakesCycleNumberBack | src/zest/application/autonomous_research_controller.py:1032-1076 | a reachable state, within one lease, in which a pause read before a cycle ended takes the cycle number back |
| Restart.OnlyEnteredProcessesAct | src/zest/application/autonomous_research_controller.py:448-456 | while attempts are DISPATCHING or UNKNOWN_OUTCOME, with their dispatchers alive and any others at work: whoever authorizes, dispatches, calls or ingests was past its entry checks from the start; no process that enters or takes over does any of it |
| Restart.EnteringNeedsSettledAttempts | src/zest/application/autonomous_research_controller.py:1662-1673 | in any run, a process that came past its entry checks made them at a moment when no attempt was open |
| Takeovers.LatePassNeedsRevival | src/zest/application/lease_fencing.py:113-140 | whatever is written: who passes the lease check while attempts are open was past its entry checks from the start, and its lease was honoured then or was honoured again since |
| Takeovers.TakeoverStopsTheWorker | src/zest/application/local_run_supervisor.py:324-351 | leased processes, a takeover, any continuation without stale writes: while attempts stay open nobody passes the lease check, the old owner wherever it stands and every newcomer included |
| Takeovers.TakeoverStopsTheWorkerAtBoundaries | src/zest/application/autonomous_research_controller.py:1032-1130 | with commands at transaction boundaries no condition on writes is left |
| Takeovers.LateDispatcherCallsWhileOpen | src/zest/application/execute_planned_experiment.py:510-580 | a reachable state and steps in which an unleased process past its checks calls the Worker for an attempt that is open throughout |
| Restart.OpenAttemptStopsTheRun | src/zest/application/autonomous_research_controller.py:448-456 | once an attempt is DISPATCHING or UNKNOWN_OUTCOME and nobody is past its entry checks, no continuation authorizes, dispatches, invokes or ingests anything, and the attempt stays open |
| Restart.CrashThenRestartNeverInvokes | src/zest/application/autonomous_research_controller.py:1662-1673 | from any state with an open attempt, killing all processes has that effect for good |
| Restart.EntryFailsTheRun | src/zest/application/autonomous_research_controller.py:832-843 | a process entering such a run by any entry point ends it in FAILED_OPERATIONAL and calls nobody |
| LateCalls.OnlyStartedProcessesAct | src/zest/application/autonomous_research_controller.py:434-442 | while a run is paused, blocked, waiting or ended, with any processes at work: whoever authorizes, dispatches, calls or ingests was under way from the start |
| LateCalls.StartingNeedsLiveRun | src/zest/application/autonomous_research_controller.py:434-442 | in any run, a process that got under way loaded the run at a moment when it was READY or RUNNING |
| LateCalls.ParkedRunWaitsForResume | src/zest/application/autonomous_research_controller.py:434-442 | a run that is paused, blocked, waiting or ended, with nobody past its entry checks, executes nothing in any continuation in which no operator resumes it |
| Controller.StopParksTheRun | src/zest/application/autonomous_research_controller.py:1154-1179 | a stop whose save is accepted brings that about, for every stop reason |
| LateCalls.EndedRunStaysQuiet | src/zest/application/autonomous_research_controller.py:434-442 | once the row is terminal and no live process is past its entry checks, no continuation dispatches, calls or ingests anything |
| LateCalls.OnlyLateProcessesAct | src/zest/application/execute_planned_experiment.py:510-580 | after the end, whoever still acts was past its entry checks when the run ended, and whoever passes the lease check was unleased or held the row |
| LateCalls.CallsExactlyWhenAble | src/zest/application/execute_planned_experiment.py:510-580 | in any state, a process can bring about a call for a request by its own dispatch steps if and only if it holds the row or needs no lease, or has passed, and stands at a ticket, a reservation, a read attempt or its step with that request dispatchable |
| Witnesses.CancelledRunStillCallsTheWorker | src/zest/application/execute_planned_experiment.py:510-580 | a reachable state: cancelled before dispatch, then dispatched, charged and called |
| Outcomes.WorkerIsReachedExactly | src/zest/application/execute_planned_experiment.py:203-580 | executing an experiment reaches the Worker if and only if it is live and has no attempt, Core allows it under a fresh request, and its budget still pays for one invocation and the requests of the plan |
| Outcomes.GoodAnswerSucceeds | src/zest/application/execute_planned_experiment.py:1219-1269 | and then a well-formed document with new, distinct drafts ends in observations, a completed attempt and a successful experiment |
| Outcomes.DispatchEndsExactly | src/zest/application/execute_planned_experiment.py:648-763 | of every dispatch that goes out: which Worker answers are told as observations, none, reauthorization, failure or an abort, and which states, result and observations they leave, each as an if-and-only-if on the answer |
| Outcomes.DispatchGoesOutExactly | src/zest/application/execute_planned_experiment.py:510-580 | an AUTHORIZED attempt is sent exactly when its budget can pay, at the price of its capability, and then leaves DISPATCHING, RUNNING and the two charges; otherwise nothing is written |
| Outcomes.OthersStayInside | src/zest/application/execute_planned_experiment.py:525-530 | any other attempt is never sent; one found DISPATCHING becomes UNKNOWN_OUTCOME, and each answer stands for its own states |
| Outcomes.OutcomeIsRecordedAs | src/zest/application/execute_planned_experiment.py:1219-1269 | each attempt and experiment state is recorded for its own invocations and for no others, and nothing else moves |
| Outcomes.AnsweredAgain | src/zest/application/execute_planned_experiment.py:735-739 | a second well-formed document for a request with a result is reported as observations and adds no row |
| Outcomes.AuthorizationAnswers | src/zest/application/execute_planned_experiment.py:366-508 | which verdicts are told as what, which experiment states and audit they leave, and that an attempt appears exactly for a fresh ALLOW |
| Outcomes.ReentryAnswers | src/zest/application/execute_planned_experiment.py:582-645 | what re-entry answers for which first attempt, and that only a DISPATCHING one is changed |
| RunOutcomes.CommittedDispatch | src/zest/application/execute_planned_experiment.py:541-571 | in every run: the dispatch commit of an AUTHORIZED attempt goes through exactly within both allowances, and a browser is handed exactly the recorded amount |
| RunOutcomes.CommittedOutcome | src/zest/application/execute_planned_experiment.py:648-690 | in every run: which states an outcome commit leaves for which invocation, and that ingestion follows exactly a completed document |
| RunOutcomes.CommittedIngestion | src/zest/application/ingest_worker_invocation.py:127-171 | in every run: a document of a request without a result is taken if and only if it is well formed and repeats no draft, and then adds its result and exactly its observations; a malformed one fails attempt and experiment |
| RunOutcomes.LostOutcome | src/zest/application/execute_planned_experiment.py:688-692 | an outcome that cannot be recorded changes no table |
| RunOutcomes.ConsumptionIsRecorded | src/zest/application/budget_consumption.py:50-103 | a consumption in a run adds its one row exactly when it is a new key within the allowance |
| Execution.ReexecutionNeverInvokes | src/zest/application/execute_planned_experiment.py:582-645 | an experiment that has any attempt never reaches the Worker again and at most has it marked unknown; a call that does reach it was allowed and fresh, and leaves its attempt closed, or DISPATCHING when the outcome could not be recorded |
| Execution.ExecutePlannedExperiment.Execute | src/zest/application/execute_planned_experiment.py:203-216 | re-entry check, authorization and dispatch in order, on store and Worker log |
| Execution.ExecutePlannedExperiment.Dispatch | src/zest/application/execute_planned_experiment.py:510-763 | the Worker is called only from AUTHORIZED with both charges recorded, then outcome and ingestion follow unless recording the outcome fails; otherwise the store stays or the attempt is marked unknown |
| Uninterrupted.ExecuteRunsAlone | src/zest/application/execute_planned_experiment.py:203-216 | the use case is what a process of the transition system does when nobody interrupts it |
| Uninterrupted.DispatchRunsAlone | src/zest/application/execute_planned_experiment.py:510-763 | likewise dispatch, the call, outcome and ingestion |
| Uninterrupted.HookedAuthorizationRunsAlone | src/zest/application/execute_planned_experiment.py:217-486 | likewise authorization with the orchestration save in its transaction |
| Execution.ExecutePlannedExperiment.AuthorizeExperiment | src/zest/application/execute_planned_experiment.py:217-508 | the rows a decision writes, for an experiment with no attempt yet |
| Execution.ExecutePlannedExperiment.FailClosedExisting | src/zest/application/execute_planned_experiment.py:582-620 | re-entry classifies an existing attempt and at most marks it UNKNOWN_OUTCOME |
| Execution.AuthorizeFenced | src/zest/application/execute_planned_experiment.py:457-486 | attempt and fenced orchestration save commit together or neither does |
| Execution.OnlyReauthorizationReopens | src/zest/application/execute_planned_experiment.py:1219-1269 | recording an outcome ends the experiment unless the Worker asked for reauthorization |
| Execution.ChargeDispatchRecordsBothKeys | src/zest/application/execute_planned_experiment.py:1300-1326 | after a dispatch both keys are on the ledger, within the allowance, and only missing rows were added |
| Ingestion.FirstIngestionExactly | src/zest/application/ingest_worker_invocation.py:127-179 | a first delivery is accepted if and only if it is well formed, carries its experiment's own budget and repeats no draft; a foreign budget or missing experiment is rejected without a row |
| Ingestion.FirstIngestionAdds | src/zest/application/ingest_worker_invocation.py:141-171 | an accepted one adds its result, exactly its drafts' observations and audits, and reports those observations |
| Ingestion.ReplayedIngestionIsIdempotent | src/zest/application/ingest_worker_invocation.py:127-158 | delivering an ingested request again, with any document, changes no row and reports the same observations |
| Ingestion.IngestionAuditCount | src/zest/application/ingest_worker_invocation.py:316-358 | a result has one audit of its own and one per observation, and nothing else |
| Ingestion.IngestKeepsProvenance | src/zest/application/ingest_worker_invocation.py:127-171 | observations, results and ingestion audits agree row by row |
| Ingestion.IngestCompletedWorkerInvocation.Execute | src/zest/application/ingest_worker_invocation.py:90-179 | the row-by-row transaction is the ingestion function and keeps provenance |
| Ingestion.IngestCompletedWorkerInvocation.PersistObservations | src/zest/application/ingest_worker_invocation.py:290-314 | inserts all drafts' rows or aborts on a taken identifier |
| RunProvenance.ObservationProvenance | src/zest/application/execute_planned_experiment.py:374-385 | in every run an observation's result belongs to an attempt with a committed ALLOW audit, one dispatch charge of each kind, and a call that reached the Worker |
| RunProvenance.ResultAudits | src/zest/application/ingest_worker_invocation.py:316-358 | in every run each result carries 1 + (number of observations) ingestion audits |
| Ledger.RecordConsumptionKeepsLedgerValid | src/zest/data/postgres/repositories.py:3014-3065 | any recording keeps keys unique, totals within the allowance and earlier rows |
| Ledger.RecordingAnswers | src/zest/data/postgres/repositories.py:3014-3065 | missing budget, duplicate, overspend and recorded each stand for their own charges; tokens and decisions are never refused |
| Ledger.BudgetLedger.Record | src/zest/application/budget_consumption.py:50-103 | the consumption command on the ledger, duplicates and overspends included |
| Ledger.ComputeTotals | src/zest/data/budget_ledger.py:38-61 | one pass computes the five per-resource sums |
| Statements.SaveAnswers | src/zest/data/postgres/repositories.py:2735-2815 | which row and guard a save is refused for, and why; an accepted one leaves the whole record |
| Statements.AcquireAnswers | src/zest/data/postgres/repositories.py:2817-2872 | which rows are acquired: live and unowned, expired or one's own; epoch and expiry afterwards |
| Statements.HolderAnswers | src/zest/data/postgres/repositories.py:2874-2939 | renewal needs the holder and a live row, release the holder only; what each leaves |
| Statements.UpdateLeaves | src/zest/application/autonomous_research_controller.py:1368-1406 | column by column what running marks, checkpoints, plans, authorized attempts and failure stops leave |
| Statements.CommandLeaves | src/zest/application/autonomous_research_controller.py:1032-1130 | which states a command is refused in, and column by column what it leaves |
| Statements.CycleEndLeaves | src/zest/application/autonomous_research_controller.py:1181-1262 | the end of a cycle column by column: counted unless it just continues, explicit state, phase and reasons win |
| Statements.StopLeaves | src/zest/research/orchestration.py:223-262 | which stop reason leaves which state and outcome |
| Statements.StartLeaves | src/zest/application/autonomous_research_controller.py:266-280 | a new run is READY unless it may have no cycle, then COMPLETED |
| Checkpoints.DispatchingCheckpointHaltsSteps | src/zest/application/autonomous_research_controller.py:448-453 | after an accepted checkpoint at DISPATCHING, with everybody else at work, a process that enters by steps gets past its checks only after an accepted save has moved the phase |
| Checkpoints.StepAtDispatchingFailsTheRun | src/zest/application/autonomous_research_controller.py:448-453 | a step that finds a live row at DISPATCHING halts and, holding the row, fails the run |
| Checkpoints.CheckpointIsSaved | src/zest/application/autonomous_research_controller.py:1368-1406 | a checkpoint of a run leaves RUNNING and its phase in row and process; onto a terminal row it goes on with the durable record, any other refusal drops the process |
| Checkpoints.PlanIsSaved | src/zest/application/autonomous_research_controller.py:655-685 | a plan moves the phase and keeps the state, or is refused |
| Checkpoints.FailureStopIsSaved | src/zest/application/autonomous_research_controller.py:372-421 | an accepted failure stop fails the run and keeps phase and lease; a refused one changes nothing |
| Checkpoints.ReloadShowsTheRow | src/zest/application/autonomous_research_controller.py:1132-1138 | a reload shows the process the row as it is |
| Orchestration.OrchestrationRepository.Save | src/zest/data/postgres/repositories.py:2735-2815 | the guarded whole-row save and its four refusals |
| Orchestration.OrchestrationRepository.AcquireLease | src/zest/data/postgres/repositories.py:2817-2872 | acquisition of a non-terminal row that is unowned, expired or already one's own; the epoch goes up |
| Orchestration.OrchestrationRepository.RenewLease | src/zest/data/postgres/repositories.py:2874-2909 | renewal by compare-and-set on owner and epoch of a non-terminal row |
| Orchestration.OrchestrationRepository.ReleaseLease | src/zest/data/postgres/repositories.py:2911-2939 | release by compare-and-set, also of a terminal row |
| Orchestration.FencedOrchestrationRepository.Save | src/zest/application/lease_fencing.py:29-32 | a save carries the remembered lease unless the caller gave its own |
| Orchestration.LeaseFencedWorkerPort.Invoke | src/zest/application/lease_fencing.py:113-140 | the inner Worker gets the request exactly when the row still has the remembered owner and epoch |
| Controller.AutonomousResearchController.CompleteCycle | src/zest/application/autonomous_research_controller.py:1181-1270 | row and cycle record in one transaction, or the durable terminal record |
| Controller.AutonomousResearchController.Checkpoint | src/zest/application/autonomous_research_controller.py:1368-1406 | an accepted checkpoint leaves RUNNING, its phase and every other column of the record; onto a terminal row it writes nothing and continues with the durable record |
| Controller.CommandAnswers | src/zest/application/autonomous_research_controller.py:1032-1130 | which command is refused, written or raised on which row, and which of them leaves which audit |
| Controller.EndAnswers | src/zest/application/autonomous_research_controller.py:1181-1270 | when the end of a cycle is written, finds the run ended, or raises; row and cycle record go together |
| Controller.AutonomousResearchController.OperatorState | src/zest/application/autonomous_research_controller.py:1032-1076 | pause and cancel, and the audit that rejects them on a terminal run |
| Controller.AutonomousResearchController.Resume | src/zest/application/autonomous_research_controller.py:342-362 | only a PAUSED run is resumed |
| Controller.AutonomousResearchController.MarkOperationalFailure | src/zest/application/autonomous_research_controller.py:1078-1130 | only a RUNNING row nobody holds is failed by reconciliation |
| Controller.AutonomousResearchController.StopForOperationalFailure | src/zest/application/autonomous_research_controller.py:372-421 | only a READY or RUNNING row is failed by its supervisor |
| Controller.AutonomousResearchController.Stop | src/zest/application/autonomous_research_controller.py:1154-1179 | a stop is the end of a cycle with the outcome and state of its reason |
| Recovery.SafeResumeExactlyWhenSettled | src/zest/application/classify_runtime_recovery.py:58-129 | SAFE_RESUME exactly on a READY or RUNNING run without DISPATCHING, UNKNOWN_OUTCOME or AUTHORIZED attempts |
| Recovery.ClassifierAnswers | src/zest/application/classify_runtime_recovery.py:97-129 | of a READY or RUNNING run: retry exactly when the first unsettled attempt is AUTHORIZED, a human exactly when it is UNKNOWN_OUTCOME with side effects, reconciliation exactly when it is DISPATCHING or UNKNOWN_OUTCOME without |
| Recovery.OpenAttemptIsNeverSafeToResume | src/zest/application/classify_runtime_recovery.py:97-122 | after a crash with an open attempt the classifier refuses for the rest of the run's life |
| Recovery.OpenAttemptIsNeverRetried | src/zest/application/classify_runtime_recovery.py:97-122 | with an attempt open and none AUTHORIZED, no continuation of a crashed run is ever offered a resume or a retry |
| Recovery.SafeResumePassesChecks | src/zest/application/autonomous_research_controller.py:434-453 | a run judged safe to resume passes the checks of every entry point, but for a step when the recorded phase is DISPATCHING |
| Supervisor.LostLeaseNeverStepsAgain | src/zest/application/local_run_supervisor.py:125-137 | once the lease is lost, no sequence of calls, further starts included, steps the controller or writes the row |
| Supervisor.StepsOnlyOnFreshLease | src/zest/application/local_run_supervisor.py:104-160 | a leased supervisor steps only within a heartbeat of an accepted renewal; a rejected renewal loses the lease without stepping |
| Supervisor.LeaseHeldExactlyWithin | src/zest/application/orchestration_lease.py:18-33 | the supervisor's bookkeeping: with a positive gap between ticks and renewals done within `latency`, every schedule keeps the granted expiry ahead if and only if heartbeat + gap + 2 * latency <= ttl |
| Supervisor.LeaseHeldExactlyWhen | src/zest/application/orchestration_lease.py:18-33 | with instant renewals, also for gap zero: heartbeat + gap <= ttl |
| Liveness.ExpiryIsGrantedExactly | src/zest/data/postgres/repositories.py:3107-3146 | in every run the row's expiry is throughout what the last accepted acquisition or renewal granted, none after a release, if and only if no save is accepted whose record has another expiry |
| Liveness.SupervisedLeaseIsKept | src/zest/application/local_run_supervisor.py:104-150 | in runs with everybody else at work, while no unfenced save carries other lease columns and heartbeat + gap + 2 * latency <= ttl, a supervised process keeps the row's lease unexpired until the run ends |
| Liveness.RowKeptExactlyWhen | src/zest/application/orchestration_lease.py:18-33 | from an acquisition noted as late as allowed, that timing condition is also necessary on the row |
| Liveness.SupervisedLeaseIsKeptAtBoundaries | src/zest/application/local_run_supervisor.py:104-150 | with leased processes and commands at transaction boundaries no condition on writes is left |
| Liveness.AcquisitionStartsWatch | src/zest/application/local_run_supervisor.py:324-351 | an acquisition in a run without stale writes is such a start |
| Liveness.WatchedTickIsSupervisors | src/zest/application/local_run_supervisor.py:104-123 | the ticks of these runs renew when the supervisor's own tick does, with the same effect on the row |
| LeaseWitnesses.OldExpiryLosesTheLease | src/zest/application/autonomous_research_controller.py:1032-1076 | a reachable run in which another owner takes over before the granted expiry, every renewal accepted and no epoch stale |
| Supervisor.LeaseNeverExpires | src/zest/application/local_run_supervisor.py:104-123 | on the supervisor's bookkeeping, heartbeat + gap + 2 * latency <= ttl keeps the granted expiry ahead at every tick and renewal |
| Supervisor.TickBeats | src/zest/application/local_run_supervisor.py:104-123 | one tick with an accepted renewal and no other writer moves the remembered renewal and the row's expiry as that bookkeeping does |
| Supervisor.TickAnswers | src/zest/application/local_run_supervisor.py:104-226 | when a tick loses the lease, asks to stop, ends the thread, steps, and notes a renewal: each exactly for its own causes |
| Supervisor.TickLeaves | src/zest/application/local_run_supervisor.py:125-226 | the row after a tick is the step's, or the old one with at most its expiry renewed |
| Supervisor.StartAndExitAnswer | src/zest/application/local_run_supervisor.py:228-285 | what starting and leaving change, and when the lease is given back |
| Supervisor.LocalRunSupervisor.DoTick | src/zest/application/local_run_supervisor.py:125-226 | the tick on fields and row is the tick function |
| Supervisor.LocalRunSupervisor.RenewLeaseIfDue | src/zest/application/local_run_supervisor.py:104-123 | false exactly when a due renewal was rejected |
| Supervisor.LocalRunSupervisor.ReleaseAndExit | src/zest/application/local_run_supervisor.py:258-285 | the lease is given back unless it is known to be lost |
| Supervisor.LocalRunSupervisorRegistry.StartRun | src/zest/application/local_run_supervisor.py:308-351 | a new supervisor exists only after an acquisition and alone carries its epoch |
| ObserverLimiter.SlidingWindowBound | src/zest/application/observer.py:322-361 | for observations processed in any order of their clock readings, any half-open interval of the window's length holds at most budget_calls calls of the whole history |
| ObserverLimiter.BackoffBound | src/zest/application/observer.py:371-375 | from a failed call on, n failures without a success between them spread over at least the sum of min(max_backoff, max(cooldown, 2^i)); a call whose exception `observe` does not catch counts as neither |
| ObserverLimiter.CallsAreACooldownApart | src/zest/application/observer.py:332-335 | any two calls are at least a cooldown apart |
| ObserverLimiter.NextAllowedNeverFalls | src/zest/application/observer.py:353-354 | next_allowed_at never decreases over a session |
| ObserverLimiter.ProviderAnswersAreValid | src/zest/application/observer.py:322-358 | every brief answered in provider mode, fresh or cached, is the provider's and valid for the context asked about |
| ObserverLimiter.ObservationAnswers | src/zest/application/observer.py:322-358 | when the provider is called, and for which situation each reason, mode and brief is answered |
| ObserverLimiter.ObservationLeaves | src/zest/application/observer.py:322-375 | what each answer leaves of clock fields, failure count and cache |
| ObserverLimiter.DelayExactly | src/zest/application/observer.py:371-375 | the delay is min(max_backoff, max(cooldown, 2^failures)) |
| ObserverLimiter.ObserverService.ObserveNow | src/zest/application/observer.py:322-358 | one observation on the service's fields is the observation function |
| ObserverLimiter.ObserverService.PruneBudget | src/zest/application/observer.py:360-361 | keeps exactly the calls still inside the window |
| ObserverBrief.StatusExactly | src/zest/application/observer.py:155-166 | which status is shown for which effective state and attention |
| ObserverBrief.ContextExactly | src/zest/application/observer.py:110-152 | what the context holds: bounded columns, one fact for each of four, an unknown for each missing one, the ids of the first 50 items |
| ObserverBrief.CollapsingKeepsWords | src/zest/application/observer.py:63-67 | bounding a text keeps its words unless it is cut at the limit |
| ObserverBrief.FallbackIsValid | src/zest/application/observer.py:110-213 | for every analysis the deterministic brief of the built context passes the validator |
| ObserverBrief.ValidBriefIsBounded | src/zest/application/observer.py:216-260 | a valid brief has all twelve fields and no part beyond its limit |
| ObserverBrief.ValidBriefAddsNothing | src/zest/application/observer.py:216-260 | a valid brief differs from the deterministic one only in wording and omissions |
| Oast.OneAdmissionPerCorrelation | src/zest/application/admit_oast_callback.py:79-202 | in every interleaving a correlation has at most one admission, from a delivery in [armed_at, expires_at), and every committed delivery's correlation has one |
| Oast.AnswersAreTruthful | src/zest/application/admit_oast_callback.py:115-202 | what a caller is told is true of the ledger; ALREADY_RECORDED only on another correlation's clash, ADMISSION_CONFLICT never |
| Oast.OnlyOneAdmits | alembic/versions/a44_001_oast_correlation.py:77-136 | two deliveries of one correlation are never both told that they admitted it |
| Oast.ArmedCorrelationBinds | src/zest/application/admit_oast_callback.py:204-230 | a correlation armed from the spine is refused only outside its window |
| Oast.ExecuteRunsAlone | src/zest/application/admit_oast_callback.py:79-202 | the straight-line code is the interleaved transaction run without interruption |
| Oast.LoneDeliveryIsTold | src/zest/application/admit_oast_callback.py:79-202 | what a delivery with nobody in between is told and leaves, as if-and-only-ifs on binding, recorded rows, admissions and the sensor's verdict |
| Admissions.VerdictsAreTheSensors | src/zest/application/admit_oast_callback.py:192-201 | in every interleaving a delivery is turned down only after the sensor rejected it in its own admission step, and admitted only after the sensor accepted it there |
| Admissions.AdmissionsWereAccepted | src/zest/application/admit_oast_callback.py:192-201 | every admission was committed by a transaction of its delivery whose sensor had accepted it |
| Admissions.SensorDecides | src/zest/application/admit_oast_callback.py:192-201 | unhindered, the admission step follows the sensor's verdict |
| Admissions.BindingExactly | src/zest/application/admit_oast_callback.py:204-230 | a delivery is bound exactly inside the window and while the spine says what the correlation says |
| Admissions.ArmingAnswers | src/zest/application/arm_oast_correlation.py:55-112 | when an attempt can be armed, and what a first and a later arming leave |
| Oast.AdmitOastCallback.ExecuteDelivery | src/zest/application/admit_oast_callback.py:79-202 | the method inserting rows in order is told and leaves the same, and has the transaction's effect |
| Oast.ArmOastCorrelation.Execute | src/zest/application/arm_oast_correlation.py:55-112 | an attempt is armed once, inside the bounded window, from a complete spine |
| Redaction.DigestsEqualExactlyOutsideSecrets | src/zest/application/executor_replay_manifest.py:207-263 | two values have equal redacted digests if and only if they agree outside secret keys, key order and list or tuple; then the counts are equal too |
| Redaction.CountIsSecretEntries | src/zest/application/executor_replay_manifest.py:214-236 | the count of a redaction is the number of entries under secret keys |
| Redaction.RedactIsIdempotent | src/zest/application/executor_replay_manifest.py:214-236 | redacting a redacted value changes nothing |
| Redaction.RedactedIsMasked | src/zest/application/executor_replay_manifest.py:244-263 | sorting and rebuilding do not show in the canonical document |
| Replay.ReplayDocumentsHideSecrets | src/zest/application/executor_replay_bundle.py:54-107 | stores that differ only in secrets yield the same manifest and bundle, redaction counts included |
| Replay.ResultDocumentsEqualExactly | src/zest/application/executor_replay_manifest.py:144-173 | two results have equal documents if and only if they agree outside secrets |
| Replay.ClassExactly | src/zest/application/executor_replay_manifest.py:188-204 | which attempts and results give which replay class |
| Replay.ReasonsExactly | src/zest/application/executor_replay_manifest.py:76-116 | which reasons a manifest names, none twice |
| Replay.ResultDocumentSays | src/zest/application/executor_replay_manifest.py:144-173 | a result's document: columns as they are, payloads masked, artifacts and secrets counted |
| Replay.AttemptDocumentAt | src/zest/application/executor_replay_manifest.py:119-141 | one document per attempt, in order, with its own result |
| Replay.ResultIsLast | src/zest/application/executor_replay_manifest.py:60-75 | the result of a request is the last one listed under it |
| Replay.ObservationDocumentsExactly | src/zest/application/executor_replay_manifest.py:176-185 | the observations of an attempt are those of its result |
| Replay.ResponseAt | src/zest/application/executor_replay_bundle.py:131-151 | one response per result, in order, with its own digests |
| Replay.PublishedKinds | src/zest/application/executor_replay_bundle.py:174-178 | an artifact kind is published exactly when it is one of six texts |
| Replay.BundleAsksForReview | src/zest/application/executor_replay_bundle.py:54-107 | a bundle asks for a human exactly with side effects above level one; its template and counts |
| Replay.SensitiveExactly | src/zest/application/executor_replay_manifest.py:239-241 | a key is secret exactly when one of nine fragments is spelt in it |
| Replay.CollectAttempts | src/zest/application/executor_replay_manifest.py:76-93 | the manifest builder's loop |
| Replay.CollectResponses | src/zest/application/executor_replay_bundle.py:131-151 | the bundle builder's response loop |
| SafeData.RedactionIsStable | src/zest/safe_data.py:152-156 | redaction is idempotent and keeps the list of secret paths |
| SafeData.RedactedSameExactly | src/zest/safe_data.py:103-137 | payloads redact to equal structures, dictionaries compared without their order, if and only if they differ at most in non-reference values under secret keys |
| SafeData.RedactedEqualExactly | src/zest/safe_data.py:103-137 | the same with key order, and then the lists of secret paths are equal too |
| SafeData.CleanKeepsExactlyTheClean | src/zest/safe_data.py:103-137 | the walk without redaction returns an equal structure if and only if it finds nothing |
| SafeData.PathsLeadToSecrets | src/zest/safe_data.py:91-137 | the walk lists exactly the paths that lead to a secret |
| SafeData.SensitiveExactly | src/zest/safe_data.py:60-70 | a key is secret exactly when it reads as a listed one, without the whitespace around it |
| SafeData.RejectSecretKeys | src/zest/safe_data.py:140-149 | accepts exactly when the walk is empty and then returns an equal structure |
| SafeData.RedactSecretKeys | src/zest/safe_data.py:152-156 | a second pass would change nothing and find the same paths |
| SafeData.Collector.Collect | src/zest/safe_data.py:103-137 | the recursive walk appends to one shared list |
| SafeData.RequireMappingWithoutSecrets | src/zest/safe_data.py:228-235 | a mapping without secrets under the fixed key list is returned unchanged |
| V3Dispatch.EachUnitIsSentAtMostOnce | src/zest/application/dispatch_approved_v3_queue.py:124-226 | over any sequence of calls and crashes each unit of a queue item is sent to execution at most once |
| V3Overlap.HandedOnceExactlyWithoutOverlap | src/zest/application/dispatch_approved_v3_queue.py:145-226 | with overlapping calls: each unit is sent at most once, however the calls go on, if and only if no call checks the ledger while another of its unit is between check and intent |
| V3Overlap.OverlappingChecksHandTwice | src/zest/application/dispatch_approved_v3_queue.py:145-226 | from an empty ledger, two checks of one unit and the moves that hand it on twice |
| V3Dispatch.CoverageIsEarned | src/zest/application/dispatch_approved_v3_queue.py:206-281 | coverage is claimed only after the intent of the same unit and experiment, for a loop that produced an observation |
| V3Dispatch.AttemptedUnitStaysClosed | src/zest/application/dispatch_approved_v3_queue.py:307-318 | a unit that left any trace is never sent again |
| V3Dispatch.SettledItemStaysSettled | src/zest/application/dispatch_approved_v3_queue.py:407-486 | with calls one after the other, an item that left APPROVED keeps its state and nothing more is sent for it |
| V3Dispatch.CallAnswers | src/zest/application/dispatch_approved_v3_queue.py:112-305 | each answer of a call stands for its own situation |
| V3Dispatch.CallLeaves | src/zest/application/dispatch_approved_v3_queue.py:145-305 | which events, item state and experiment each answer leaves |
| V3Overlap.UninterruptedCallMoves | src/zest/application/dispatch_approved_v3_queue.py:145-226 | the moves of overlapping calls, uninterrupted, are the whole call's events, experiment and hand-over |
| V3Dispatch.DispatchApprovedV3Queue.ExecuteCall | src/zest/application/dispatch_approved_v3_queue.py:112-305 | one call appends audits and moves queue states as the function says |
| OutcomeFold.FoldIsNewest | src/zest/application/evaluate_family_circuit_breaker.py:110-119 | sorting and overwriting gives each subject the outcome of its newest event |
| OutcomeFold.CountsIgnoreOrder | src/zest/application/evaluate_family_circuit_breaker.py:118-124 | the fold does not depend on ledger order |
| OutcomeFold.CountsAreOfNewest | src/zest/application/evaluate_family_circuit_breaker.py:110-124 | each count is the number of subjects whose newest event has that outcome |
| OutcomeFold.CountsCoverSubjects | src/zest/application/evaluate_family_circuit_breaker.py:120-124 | the three counts add up to the number of distinct subjects |
| OutcomeFold.FamilyOutcomeCounts | src/zest/application/evaluate_family_circuit_breaker.py:110-124 | the loop computes the counts of that fold |

## Left out

- Core's decision, opportunity selection, hypothesis proposal, the Worker, model providers, normalizers and contract validation: each is an arbitrary result a step is given.
- PostgreSQL plumbing: a unit of work is one atomic step, a unique key a guard, and a row lock taken by an update lasts until its transaction ends.
- Columns of the orchestration row that only point at the last opportunity, hypothesis, experiment or attempt, timestamps, run faults and telemetry.
- Identifiers and SHA-256 digests: fresh where the source draws a random one, injective where it derives one; a canonical document stands for its digest.
- Session capture, secret resolution and rate-limit checks inside authorization and ingestion: part of the verdict a transaction is given.
- The promotion pipeline, the zestd scheduler, finding finalization, verification, evidence admission, the HQ read model and release scripts.
- The discovery runner's own cycle logic: its processes authorize without the hook and otherwise take the same steps.
- The rotation of surface discovery by the supervisor after its first tick, and a heartbeat whose renewal statement itself raises.
- FencedCalls.LeasedProcessesInvokeAtMostOnce: holds while no accepted unfenced write carries another epoch than the row, which fails in a reachable run; calls are ordered by their lease check, and the call itself follows the check and is not atomic with it.
- Fencing.FencedHistory: holds under the same condition, which EpochFallsExactlyOnStaleWrite shows to be exact for the epoch.
- Takeovers.TakeoverStopsTheWorker: holds without stale writes; LatePassNeedsRevival says what else must have happened. It orders lease checks: a process let through before the takeover may still make its call.
- EndStates.OneAttemptPerExperiment: needs leases, the hook and no stale write; without the first, interleaved reads commit two attempts (Dispatches.InterleavedReadsCommitTwoAttempts), without the last, a revived process does (LeaseWitnesses.StaleCommandLetsTwoAttemptsThrough).
- EndStates.SupersededLeasesAuthorizeNothing: holds without stale writes; SecondAttempts says what else must have happened.
- Supervisor.LeaseNeverExpires: says nothing of the row, which other writers share; module Liveness does. There as here the clocks of the process and the store run at the same rate.
- ObserverLimiter.ObserverService.ObserveNow: a returned brief is a value; that the source hands out the very dictionary it caches on a fresh call is not modelled.
- ObserverBrief.FallbackIsValid: a generated timestamp is assumed to fit its 80 characters; fixed words and sentences are represented by name and length.
- Key tests in SafeData and Replay lower-case ASCII letters only; Python's `lower` also folds others, such as U+212A to k.
- SafeData.Collector.Collect: sets are not modelled, keys are strings, and a path is a list of parts rather than its dotted text.
- Redaction.DigestsEqualExactlyOutsideSecrets: mapping keys are strings, so two keys never share a text.
- Oast.OneAdmissionPerCorrelation: legacy token callbacks, which admit nothing, are left out.
- V3Overlap.HandedOnceExactlyWithoutOverlap: queue states and what execution answers are left to V3Dispatch, where calls follow one another.
- Execution.ExecutePlannedExperiment.FailClosedExisting: of several attempts any may be the one listed first, because the query orders nothing.
