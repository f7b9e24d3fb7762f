/** The durable tables of the execution spine: experiments, attempts, ledger, audits, results, observations. */
module Store {
  import opened Ledger

  type ExperimentId = nat

  datatype ExperimentState =
    | Planned
    | AuthorizationCheck
    | ReadyToRun
    | RunningExperiment
    | ExecutionSucceeded
    | ExecutionFailed
    | ExperimentBlocked
    | ExperimentCancelled
    | ExperimentBudgetExhausted

  predicate TerminalExperiment(state: ExperimentState) {
    state in {ExecutionSucceeded, ExecutionFailed, ExperimentBlocked, ExperimentCancelled, ExperimentBudgetExhausted}
  }

  datatype Experiment = Experiment(budget: BudgetId, state: ExperimentState)

  datatype AttemptState =
    | Authorized
    | Dispatching
    | AttemptCompleted
    | AttemptFailed
    | TimedOut
    | Cancelled
    | UnknownOutcome

  datatype Capability = BrowserPage | HttpRawExchange | OtherCapability

  /** One intended Worker invocation. `reusesConnection` is the framing profile of the bound plan. */
  datatype Attempt = Attempt(
    experiment: ExperimentId,
    budget: BudgetId,
    capability: Capability,
    reusesConnection: bool,
    sideEffectLevel: nat,
    state: AttemptState)

  datatype ObservationKey = ObservationKey(kind: string, version: string)

  /** Identifiers built from the request id; distinct arguments give distinct identifiers. */
  datatype ObservationId = ObservationOf(request: RequestId, key: ObservationKey)

  datatype AuditId =
    | DecisionAudit(request: RequestId)
    | ResultAudit(request: RequestId)
    | ObservationAudit(request: RequestId, key: ObservationKey)

  datatype CoreDecision = Allow | Deny | RequireReview

  datatype AuditEvent =
    | ExecutionDecided(decision: CoreDecision)
    | ResultIngested(observations: nat)
    | ObservationAdmitted(observation: ObservationId)

  /** `worker_result`, keyed by its unique request id. */
  datatype WorkerResult = WorkerResult(experiment: ExperimentId, status: ResultStatus)

  datatype ResultStatus =
    | Succeeded
    | ResultExecutionFailed
    | ResultBlocked
    | ResultCancelled
    | ResultTimedOut
    | ResultBudgetExhausted
    | ReauthorizationRequired

  datatype Db = Db(
    experiments: map<ExperimentId, Experiment>,
    attempts: map<RequestId, Attempt>,
    ledger: seq<Charge>,
    audits: map<AuditId, AuditEvent>,
    results: map<RequestId, WorkerResult>,
    observations: map<ObservationId, RequestId>)

  function SetAttempt(db: Db, request: RequestId, state: AttemptState): Db
    requires request in db.attempts
  {
    db.(attempts := db.attempts[request := db.attempts[request].(state := state)])
  }

  function SetExperiment(db: Db, experiment: ExperimentId, state: ExperimentState): Db
  {
    if experiment in db.experiments then
      db.(experiments := db.experiments[experiment := db.experiments[experiment].(state := state)])
    else db
  }

  predicate HasAttemptFor(db: Db, experiment: ExperimentId) {
    exists r :: r in db.attempts && db.attempts[r].experiment == experiment
  }

  /** A DISPATCHING or UNKNOWN_OUTCOME attempt: its external effect is not known. */
  predicate OpenAttempt(attempt: Attempt) {
    attempt.state.Dispatching? || attempt.state.UnknownOutcome?
  }

  predicate UnknownOpen(db: Db) {
    exists r :: r in db.attempts && OpenAttempt(db.attempts[r])
  }

  /** The observation rows of one WorkerResult. */
  function ObservationsOf(db: Db, request: RequestId): (ids: set<ObservationId>)
  {
    set o | o in db.observations && db.observations[o] == request
  }

  /** The audit rows ingestion wrote for one request. */
  function IngestionAuditsOf(db: Db, request: RequestId): set<AuditId>
  {
    set a | a in db.audits && a.request == request && !a.DecisionAudit?
  }
}
