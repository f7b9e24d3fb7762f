/** The transactions of one planned experiment: authorize, dispatch, outcome and fail-closed re-entry. */
module Execution {
  import opened Wrappers
  import opened Ledger
  import opened Store
  import opened Ingestion
  import O = Orchestration

  datatype LoopStatus =
    | ObservationProduced
    | NoObservationMade
    | DispatchDenied
    | HumanReviewRequired
    | InvocationFailed
    | OutcomeUnknown
    | AuthorizedNotDispatched
    | AlreadyTerminal
    | InputRejected
    | ReauthorizationNeeded
      /** The transaction raised and was rolled back. */
    | TransactionRaised

  /** What the gates before and including Core decided; the gates themselves are not modelled. */
  datatype Verdict =
    | RejectedInput
    | UnboundCapability
    | RateLimited
    | Decided(decision: CoreDecision, budgetExhausted: bool)

  datatype PlanBinding = PlanBinding(capability: Capability, reusesConnection: bool, sideEffectLevel: nat)

  datatype InvocationStatus =
    | InvocationCompleted
    | StartFailed
    | InvocationTimedOut
    | InvocationCancelled
    | ProcessFailed
    | ProtocolError
    | ContractInvalid

  /** The Worker's untrusted document, present only on a completed invocation. */
  datatype WorkerDocument = WorkerDocument(status: ResultStatus, drafts: seq<ObservationKey>, wellFormed: bool)

  datatype Invocation = Invocation(status: InvocationStatus, document: Option<WorkerDocument>)

  const BROWSER_PAGE_MAX_REQUESTS: Positive := 16

  // ------------------------------------------------------------------ TX1: authorize

  datatype AuthorizeResult = AuthorizeResult(db: Db, status: LoopStatus, authorized: bool)

  predicate FreshRequest(db: Db, r: RequestId) {
    r !in db.attempts && DecisionAudit(r) !in db.audits
  }

  /** The rows of an ALLOW decision: its audit, an AUTHORIZED attempt and a READY experiment. */
  function CreateAttempt(db: Db, x: ExperimentId, r: RequestId, plan: PlanBinding): Db
    requires x in db.experiments
  {
    var experiment := db.experiments[x];
    SetExperiment(
      db.(audits := db.audits[DecisionAudit(r) := ExecutionDecided(Allow)],
          attempts := db.attempts[r :=
            Attempt(x, experiment.budget, plan.capability, plan.reusesConnection, plan.sideEffectLevel, Authorized)]),
      x, ReadyToRun)
  }

  function StatusForExisting(state: AttemptState): LoopStatus {
    match state
    case Authorized => AuthorizedNotDispatched
    case UnknownOutcome => OutcomeUnknown
    case _ => AlreadyTerminal
  }

  /** What the transaction writes once its reads found a live experiment without attempts. */
  function AuthorizeWrite(db: Db, x: ExperimentId, r: RequestId, verdict: Verdict, plan: PlanBinding): AuthorizeResult
    requires x in db.experiments
  {
    match verdict
    case RejectedInput => AuthorizeResult(db, InputRejected, false)
    case UnboundCapability => AuthorizeResult(db, DispatchDenied, false)
    case RateLimited => AuthorizeResult(SetExperiment(db, x, ExperimentBlocked), DispatchDenied, false)
    case Decided(decision, exhausted) =>
      if !FreshRequest(db, r) then AuthorizeResult(db, TransactionRaised, false)
      else
        var audited := db.(audits := db.audits[DecisionAudit(r) := ExecutionDecided(decision)]);
        match decision
        case Deny =>
          AuthorizeResult(
            SetExperiment(audited, x, if exhausted then ExperimentBudgetExhausted else ExperimentBlocked),
            DispatchDenied, false)
        case RequireReview =>
          AuthorizeResult(SetExperiment(audited, x, AuthorizationCheck), HumanReviewRequired, false)
        case Allow =>
          AuthorizeResult(CreateAttempt(db, x, r, plan), AuthorizedNotDispatched, true)
  }

  /** An experiment that already has an attempt is not authorized again; `existing` is the one listed first. */
  function Authorize(
    db: Db, x: ExperimentId, r: RequestId, verdict: Verdict, plan: PlanBinding, existing: Option<AttemptState>)
    : AuthorizeResult
  {
    if x !in db.experiments then AuthorizeResult(db, InputRejected, false)
    else if TerminalExperiment(db.experiments[x].state) then AuthorizeResult(db, AlreadyTerminal, false)
    else if existing.Some? then AuthorizeResult(db, StatusForExisting(existing.value), false)
    else AuthorizeWrite(db, x, r, verdict, plan)
  }

  /** `existing` is the state of an attempt of the experiment, or nothing when it has none. */
  ghost predicate Listed(db: Db, x: ExperimentId, existing: Option<AttemptState>) {
    if existing.None? then !HasAttemptFor(db, x)
    else exists r :: r in db.attempts && db.attempts[r].experiment == x && db.attempts[r].state == existing.value
  }

  lemma Listing(db: Db, x: ExperimentId) returns (existing: Option<AttemptState>)
    ensures Listed(db, x, existing)
  {
    if HasAttemptFor(db, x) {
      var r :| r in db.attempts && db.attempts[r].experiment == x;
      existing := Some(db.attempts[r].state);
    } else {
      existing := None;
    }
  }

  datatype HookedResult = HookedResult(db: Db, row: Option<O.Row>, status: LoopStatus, authorized: bool)

  /** Authorization whose attempt and orchestration save commit together or not at all. */
  function AuthorizeWithHook(
    db: Db, x: ExperimentId, r: RequestId, verdict: Verdict, plan: PlanBinding, existing: Option<AttemptState>,
    row: Option<O.Row>, current: O.Row, guard: O.SaveGuard, now: O.Time)
    : HookedResult
  {
    var plain := Authorize(db, x, r, verdict, plan, existing);
    if !plain.authorized then HookedResult(plain.db, row, plain.status, false)
    else
      var saved := O.SaveRow(row, O.UpdateRow(current, O.PersistAttempt), guard, now);
      if saved.outcome == O.Saved then HookedResult(plain.db, saved.row, plain.status, true)
      else HookedResult(db, row, TransactionRaised, false)
  }

  // ------------------------------------------------------------------ TX2: dispatch

  /** Requests to reserve: a fixed price, or for a browser whatever is left up to its ceiling. */
  function RequestAmount(ledger: seq<Charge>, limits: Limits, attempt: Attempt): Option<Positive>
    requires attempt.budget in limits.issued
  {
    match attempt.capability
    case HttpRawExchange => Some(if attempt.reusesConnection then 2 else 1)
    case OtherCapability => Some(1)
    case BrowserPage =>
      var used := Total(ledger, attempt.budget, Request);
      var max := limits.issued[attempt.budget].maxRequests;
      if max <= used then None
      else if max - used < BROWSER_PAGE_MAX_REQUESTS then Some(max - used)
      else Some(BROWSER_PAGE_MAX_REQUESTS)
  }

  /** The ceiling handed to the Worker with the request: browsers only. */
  function HandedCeiling(attempt: Attempt, amount: Positive): Option<Positive> {
    if attempt.capability.BrowserPage? then Some(amount) else None
  }

  function DispatchCharge(attempt: Attempt, r: RequestId, resource: Resource, amount: Positive): Charge {
    Charge(attempt.budget, Some(r), resource, amount)
  }

  /** Both dispatch charges, or nothing when either would overspend. A charge already on the ledger is skipped. */
  function ChargeDispatch(ledger: seq<Charge>, limits: Limits, attempt: Attempt, r: RequestId, amount: Positive)
    : Option<seq<Charge>>
  {
    var first := InsertWithinAllowance(ledger, limits, true, DispatchCharge(attempt, r, WorkerInvocation, 1));
    if first.outcome in {Overspend, BudgetMissing} then None
    else
      var second := InsertWithinAllowance(first.ledger, limits, true, DispatchCharge(attempt, r, Request, amount));
      if second.outcome in {Overspend, BudgetMissing} then None else Some(second.ledger)
  }

  /** DISPATCHING, RUNNING and both charges in one commit. The attempt's present state is not looked at. */
  function BeginDispatch(db: Db, limits: Limits, r: RequestId, amount: Positive): Option<Db>
    requires r in db.attempts
  {
    var attempt := db.attempts[r];
    var charged := ChargeDispatch(db.ledger, limits, attempt, r, amount);
    if charged.None? then None
    else
      Some(SetExperiment(SetAttempt(db, r, Dispatching), attempt.experiment, RunningExperiment)
           .(ledger := charged.value))
  }

  /** One dispatch charge: allowances kept, its key present afterwards, and at most that one row added. */
  lemma {:induction false} InsertDispatchCharge(ledger: seq<Charge>, limits: Limits, charge: Charge, after: seq<Charge>)
    requires ValidLedger(ledger, limits)
    requires charge.request.Some? && !Untracked(charge.resource)
    requires charge.budget in limits.issued
    requires InsertWithinAllowance(ledger, limits, true, charge).outcome !in {Overspend, BudgetMissing}
    requires after == InsertWithinAllowance(ledger, limits, true, charge).ledger
    ensures ValidLedger(after, limits)
    ensures HasKey(after, charge.budget, charge.request.value, charge.resource)
    ensures after == if Duplicate(ledger, charge) then ledger else ledger + [charge]
  {
    RecordConsumptionKeepsLedgerValid(ledger, limits, true, charge, RecordConsumption(ledger, limits, true, charge));
  }

  /** The ledger effect of a dispatch, charge by charge. */
  lemma {:induction false} ChargeDispatchRecordsBothKeys(
    ledger: seq<Charge>, limits: Limits, attempt: Attempt, r: RequestId, amount: Positive,
    first: seq<Charge>, after: seq<Charge>)
    requires ValidLedger(ledger, limits)
    requires first == InsertWithinAllowance(ledger, limits, true, DispatchCharge(attempt, r, WorkerInvocation, 1)).ledger
    requires ChargeDispatch(ledger, limits, attempt, r, amount) == Some(after)
    ensures ValidLedger(after, limits)
    ensures HasKey(after, attempt.budget, r, WorkerInvocation) && HasKey(after, attempt.budget, r, Request)
    ensures first == if HasKey(ledger, attempt.budget, r, WorkerInvocation) then ledger
                     else ledger + [DispatchCharge(attempt, r, WorkerInvocation, 1)]
    ensures after == if HasKey(first, attempt.budget, r, Request) then first
                     else first + [DispatchCharge(attempt, r, Request, amount)]
  {
    InsertDispatchCharge(ledger, limits, DispatchCharge(attempt, r, WorkerInvocation, 1), first);
    InsertDispatchCharge(first, limits, DispatchCharge(attempt, r, Request, amount), after);
    KeyPersists(first, after, attempt.budget, r, WorkerInvocation);
  }

  lemma KeyPersists(ledger: seq<Charge>, longer: seq<Charge>, budget: BudgetId, r: RequestId, resource: Resource)
    requires ledger <= longer && HasKey(ledger, budget, r, resource)
    ensures HasKey(longer, budget, r, resource)
  {
    var i :| 0 <= i < |ledger| && ledger[i].budget == budget && ledger[i].request == Some(r)
             && ledger[i].resource == resource;
    assert longer[i] == ledger[i];
  }

  // ------------------------------------------------------------------ TX3: outcome

  datatype Classification = Classification(attempt: AttemptState, experiment: ExperimentState, status: LoopStatus)

  function ClassifyInvocation(invocation: Invocation): Classification {
    match invocation.status
    case InvocationCompleted =>
      (match invocation.document
       case Some(WorkerDocument(ReauthorizationRequired, _, _)) =>
         Classification(AttemptCompleted, AuthorizationCheck, ReauthorizationNeeded)
       case Some(WorkerDocument(ResultBudgetExhausted, _, _)) =>
         Classification(AttemptCompleted, ExperimentBudgetExhausted, DispatchDenied)
       case Some(WorkerDocument(ResultBlocked, _, _)) =>
         Classification(AttemptCompleted, ExperimentBlocked, NoObservationMade)
       case _ => Classification(AttemptCompleted, ExecutionSucceeded, NoObservationMade))
    case InvocationTimedOut => Classification(TimedOut, ExecutionFailed, InvocationFailed)
    case InvocationCancelled => Classification(Cancelled, ExperimentCancelled, InvocationFailed)
    case _ => Classification(AttemptFailed, ExecutionFailed, InvocationFailed)
  }

  function RecordOutcome(db: Db, r: RequestId, invocation: Invocation): Db
    requires r in db.attempts
  {
    var classified := ClassifyInvocation(invocation);
    SetExperiment(SetAttempt(db, r, classified.attempt), db.attempts[r].experiment, classified.experiment)
  }

  function DeliveryFor(db: Db, r: RequestId, document: WorkerDocument): Delivery
    requires r in db.attempts
  {
    var attempt := db.attempts[r];
    Delivery(r, attempt.experiment, attempt.budget, document.status, document.drafts, document.wellFormed)
  }

  /** TX4 and, for a rejected result, the transaction that marks the attempt failed. */
  function IngestOutcomeOf(db: Db, r: RequestId, document: WorkerDocument): IngestResult
    requires r in db.attempts
  {
    var ingested := Ingest(db, DeliveryFor(db, r, document));
    if ingested.outcome.RejectedInvalidInvocation? then
      IngestResult(
        SetExperiment(SetAttempt(ingested.db, r, AttemptFailed), db.attempts[r].experiment, ExecutionFailed),
        ingested.outcome)
    else ingested
  }

  function LoopStatusAfter(classified: LoopStatus, outcome: IngestOutcome): LoopStatus {
    match outcome
    case RejectedInvalidInvocation => InvocationFailed
    case NoObservation => if classified.ReauthorizationNeeded? then classified else NoObservationMade
    case Ingested(_) => ObservationProduced
    case AlreadyIngested(_) => ObservationProduced
    case Raised => TransactionRaised
  }

  function MarkUnknown(db: Db, r: RequestId): Db
    requires r in db.attempts
  {
    SetAttempt(db, r, UnknownOutcome)
  }

  /** Recording an outcome never returns an attempt to AUTHORIZED and never leaves it open. */
  lemma OutcomeClosesTheAttempt(db: Db, r: RequestId, invocation: Invocation)
    requires r in db.attempts
    ensures !OpenAttempt(RecordOutcome(db, r, invocation).attempts[r])
    ensures !RecordOutcome(db, r, invocation).attempts[r].state.Authorized?
  {
  }

  /** Recording an outcome ends the experiment for good, unless the Worker asked for reauthorization. */
  lemma {:induction false} OnlyReauthorizationReopens(db: Db, r: RequestId, invocation: Invocation)
    requires r in db.attempts && db.attempts[r].experiment in db.experiments
    ensures
      var state := RecordOutcome(db, r, invocation).experiments[db.attempts[r].experiment].state;
      var reauthorize := invocation.status.InvocationCompleted? && invocation.document.Some?
                         && invocation.document.value.status.ReauthorizationRequired?;
      && (TerminalExperiment(state) <==> !reauthorize)
      && (state.ExecutionSucceeded? ==> invocation.status.InvocationCompleted?)
      && (RecordOutcome(db, r, invocation).attempts[r].state.AttemptCompleted? <==> invocation.status.InvocationCompleted?)
  {
  }

  // ------------------------------------------------------------------ the transactions in program order

  datatype Outcome = Outcome(db: Db, status: LoopStatus, invoked: bool)

  /** What the Worker answers, and whether the transaction that records it commits. */
  datatype Answer = Answer(invocation: Invocation, stored: bool)

  /** Dispatch, the Worker's answer, its outcome and ingestion. */
  function DispatchOn(db: Db, limits: Limits, r: RequestId, answer: Answer): Outcome {
    if r !in db.attempts then Outcome(db, InputRejected, false)
    else if db.attempts[r].state.Dispatching? then Outcome(MarkUnknown(db, r), OutcomeUnknown, false)
    else if !db.attempts[r].state.Authorized? then Outcome(db, StatusForExisting(db.attempts[r].state), false)
    else if db.attempts[r].budget !in limits.issued then Outcome(db, InputRejected, false)
    else
      var amount := RequestAmount(db.ledger, limits, db.attempts[r]);
      if amount.None? || BeginDispatch(db, limits, r, amount.value).None? then Outcome(db, DispatchDenied, false)
      else AfterInvocation(BeginDispatch(db, limits, r, amount.value).value, r, answer)
  }

  /** When the outcome cannot be recorded the attempt stays DISPATCHING and nothing is ingested. */
  function AfterInvocation(db: Db, r: RequestId, answer: Answer): Outcome
    requires r in db.attempts
  {
    var invocation := answer.invocation;
    if !answer.stored then Outcome(db, InvocationFailed, true)
    else
      var status, recorded := ClassifyInvocation(invocation).status, RecordOutcome(db, r, invocation);
      if invocation.status.InvocationCompleted? && invocation.document.Some? then
        var ingested := IngestOutcomeOf(recorded, r, invocation.document.value);
        Outcome(ingested.db, LoopStatusAfter(status, ingested.outcome), true)
      else Outcome(recorded, status, true)
  }

  /** The attempt listed first for an experiment, if it has any. */
  ghost predicate ListedFirst(db: Db, x: ExperimentId, first: Option<RequestId>) {
    if first.None? then !HasAttemptFor(db, x)
    else first.value in db.attempts && db.attempts[first.value].experiment == x
  }

  predicate AskedToReauthorize(db: Db, x: ExperimentId) {
    exists r :: r in db.results && db.results[r].experiment == x && db.results[r].status.ReauthorizationRequired?
  }

  datatype Reentry = Reentry(db: Db, status: Option<LoopStatus>)

  /** An attempt found DISPATCHING becomes UNKNOWN_OUTCOME; nothing is dispatched. */
  function Reenter(db: Db, x: ExperimentId, first: Option<RequestId>): Reentry
    requires first.Some? ==> first.value in db.attempts
  {
    if x !in db.experiments then Reentry(db, Some(InputRejected))
    else if first.None? then
      Reentry(db, if TerminalExperiment(db.experiments[x].state) then Some(AlreadyTerminal) else None)
    else
      var state := db.attempts[first.value].state;
      if state.Dispatching? then Reentry(MarkUnknown(db, first.value), Some(OutcomeUnknown))
      else if state.AttemptCompleted? && AskedToReauthorize(db, x) then Reentry(db, Some(ReauthorizationNeeded))
      else Reentry(db, Some(StatusForExisting(state)))
  }

  function ExecuteOn(
    db: Db, limits: Limits, x: ExperimentId, r: RequestId, verdict: Verdict, plan: PlanBinding, answer: Answer,
    first: Option<RequestId>): Outcome
    requires first.Some? ==> first.value in db.attempts
  {
    var reentry := Reenter(db, x, first);
    if reentry.status.Some? then Outcome(reentry.db, reentry.status.value, false)
    else
      var authorized := AuthorizeWrite(db, x, r, verdict, plan);
      if !authorized.authorized then Outcome(authorized.db, authorized.status, false)
      else DispatchOn(authorized.db, limits, r, answer)
  }

  /** Whatever an experiment's first attempt is, executing it again never reaches the Worker. */
  lemma ReexecutionNeverInvokes(
    db: Db, limits: Limits, x: ExperimentId, r: RequestId, verdict: Verdict, plan: PlanBinding, answer: Answer,
    first: Option<RequestId>)
    requires ListedFirst(db, x, first)
    ensures
      var outcome := ExecuteOn(db, limits, x, r, verdict, plan, answer, first);
      && (HasAttemptFor(db, x) ==> !outcome.invoked && (outcome.db == db || outcome.status.OutcomeUnknown?))
      && (outcome.invoked ==>
            && verdict.Decided? && verdict.decision.Allow? && FreshRequest(db, r)
            && (if answer.stored then Closed(outcome.db, r) else DispatchedOpen(outcome.db, r)))
  {
    if ExecuteOn(db, limits, x, r, verdict, plan, answer, first).invoked {
      DispatchLeavesTheAttempt(AuthorizeWrite(db, x, r, verdict, plan).db, limits, r, answer);
    }
  }

  predicate Closed(db: Db, r: RequestId) {
    r in db.attempts && !db.attempts[r].state.Authorized? && !OpenAttempt(db.attempts[r])
  }

  lemma IngestionKeepsClosed(db: Db, r: RequestId, document: WorkerDocument)
    requires Closed(db, r)
    ensures Closed(IngestOutcomeOf(db, r, document).db, r)
  {
  }

  /** Called, but with no recorded outcome: the state that fails a restarted run closed. */
  predicate DispatchedOpen(db: Db, r: RequestId) {
    r in db.attempts && db.attempts[r].state.Dispatching?
  }

  lemma InvocationLeavesTheAttempt(db: Db, r: RequestId, answer: Answer)
    requires DispatchedOpen(db, r)
    ensures var after := AfterInvocation(db, r, answer).db;
            if answer.stored then Closed(after, r) else DispatchedOpen(after, r)
  {
    OutcomeClosesTheAttempt(db, r, answer.invocation);
    if answer.invocation.document.Some? {
      IngestionKeepsClosed(RecordOutcome(db, r, answer.invocation), r, answer.invocation.document.value);
    }
  }

  lemma DispatchLeavesTheAttempt(db: Db, limits: Limits, r: RequestId, answer: Answer)
    requires DispatchOn(db, limits, r, answer).invoked
    ensures var after := DispatchOn(db, limits, r, answer).db;
            if answer.stored then Closed(after, r) else DispatchedOpen(after, r)
  {
    var amount := RequestAmount(db.ledger, limits, db.attempts[r]).value;
    InvocationLeavesTheAttempt(BeginDispatch(db, limits, r, amount).value, r, answer);
  }

  // ------------------------------------------------------------------ the use case

  /** One process executing planned experiments against the store, with no other writer in between. */
  class ExecutePlannedExperiment {
    var db: Db
    const limits: Limits
    /** Requests handed to the Worker, in order. */
    var invoked: seq<RequestId>

    constructor (db: Db, limits: Limits)
      ensures this.db == db && this.limits == limits && invoked == []
    {
      this.db := db;
      this.limits := limits;
      this.invoked := [];
    }

    method FirstAttempt(x: ExperimentId) returns (found: Option<RequestId>)
      ensures found.Some? ==> found.value in db.attempts && db.attempts[found.value].experiment == x
      ensures found.None? <==> !HasAttemptFor(db, x)
    {
      var candidates := set r | r in db.attempts && db.attempts[r].experiment == x;
      if candidates == {} {
        assert forall r :: r in db.attempts && db.attempts[r].experiment == x ==> r in candidates;
        return None;
      }
      var r :| r in candidates;
      return Some(r);
    }

    method AuthorizeExperiment(x: ExperimentId, r: RequestId, verdict: Verdict, plan: PlanBinding)
      returns (status: LoopStatus, authorized: bool)
      modifies this`db
      ensures exists existing: Option<AttemptState> ::
                && Listed(old(db), x, existing)
                && AuthorizeResult(db, status, authorized) == Authorize(old(db), x, r, verdict, plan, existing)
    {
      if x !in db.experiments {
        ghost var listing := Listing(db, x);
        assert AuthorizeResult(db, InputRejected, false) == Authorize(db, x, r, verdict, plan, listing);
        return InputRejected, false;
      }
      if TerminalExperiment(db.experiments[x].state) {
        ghost var listing := Listing(db, x);
        assert AuthorizeResult(db, AlreadyTerminal, false) == Authorize(db, x, r, verdict, plan, listing);
        return AlreadyTerminal, false;
      }
      var first := FirstAttempt(x);
      if first.Some? {
        status := StatusForExisting(db.attempts[first.value].state);
        assert AuthorizeResult(db, status, false)
            == Authorize(db, x, r, verdict, plan, Some(db.attempts[first.value].state));
        return status, false;
      }
      var before := db;
      match verdict {
        case RejectedInput => status, authorized := InputRejected, false;
        case UnboundCapability => status, authorized := DispatchDenied, false;
        case RateLimited =>
          db := SetExperiment(db, x, ExperimentBlocked);
          status, authorized := DispatchDenied, false;
        case Decided(decision, exhausted) =>
          if r in db.attempts || DecisionAudit(r) in db.audits {
            status, authorized := TransactionRaised, false;
          } else {
            db := db.(audits := db.audits[DecisionAudit(r) := ExecutionDecided(decision)]);
            match decision {
              case Deny =>
                db := SetExperiment(db, x, if exhausted then ExperimentBudgetExhausted else ExperimentBlocked);
                status, authorized := DispatchDenied, false;
              case RequireReview =>
                db := SetExperiment(db, x, AuthorizationCheck);
                status, authorized := HumanReviewRequired, false;
              case Allow =>
                var attempt := Attempt(x, db.experiments[x].budget, plan.capability, plan.reusesConnection,
                                       plan.sideEffectLevel, Authorized);
                db := db.(attempts := db.attempts[r := attempt]);
                db := SetExperiment(db, x, ReadyToRun);
                status, authorized := AuthorizedNotDispatched, true;
            }
          }
      }
      assert AuthorizeResult(db, status, authorized) == Authorize(before, x, r, verdict, plan, None);
    }

    /** The dispatch transaction, the Worker call, the outcome and ingestion, in program order. */
    method Dispatch(r: RequestId, answer: Answer) returns (status: LoopStatus)
      modifies this
      ensures Outcome(db, status, invoked != old(invoked)) == DispatchOn(old(db), limits, r, answer)
      ensures invoked == old(invoked) || invoked == old(invoked) + [r]
    {
      if r !in db.attempts {
        return InputRejected;
      }
      var attempt := db.attempts[r];
      if !attempt.state.Authorized? {
        if attempt.state.Dispatching? {
          db := MarkUnknown(db, r);
          return OutcomeUnknown;
        }
        return StatusForExisting(attempt.state);
      }
      if attempt.budget !in limits.issued {
        return InputRejected;
      }
      var amount := RequestAmount(db.ledger, limits, attempt);
      if amount.None? {
        return DispatchDenied;
      }
      var begun := BeginDispatch(db, limits, r, amount.value);
      if begun.None? {
        return DispatchDenied;
      }
      db := begun.value;
      invoked := invoked + [r];
      if !answer.stored {
        return InvocationFailed;
      }
      var invocation := answer.invocation;
      var classified := ClassifyInvocation(invocation);
      db := RecordOutcome(db, r, invocation);
      status := classified.status;
      if invocation.status == InvocationCompleted && invocation.document.Some? {
        var ingested := IngestOutcomeOf(db, r, invocation.document.value);
        db := ingested.db;
        status := LoopStatusAfter(classified.status, ingested.outcome);
      }
    }

    /** Re-entry for an experiment that already has an attempt: classify it, never dispatch it. */
    method FailClosedExisting(x: ExperimentId) returns (status: Option<LoopStatus>, ghost first: Option<RequestId>)
      modifies this`db
      ensures ListedFirst(old(db), x, first) && Reentry(db, status) == Reenter(old(db), x, first)
    {
      var found := FirstAttempt(x);
      first := found;
      if x !in db.experiments {
        status := Some(InputRejected);
      } else if found.None? {
        status := if TerminalExperiment(db.experiments[x].state) then Some(AlreadyTerminal) else None;
      } else {
        var attempt := db.attempts[found.value];
        if attempt.state.Dispatching? {
          db := MarkUnknown(db, found.value);
          status := Some(OutcomeUnknown);
        } else if attempt.state.AttemptCompleted? && AskedToReauthorize(db, x) {
          status := Some(ReauthorizationNeeded);
        } else {
          status := Some(StatusForExisting(attempt.state));
        }
      }
    }

    /** The whole use case, with no other writer in between. */
    method Execute(x: ExperimentId, r: RequestId, verdict: Verdict, plan: PlanBinding, answer: Answer)
      returns (status: LoopStatus, ghost first: Option<RequestId>)
      modifies this
      ensures ListedFirst(old(db), x, first)
      ensures Outcome(db, status, invoked != old(invoked))
           == ExecuteOn(old(db), limits, x, r, verdict, plan, answer, first)
      ensures invoked == old(invoked) || invoked == old(invoked) + [r]
      ensures HasAttemptFor(old(db), x) ==> invoked == old(invoked)
    {
      var existing;
      existing, first := FailClosedExisting(x);
      if existing.Some? {
        return existing.value, first;
      }
      var authorized;
      status, authorized := AuthorizeExperiment(x, r, verdict, plan);
      if authorized {
        status := Dispatch(r, answer);
      }
    }
  }

  /** Authorization with the orchestration save in the same transaction. */
  method AuthorizeFenced(
    executor: ExecutePlannedExperiment, repository: O.FencedOrchestrationRepository,
    x: ExperimentId, r: RequestId, verdict: Verdict, plan: PlanBinding, current: O.Row, now: O.Time)
    returns (status: LoopStatus, authorized: bool)
    modifies executor`db, repository.inner
    ensures exists existing: Option<AttemptState> ::
              && Listed(old(executor.db), x, existing)
              && HookedResult(executor.db, repository.inner.row, status, authorized)
                 == AuthorizeWithHook(
                      old(executor.db), x, r, verdict, plan, existing, old(repository.inner.row), current,
                      O.FencedGuard(O.UNGUARDED, repository.owner, repository.epoch), now)
  {
    var before := executor.db;
    status, authorized := executor.AuthorizeExperiment(x, r, verdict, plan);
    if authorized {
      var outcome := repository.Save(O.UpdateRow(current, O.PersistAttempt), O.UNGUARDED, now);
      if outcome != O.Saved {
        executor.db := before;
        status, authorized := TransactionRaised, false;
      }
    }
  }
}
