/**
  The single `research_orchestration` row of one run: the repository's compare-and-swap
  statements, the lease fencing around them, and the row each controller method writes.

  Every statement is given twice: as a function from row to row, which the transition system of
  module Runs is built from, and as a method of a class holding the row, proved equal to it.
 */
module Orchestration {
  import opened Wrappers
  import W = Whitespace

  type RuntimeId = string
  type Time = real

  datatype RunState =
    | Ready
    | Running
    | Paused
    | WaitingHuman
    | BlockedState
    | BudgetExhausted
    | Completed
    | FailedOperational

  datatype CyclePhase =
    | CycleReady
    | OpportunitySelected
    | HypothesisAdmitted
    | ExperimentPlanned
    | AuthorizationRequested
    | AttemptAuthorized
    | PhaseDispatching
    | WorkerResultRecorded
    | TransitionAComplete
    | AssessmentComplete
    | TransitionBComplete
    | CycleComplete

  datatype StopReason =
    | NoMoreOpportunities
    | StopBudgetExhausted
    | MaxCyclesReached
    | MaxDurationReached
    | RequireHumanReview
    | NoCompatibleRuntime
    | CoreBlocked
    | OperatorPaused
    | OperatorCancelled
    | OperationalFailure
    | ContentPolicyBlocked
    | AuthRequired
    | RateLimited
    | StopCancelled

  datatype CycleOutcome = Continue | PauseCycle | CompleteRun | Blocked | HumanReview

  /** The free-form `last_phase` column: a durable phase or a note of who wrote last. */
  datatype PhaseLabel = AtPhase(phase: CyclePhase) | Note(text: string)

  /** The columns the protocol depends on. The whole record is written by every save, lease columns included. */
  datatype Row = Row(
    state: RunState,
    cycleNumber: nat,
    currentPhase: CyclePhase,
    lastPhase: PhaseLabel,
    pauseReason: Option<StopReason>,
    stopReason: Option<StopReason>,
    owner: Option<RuntimeId>,
    epoch: nat,
    expiresAt: Option<Time>)

  predicate Terminal(state: RunState) {
    state.Completed? || state.BudgetExhausted? || state.FailedOperational?
  }

  predicate Runnable(state: RunState) {
    state.Ready? || state.Running?
  }

  /** SQL comparison with a null expiry is not true. */
  predicate UnownedOrExpired(row: Row, now: Time) {
    row.owner.None? || (row.expiresAt.Some? && row.expiresAt.value < now)
  }

  predicate HeldBy(row: Row, owner: RuntimeId, epoch: nat) {
    row.owner == Some(owner) && row.epoch == epoch
  }

  // ------------------------------------------------------------------ repository statements

  datatype SaveGuard = SaveGuard(
    expectOwner: Option<RuntimeId>,
    expectEpoch: Option<nat>,
    requireUnownedOrExpired: bool)

  datatype SaveOutcome = Saved | RowMissing | TerminalState | LeaseFencing | InvalidGuard

  datatype SaveResult = SaveResult(row: Option<Row>, outcome: SaveOutcome)

  const UNGUARDED := SaveGuard(None, None, false)

  predicate WellFormedGuard(guard: SaveGuard) {
    && guard.expectOwner.Some? == guard.expectEpoch.Some?
    && !(guard.expectOwner.Some? && guard.requireUnownedOrExpired)
  }

  /** The WHERE clause of the save statement. */
  predicate SaveMatches(row: Row, guard: SaveGuard, now: Time)
    requires WellFormedGuard(guard)
  {
    && !Terminal(row.state)
    && (guard.expectOwner.Some? ==> HeldBy(row, guard.expectOwner.value, guard.expectEpoch.value))
    && (guard.requireUnownedOrExpired ==> UnownedOrExpired(row, now))
  }

  function SaveRow(row: Option<Row>, record: Row, guard: SaveGuard, now: Time): SaveResult {
    if !WellFormedGuard(guard) then SaveResult(row, InvalidGuard)
    else if row.None? then SaveResult(row, RowMissing)
    else if SaveMatches(row.value, guard, now) then SaveResult(Some(record), Saved)
    else if Terminal(row.value.state) then SaveResult(row, TerminalState)
    else SaveResult(row, LeaseFencing)
  }

  datatype AcquireOutcome = Acquired | DeniedTerminal | DeniedHeldByOther | NotFound | InvalidAcquire

  datatype AcquireResult = AcquireResult(row: Option<Row>, outcome: AcquireOutcome)

  function AcquireRow(row: Option<Row>, owner: RuntimeId, ttl: Time, now: Time): AcquireResult {
    if W.Blank(owner) || ttl <= 0.0 then AcquireResult(row, InvalidAcquire)
    else if row.None? then AcquireResult(row, NotFound)
    else
      var current := row.value;
      if !Terminal(current.state) && (current.owner == Some(owner) || UnownedOrExpired(current, now)) then
        AcquireResult(
          Some(current.(owner := Some(owner), epoch := current.epoch + 1, expiresAt := Some(now + ttl))),
          Acquired)
      else if Terminal(current.state) then AcquireResult(row, DeniedTerminal)
      else AcquireResult(row, DeniedHeldByOther)
  }

  datatype RenewResult = RenewResult(row: Option<Row>, accepted: bool)

  function RenewRow(row: Option<Row>, owner: RuntimeId, epoch: nat, ttl: Time, now: Time): RenewResult {
    if row.Some? && HeldBy(row.value, owner, epoch) && !Terminal(row.value.state) then
      RenewResult(Some(row.value.(expiresAt := Some(now + ttl))), true)
    else RenewResult(row, false)
  }

  function ReleaseRow(row: Option<Row>, owner: RuntimeId, epoch: nat): RenewResult {
    if row.Some? && HeldBy(row.value, owner, epoch) then
      RenewResult(Some(row.value.(owner := None, expiresAt := None)), true)
    else RenewResult(row, false)
  }

  /** The orchestration repository over one run's row. */
  class OrchestrationRepository {
    var row: Option<Row>

    constructor ()
      ensures row == None
    {
      row := None;
    }

    method Save(record: Row, guard: SaveGuard, now: Time) returns (outcome: SaveOutcome)
      modifies this
      ensures SaveResult(row, outcome) == SaveRow(old(row), record, guard, now)
    {
      if guard.expectOwner.None? != guard.expectEpoch.None? {
        return InvalidGuard;
      }
      if guard.expectOwner.Some? && guard.requireUnownedOrExpired {
        return InvalidGuard;
      }
      if row.Some? && !Terminal(row.value.state) {
        var matched := true;
        if guard.expectOwner.Some? {
          matched := row.value.owner == guard.expectOwner && Some(row.value.epoch) == guard.expectEpoch;
        }
        if guard.requireUnownedOrExpired {
          matched := matched && UnownedOrExpired(row.value, now);
        }
        if matched {
          row := Some(record);
          return Saved;
        }
      }
      if row.None? {
        return RowMissing;
      }
      if Terminal(row.value.state) {
        return TerminalState;
      }
      return LeaseFencing;
    }

    method AcquireLease(owner: RuntimeId, ttl: Time, now: Time) returns (outcome: AcquireOutcome)
      modifies this
      ensures AcquireResult(row, outcome) == AcquireRow(old(row), owner, ttl, now)
    {
      if W.Blank(owner) || ttl <= 0.0 {
        return InvalidAcquire;
      }
      if row.None? {
        return NotFound;
      }
      if !Terminal(row.value.state)
         && (row.value.owner.None? || row.value.owner == Some(owner) || UnownedOrExpired(row.value, now)) {
        row := Some(row.value.(owner := Some(owner), epoch := row.value.epoch + 1, expiresAt := Some(now + ttl)));
        return Acquired;
      }
      if Terminal(row.value.state) {
        return DeniedTerminal;
      }
      return DeniedHeldByOther;
    }

    method RenewLease(owner: RuntimeId, epoch: nat, ttl: Time, now: Time) returns (accepted: bool)
      modifies this
      ensures RenewResult(row, accepted) == RenewRow(old(row), owner, epoch, ttl, now)
    {
      accepted := row.Some? && row.value.owner == Some(owner) && row.value.epoch == epoch && !Terminal(row.value.state);
      if accepted {
        row := Some(row.value.(expiresAt := Some(now + ttl)));
      }
    }

    method ReleaseLease(owner: RuntimeId, epoch: nat) returns (accepted: bool)
      modifies this
      ensures RenewResult(row, accepted) == ReleaseRow(old(row), owner, epoch)
    {
      accepted := row.Some? && row.value.owner == Some(owner) && row.value.epoch == epoch;
      if accepted {
        row := Some(row.value.(owner := None, expiresAt := None));
      }
    }
  }

  // ------------------------------------------------------------------ fencing decorators

  /** `kwargs.setdefault`: the caller's own expectation, when given, wins over the remembered lease. */
  function FencedGuard(guard: SaveGuard, owner: RuntimeId, epoch: nat): SaveGuard {
    guard.(
      expectOwner := if guard.expectOwner.Some? then guard.expectOwner else Some(owner),
      expectEpoch := if guard.expectEpoch.Some? then guard.expectEpoch else Some(epoch))
  }

  /** Saves through the remembered lease of one supervisor. */
  class FencedOrchestrationRepository {
    const inner: OrchestrationRepository
    const owner: RuntimeId
    const epoch: nat

    constructor (inner: OrchestrationRepository, owner: RuntimeId, epoch: nat)
      ensures this.inner == inner && this.owner == owner && this.epoch == epoch
    {
      this.inner := inner;
      this.owner := owner;
      this.epoch := epoch;
    }

    method Save(record: Row, guard: SaveGuard, now: Time) returns (outcome: SaveOutcome)
      modifies inner
      ensures SaveResult(inner.row, outcome) == SaveRow(old(inner.row), record, FencedGuard(guard, owner, epoch), now)
    {
      var expectOwner, expectEpoch := guard.expectOwner, guard.expectEpoch;
      if expectOwner.None? {
        expectOwner := Some(owner);
      }
      if expectEpoch.None? {
        expectEpoch := Some(epoch);
      }
      outcome := inner.Save(record, SaveGuard(expectOwner, expectEpoch, guard.requireUnownedOrExpired), now);
    }
  }

  /** Refuses to call the Worker unless the remembered lease still matches the row. */
  class LeaseFencedWorkerPort<Request(==)> {
    const repository: OrchestrationRepository
    const owner: RuntimeId
    const epoch: nat
    /** Every request that reached the inner Worker, in order. */
    var delivered: seq<Request>

    constructor (repository: OrchestrationRepository, owner: RuntimeId, epoch: nat)
      ensures this.repository == repository && this.owner == owner && this.epoch == epoch
      ensures delivered == []
    {
      this.repository := repository;
      this.owner := owner;
      this.epoch := epoch;
      this.delivered := [];
    }

    method Invoke(request: Request) returns (invoked: bool)
      modifies this`delivered
      ensures invoked <==> repository.row.Some? && HeldBy(repository.row.value, owner, epoch)
      ensures delivered == if invoked then old(delivered) + [request] else old(delivered)
    {
      var record := repository.row;
      if record.None? {
        return false;
      }
      if record.value.owner != Some(owner) || record.value.epoch != epoch {
        return false;
      }
      delivered := delivered + [request];
      return true;
    }
  }

  /** A reconciliation write can never pass through a fenced repository: the two guards exclude each other. */
  lemma ReconciliationNeverPassesFencedSave(row: Option<Row>, record: Row, owner: RuntimeId, epoch: nat, now: Time)
    ensures
      var result := SaveRow(row, record, FencedGuard(SaveGuard(None, None, true), owner, epoch), now);
      result == SaveResult(row, InvalidGuard)
  {
  }

  // ------------------------------------------------------------------ rows the controller writes

  function StartRow(maxCycles: nat): Row {
    var zero := maxCycles == 0;
    Row(
      if zero then Completed else Ready, 0, CycleReady, Note("start"), None,
      if zero then Some(MaxCyclesReached) else None, None, 0, None)
  }

  function StateForStop(reason: StopReason): RunState {
    match reason
    case StopBudgetExhausted => BudgetExhausted
    case RequireHumanReview => WaitingHuman
    case OperatorPaused => Paused
    case OperationalFailure => FailedOperational
    case StopCancelled => Completed
    case CoreBlocked | NoCompatibleRuntime | ContentPolicyBlocked | AuthRequired | RateLimited => BlockedState
    case _ => Completed
  }

  function OutcomeForStop(reason: StopReason): CycleOutcome {
    match reason
    case RequireHumanReview => HumanReview
    case OperatorPaused => PauseCycle
    case CoreBlocked | NoCompatibleRuntime | ContentPolicyBlocked | OperationalFailure | AuthRequired | RateLimited =>
      Blocked
    case _ => CompleteRun
  }

  /** What one controller write changes relative to the record it remembers. */
  datatype RowUpdate =
    | MarkRunning
    | Checkpoint(phase: CyclePhase)
    | PlanExperiment
    | PersistAttempt
    | StopForFailure(note: string)

  function UpdateRow(current: Row, update: RowUpdate): Row {
    match update
    case MarkRunning => current.(state := Running, lastPhase := Note("running"))
    case Checkpoint(phase) => current.(state := Running, currentPhase := phase, lastPhase := AtPhase(phase))
    case PlanExperiment => current.(currentPhase := ExperimentPlanned, lastPhase := AtPhase(ExperimentPlanned))
    case PersistAttempt =>
      current.(state := Running, currentPhase := AttemptAuthorized, lastPhase := AtPhase(AttemptAuthorized))
    case StopForFailure(note) =>
      current.(state := FailedOperational, stopReason := Some(OperationalFailure), lastPhase := Note(note))
  }

  /** The arguments of `_complete_cycle`; `_stop` fills `stop` and `state` from its reason. */
  datatype CycleEnd = CycleEnd(
    outcome: CycleOutcome,
    note: string,
    stop: Option<StopReason>,
    state: Option<RunState>,
    increment: bool,
    phase: Option<CyclePhase>,
    pause: Option<Option<StopReason>>)

  function StopEnd(reason: StopReason, note: string, increment: bool, phase: Option<CyclePhase>): CycleEnd {
    CycleEnd(OutcomeForStop(reason), note, Some(reason), Some(StateForStop(reason)), increment, phase, None)
  }

  /** Whether completing the cycle also inserts a `research_cycle` row. */
  predicate Inserts(end: CycleEnd) {
    end.increment || end.outcome != Continue
  }

  function CompleteCycleRow(current: Row, end: CycleEnd): Row {
    var base :=
      if end.state.Some? then end.state.value
      else if end.outcome == Continue then Ready
      else current.state;
    current.(
      state := if end.outcome == CompleteRun && end.state.None? then Completed else base,
      cycleNumber := current.cycleNumber + (if Inserts(end) then 1 else 0),
      lastPhase := Note(end.note),
      currentPhase :=
        if end.phase.Some? then end.phase.value else if Inserts(end) then CycleComplete else current.currentPhase,
      pauseReason := if end.pause.Some? then end.pause.value else current.pauseReason,
      stopReason := if end.stop.Some? then end.stop else current.stopReason)
  }

  /** Operator and reconciliation commands. Each reads the row and saves a whole record in one transaction. */
  datatype OperatorCommand = PauseRun | ResumeRun | CancelRun | MarkFailure

  /** The record and guard a command writes from the row it read, or nothing when it refuses. */
  function OperatorWrite(command: OperatorCommand, read: Row): Option<(Row, SaveGuard)> {
    match command
    case PauseRun =>
      if Terminal(read.state) then None
      else
        Some((read.(state := Paused, stopReason := Some(OperatorPaused), pauseReason := Some(OperatorPaused),
                    lastPhase := Note("operator")), UNGUARDED))
    case CancelRun =>
      if Terminal(read.state) then None
      else Some((read.(state := Completed, stopReason := Some(OperatorCancelled), lastPhase := Note("operator")), UNGUARDED))
    case ResumeRun =>
      if read.state != Paused then None
      else Some((read.(state := Ready, pauseReason := None, stopReason := None, lastPhase := Note("resume")), UNGUARDED))
    case MarkFailure =>
      if read.state != Running then None
      else
        Some((read.(state := FailedOperational, stopReason := Some(OperationalFailure), lastPhase := Note("reconciliation")),
              SaveGuard(None, None, true)))
  }
}
