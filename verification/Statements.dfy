/** What each statement on the orchestration row answers and what it leaves, column by column. */
module Statements {
  import opened Wrappers
  import W = Whitespace
  import opened Orchestration

  predicate SameLease(row: Row, row': Row) {
    row'.owner == row.owner && row'.epoch == row.epoch && row'.expiresAt == row.expiresAt
  }

  predicate SameReasons(row: Row, row': Row) {
    row'.pauseReason == row.pauseReason && row'.stopReason == row.stopReason
  }

  // ------------------------------------------------------------------ save and leases

  /** A save is decided by the row alone: its state, its lease and, for a reconciliation, whether somebody holds it. */
  lemma SaveAnswers(row: Option<Row>, record: Row, guard: SaveGuard, now: Time)
    ensures
      var result := SaveRow(row, record, guard, now);
      var half := guard.expectOwner.Some? != guard.expectEpoch.Some?;
      var both := guard.expectOwner.Some? && guard.requireUnownedOrExpired;
      var ended := row.Some? && row.value.state in {Completed, BudgetExhausted, FailedOperational};
      var fenced := row.Some? && guard.expectOwner.Some? && guard.expectEpoch.Some?
                    && !(row.value.owner == guard.expectOwner && row.value.epoch == guard.expectEpoch.value);
      var held := row.Some? && row.value.owner.Some? && !(row.value.expiresAt.Some? && row.value.expiresAt.value < now);
      && (result.outcome.InvalidGuard? <==> half || both)
      && (result.outcome.RowMissing? <==> !half && !both && row.None?)
      && (result.outcome.TerminalState? <==> !half && !both && ended)
      && (result.outcome.LeaseFencing? <==>
            !half && !both && row.Some? && !ended && (fenced || (guard.requireUnownedOrExpired && held)))
      && result.row == if result.outcome.Saved? then Some(record) else row
  {
  }

  /** An acquisition takes a live row that is unowned, expired or already the caller's, and counts the epoch up. */
  lemma AcquireAnswers(row: Option<Row>, owner: RuntimeId, ttl: Time, now: Time)
    ensures
      var result := AcquireRow(row, owner, ttl, now);
      var valid := !W.Blank(owner) && ttl > 0.0;
      var ended := row.Some? && row.value.state in {Completed, BudgetExhausted, FailedOperational};
      var held := row.Some? && row.value.owner.Some? && row.value.owner != Some(owner)
                  && !(row.value.expiresAt.Some? && row.value.expiresAt.value < now);
      && (result.outcome.InvalidAcquire? <==> !valid)
      && (result.outcome.NotFound? <==> valid && row.None?)
      && (result.outcome.DeniedTerminal? <==> valid && ended)
      && (result.outcome.DeniedHeldByOther? <==> valid && !ended && held)
      && (if result.outcome.Acquired? then
            && row.Some? && result.row.Some?
            && result.row == Some(row.value.(owner := Some(owner), epoch := row.value.epoch + 1, expiresAt := Some(now + ttl)))
          else result.row == row)
  {
  }

  /** A renewal moves the expiry of a live row its caller holds, a release clears the lease of any row its caller holds. */
  lemma HolderAnswers(row: Option<Row>, owner: RuntimeId, epoch: nat, ttl: Time, now: Time)
    ensures
      var renewed, released := RenewRow(row, owner, epoch, ttl, now), ReleaseRow(row, owner, epoch);
      var holds := row.Some? && row.value.owner == Some(owner) && row.value.epoch == epoch;
      && (renewed.accepted <==> holds && row.value.state !in {Completed, BudgetExhausted, FailedOperational})
      && (released.accepted <==> holds)
      && renewed.row == (if renewed.accepted then Some(row.value.(expiresAt := Some(now + ttl))) else row)
      && released.row == (if released.accepted then Some(row.value.(owner := None, expiresAt := None)) else row)
  {
  }

  // ------------------------------------------------------------------ rows a step writes

  /** No write of a step touches cycle number, pause reason or lease; the phase moves for three of them only. */
  lemma UpdateLeaves(current: Row, update: RowUpdate)
    ensures
      var after := UpdateRow(current, update);
      && SameLease(current, after) && after.cycleNumber == current.cycleNumber && after.pauseReason == current.pauseReason
      && match update
         case MarkRunning =>
           after.state.Running? && after.currentPhase == current.currentPhase && after.lastPhase == Note("running")
           && after.stopReason == current.stopReason
         case Checkpoint(phase) =>
           after.state.Running? && after.currentPhase == phase && after.lastPhase == AtPhase(phase)
           && after.stopReason == current.stopReason
         case PlanExperiment =>
           after.state == current.state && after.currentPhase.ExperimentPlanned? && after.lastPhase == AtPhase(ExperimentPlanned)
           && after.stopReason == current.stopReason
         case PersistAttempt =>
           after.state.Running? && after.currentPhase.AttemptAuthorized? && after.lastPhase == AtPhase(AttemptAuthorized)
           && after.stopReason == current.stopReason
         case StopForFailure(note) =>
           after.state.FailedOperational? && after.currentPhase == current.currentPhase && after.lastPhase == Note(note)
           && after.stopReason == Some(OperationalFailure)
  {
  }

  /** A command is refused in the wrong state and otherwise changes state, reasons and note; never cycle, phase or lease. */
  lemma CommandLeaves(command: OperatorCommand, read: Row)
    ensures
      var write := OperatorWrite(command, read);
      && (write.Some? <==>
            match command
            case ResumeRun => read.state.Paused?
            case MarkFailure => read.state.Running?
            case _ => read.state !in {Completed, BudgetExhausted, FailedOperational})
      && (write.Some? ==>
            var after, guard := write.value.0, write.value.1;
            && SameLease(read, after) && after.cycleNumber == read.cycleNumber && after.currentPhase == read.currentPhase
            && guard == SaveGuard(None, None, command.MarkFailure?)
            && match command
               case PauseRun =>
                 after.state.Paused? && after.stopReason == after.pauseReason == Some(OperatorPaused)
                 && after.lastPhase == Note("operator")
               case CancelRun =>
                 after.state.Completed? && after.stopReason == Some(OperatorCancelled)
                 && after.pauseReason == read.pauseReason && after.lastPhase == Note("operator")
               case ResumeRun =>
                 after.state.Ready? && after.stopReason == after.pauseReason == None && after.lastPhase == Note("resume")
               case MarkFailure =>
                 after.state.FailedOperational? && after.stopReason == Some(OperationalFailure)
                 && after.pauseReason == read.pauseReason && after.lastPhase == Note("reconciliation"))
  {
  }

  // ------------------------------------------------------------------ ends of cycles

  /** What the end of a cycle leaves: it is counted unless it just continues, and an explicit state, phase or reason wins. */
  lemma CycleEndLeaves(current: Row, end: CycleEnd)
    ensures
      var after, counted := CompleteCycleRow(current, end), end.increment || !end.outcome.Continue?;
      && SameLease(current, after) && after.lastPhase == Note(end.note)
      && after.cycleNumber - current.cycleNumber == (if counted then 1 else 0)
      && (end.state.Some? ==> after.state == end.state.value)
      && (end.state.None? ==>
            match end.outcome
            case Continue => after.state.Ready?
            case CompleteRun => after.state.Completed?
            case _ => after.state == current.state)
      && (end.phase.Some? ==> after.currentPhase == end.phase.value)
      && (end.phase.None? ==> if counted then after.currentPhase.CycleComplete? else after.currentPhase == current.currentPhase)
      && (end.stop.Some? ==> after.stopReason == end.stop)
      && (end.stop.None? ==> after.stopReason == current.stopReason)
      && (end.pause.Some? ==> after.pauseReason == end.pause.value)
      && (end.pause.None? ==> after.pauseReason == current.pauseReason)
  {
  }

  const BLOCKING: set<StopReason> :=
    {CoreBlocked, NoCompatibleRuntime, ContentPolicyBlocked, AuthRequired, RateLimited}

  /** Which state and outcome a stop leaves for which reasons. */
  lemma StopLeaves(current: Row, reason: StopReason, note: string, increment: bool, phase: Option<CyclePhase>)
    ensures
      var end := StopEnd(reason, note, increment, phase);
      var after := CompleteCycleRow(current, end);
      && after.stopReason == Some(reason) && after.pauseReason == current.pauseReason && after.lastPhase == Note(note)
      && after.cycleNumber == current.cycleNumber + 1
      && after.currentPhase == (if phase.Some? then phase.value else CycleComplete)
      && (after.state.BudgetExhausted? <==> reason.StopBudgetExhausted?)
      && (after.state.WaitingHuman? <==> reason.RequireHumanReview?)
      && (after.state.Paused? <==> reason.OperatorPaused?)
      && (after.state.FailedOperational? <==> reason.OperationalFailure?)
      && (after.state.BlockedState? <==> reason in BLOCKING)
      && !Runnable(after.state)
      && (end.outcome.HumanReview? <==> reason.RequireHumanReview?)
      && (end.outcome.PauseCycle? <==> reason.OperatorPaused?)
      && (end.outcome.Blocked? <==> reason in BLOCKING + {OperationalFailure})
      && !end.outcome.Continue?
  {
  }

  /** A new run is READY at cycle 0 and unowned, unless it may not have a single cycle. */
  lemma StartLeaves(maxCycles: nat)
    ensures
      var row := StartRow(maxCycles);
      && (row.state.Ready? <==> maxCycles > 0) && (row.state.Completed? <==> maxCycles == 0)
      && (row.stopReason == Some(MaxCyclesReached) <==> maxCycles == 0) && (row.stopReason.None? <==> maxCycles > 0)
      && row.cycleNumber == 0 && row.currentPhase.CycleReady? && row.lastPhase == Note("start") && row.pauseReason.None?
      && row.owner.None? && row.epoch == 0 && row.expiresAt.None?
  {
  }
}
