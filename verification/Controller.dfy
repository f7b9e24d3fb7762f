/**
  The write paths of the research controller over one run's row and cycle records, each one transaction: its commands,
  its checkpoints and the end of a cycle. Module Runs interleaves these same writes.
 */
module Controller {
  import opened Wrappers
  import O = Orchestration
  import R = Runs
  import L = LateCalls
  import T = Restart
  import S = Statements

  type Row = O.Row

  datatype Audit = CommandRejected(command: O.OperatorCommand, state: O.RunState) | OperationalFailureRecorded(previous: O.RunState)

  /** How a command ended: the run is unknown, nothing was written, the record was saved, or the save raised. */
  datatype CommandOutcome = NoRun | Unchanged(row: Row) | Written(row: Row) | Raised(save: O.SaveOutcome)

  datatype CommandResult = CommandResult(row: Option<Row>, audits: seq<Audit>, outcome: CommandOutcome)

  /** A terminal run answers an operator with a rejection audit; a reconciliation audits what it wrote. */
  function AuditsOf(command: O.OperatorCommand, read: Row, saved: bool): seq<Audit> {
    match command
    case ResumeRun => []
    case MarkFailure => if saved then [OperationalFailureRecorded(read.state)] else []
    case _ => if O.Terminal(read.state) then [CommandRejected(command, read.state)] else []
  }

  /** A command reads and saves in one transaction, through the lease when the process has one. */
  function Command(row: Option<Row>, command: O.OperatorCommand, lease: Option<R.Lease>, now: O.Time): CommandResult {
    if row.None? then CommandResult(row, [], NoRun)
    else
      var write := O.OperatorWrite(command, row.value);
      if write.None? then CommandResult(row, AuditsOf(command, row.value, false), Unchanged(row.value))
      else
        var guard := if lease.Some? then O.FencedGuard(write.value.1, lease.value.owner, lease.value.epoch) else write.value.1;
        var saved := O.SaveRow(row, write.value.0, guard, now);
        if saved.outcome.Saved? then CommandResult(saved.row, AuditsOf(command, row.value, true), Written(write.value.0))
        else CommandResult(row, [], Raised(saved.outcome))
  }

  datatype EndOutcome = Ended(row: Row) | FoundTerminal(durable: Row) | EndRaised(save: O.SaveOutcome)

  datatype EndResult = EndResult(row: Option<Row>, cycles: set<nat>, outcome: EndOutcome)

  /** Row and cycle record in one transaction; onto a terminal row neither is written and the durable record is returned. */
  function EndCycle(
    row: Option<Row>, cycles: set<nat>, current: Row, end: O.CycleEnd, lease: Option<R.Lease>, now: O.Time): EndResult
  {
    var record := O.CompleteCycleRow(current, end);
    var saved := O.SaveRow(row, record, R.GuardOf(lease), now);
    match saved.outcome
    case Saved => EndResult(saved.row, if O.Inserts(end) then cycles + {record.cycleNumber} else cycles, Ended(record))
    case TerminalState => EndResult(row, cycles, if row.Some? then FoundTerminal(row.value) else EndRaised(O.TerminalState))
    case other => EndResult(row, cycles, EndRaised(other))
  }

  class AutonomousResearchController {
    const repository: O.OrchestrationRepository
    const lease: Option<R.Lease>
    var cycles: set<nat>
    var audits: seq<Audit>

    constructor (repository: O.OrchestrationRepository, lease: Option<R.Lease>)
      ensures this.repository == repository && this.lease == lease && cycles == {} && audits == []
    {
      this.repository := repository;
      this.lease := lease;
      cycles, audits := {}, [];
    }

    method Save(record: Row, guard: O.SaveGuard, now: O.Time) returns (outcome: O.SaveOutcome)
      modifies repository
      ensures O.SaveResult(repository.row, outcome)
           == O.SaveRow(old(repository.row), record,
                        if lease.Some? then O.FencedGuard(guard, lease.value.owner, lease.value.epoch) else guard, now)
    {
      if lease.None? {
        outcome := repository.Save(record, guard, now);
      } else {
        var fenced := new O.FencedOrchestrationRepository(repository, lease.value.owner, lease.value.epoch);
        outcome := fenced.Save(record, guard, now);
      }
    }

    /** A run that exists is returned as it is. */
    method StartRun(maxCycles: nat) returns (row: Row)
      modifies repository
      ensures repository.row == Some(row)
      ensures row == if old(repository.row).Some? then old(repository.row).value else O.StartRow(maxCycles)
    {
      if repository.row.None? {
        repository.row := Some(O.StartRow(maxCycles));
      }
      row := repository.row.value;
    }

    method OperatorState(command: O.OperatorCommand, now: O.Time) returns (outcome: CommandOutcome)
      requires command.PauseRun? || command.CancelRun?
      modifies this`audits, repository
      ensures old(audits) <= audits
      ensures CommandResult(repository.row, audits[|old(audits)|..], outcome) == Command(old(repository.row), command, lease, now)
    {
      if repository.row.None? {
        return NoRun;
      }
      var current := repository.row.value;
      if O.Terminal(current.state) {
        audits := audits + [CommandRejected(command, current.state)];
        return Unchanged(current);
      }
      var updated :=
        if command.PauseRun? then
          current.(state := O.Paused, stopReason := Some(O.OperatorPaused), pauseReason := Some(O.OperatorPaused),
                   lastPhase := O.Note("operator"))
        else current.(state := O.Completed, stopReason := Some(O.OperatorCancelled), lastPhase := O.Note("operator"));
      var saved := Save(updated, O.UNGUARDED, now);
      return if saved == O.Saved then Written(updated) else Raised(saved);
    }

    method Resume(now: O.Time) returns (outcome: CommandOutcome)
      modifies repository
      ensures CommandResult(repository.row, [], outcome) == Command(old(repository.row), O.ResumeRun, lease, now)
    {
      if repository.row.None? {
        return NoRun;
      }
      var current := repository.row.value;
      if current.state != O.Paused {
        return Unchanged(current);
      }
      var updated := current.(state := O.Ready, pauseReason := None, stopReason := None, lastPhase := O.Note("resume"));
      var saved := Save(updated, O.UNGUARDED, now);
      return if saved == O.Saved then Written(updated) else Raised(saved);
    }

    /** Only for a RUNNING row that nobody holds; through a lease the two guards contradict each other and the save raises. */
    method MarkOperationalFailure(now: O.Time) returns (outcome: CommandOutcome)
      modifies this`audits, repository
      ensures old(audits) <= audits
      ensures CommandResult(repository.row, audits[|old(audits)|..], outcome) == Command(old(repository.row), O.MarkFailure, lease, now)
      ensures lease.Some? ==> repository.row == old(repository.row)
    {
      if repository.row.None? {
        return NoRun;
      }
      var current := repository.row.value;
      if current.state != O.Running {
        return Unchanged(current);
      }
      var updated := current.(state := O.FailedOperational, stopReason := Some(O.OperationalFailure),
                              lastPhase := O.Note("reconciliation"));
      var saved := Save(updated, O.SaveGuard(None, None, true), now);
      if saved != O.Saved {
        return Raised(saved);
      }
      audits := audits + [OperationalFailureRecorded(current.state)];
      return Written(updated);
    }

    /** The supervisor's own failure: only a READY or RUNNING row is failed. */
    method StopForOperationalFailure(note: string, now: O.Time) returns (outcome: CommandOutcome)
      modifies this`audits, repository
      ensures old(repository.row).None? || !O.Runnable(old(repository.row).value.state) ==>
                repository.row == old(repository.row) && audits == old(audits)
      ensures old(repository.row).None? ==> outcome == NoRun
      ensures old(repository.row).Some? && !O.Runnable(old(repository.row).value.state) ==>
                outcome == Unchanged(old(repository.row).value)
      ensures old(repository.row).Some? && O.Runnable(old(repository.row).value.state) ==>
                var current := old(repository.row).value;
                var saved := O.SaveRow(old(repository.row), O.UpdateRow(current, O.StopForFailure(note)), R.GuardOf(lease), now);
                && repository.row == saved.row
                && outcome == (if saved.outcome.Saved? then Written(saved.row.value) else Raised(saved.outcome))
                && audits == if saved.outcome.Saved? then old(audits) + [OperationalFailureRecorded(current.state)] else old(audits)
    {
      if repository.row.None? {
        return NoRun;
      }
      var current := repository.row.value;
      if !O.Runnable(current.state) {
        return Unchanged(current);
      }
      var updated := current.(state := O.FailedOperational, stopReason := Some(O.OperationalFailure), lastPhase := O.Note(note));
      var saved := Save(updated, O.UNGUARDED, now);
      if saved != O.Saved {
        return Raised(saved);
      }
      audits := audits + [OperationalFailureRecorded(current.state)];
      return Written(updated);
    }

    /** A checkpoint onto a terminal row writes nothing and goes on with the durable record; other refusals raise. */
    method Checkpoint(current: Row, phase: O.CyclePhase, now: O.Time) returns (next: Option<Row>)
      modifies repository
      ensures
        var record := O.UpdateRow(current, O.Checkpoint(phase));
        var saved := O.SaveRow(old(repository.row), record, R.GuardOf(lease), now);
        && repository.row == saved.row
        && next == (match saved.outcome case Saved => Some(record) case TerminalState => old(repository.row) case _ => None)
      ensures
        O.SaveRow(old(repository.row), current, R.GuardOf(lease), now).outcome.Saved? ==>
          && next.Some? && repository.row == next
          && next.value.state == O.Running && next.value.currentPhase == phase && next.value.lastPhase == O.AtPhase(phase)
          && next.value.cycleNumber == current.cycleNumber
          && next.value.pauseReason == current.pauseReason && next.value.stopReason == current.stopReason
          && next.value.owner == current.owner && next.value.epoch == current.epoch && next.value.expiresAt == current.expiresAt
    {
      var updated := current.(state := O.Running, currentPhase := phase, lastPhase := O.AtPhase(phase));
      var saved := Save(updated, O.UNGUARDED, now);
      match saved {
        case Saved => next := Some(updated);
        case TerminalState => next := repository.row;
        case _ => next := None;
      }
    }

    method CompleteCycle(current: Row, end: O.CycleEnd, now: O.Time) returns (outcome: EndOutcome)
      modifies this`cycles, repository
      ensures EndResult(repository.row, cycles, outcome)
           == EndCycle(old(repository.row), old(cycles), current, end, lease, now)
    {
      var inserting := end.increment || end.outcome != O.Continue;
      var number := current.cycleNumber + (if inserting then 1 else 0);
      var next :=
        if end.state.Some? then end.state.value
        else if end.outcome == O.Continue then O.Ready
        else current.state;
      if end.outcome == O.CompleteRun && end.state.None? {
        next := O.Completed;
      }
      var phase := current.currentPhase;
      if end.phase.Some? {
        phase := end.phase.value;
      } else if inserting {
        phase := O.CycleComplete;
      }
      var updated := current.(
        state := next, cycleNumber := number, lastPhase := O.Note(end.note), currentPhase := phase,
        pauseReason := if end.pause.Some? then end.pause.value else current.pauseReason,
        stopReason := if end.stop.Some? then end.stop else current.stopReason);
      var saved := Save(updated, O.UNGUARDED, now);
      match saved {
        case Saved =>
          if inserting {
            cycles := cycles + {number};
          }
          outcome := Ended(updated);
        case TerminalState => outcome := if repository.row.Some? then FoundTerminal(repository.row.value) else EndRaised(O.TerminalState);
        case other => outcome := EndRaised(other);
      }
    }

    method Stop(current: Row, reason: O.StopReason, note: string, increment: bool, phase: Option<O.CyclePhase>, now: O.Time)
      returns (outcome: EndOutcome)
      modifies this`cycles, repository
      ensures EndResult(repository.row, cycles, outcome)
           == EndCycle(old(repository.row), old(cycles), current, O.StopEnd(reason, note, increment, phase), lease, now)
    {
      var end := O.CycleEnd(O.OutcomeForStop(reason), note, Some(reason), Some(O.StateForStop(reason)), increment, phase, None);
      outcome := CompleteCycle(current, end, now);
    }
  }

  // ------------------------------------------------------------------ what commands and ends answer

  /** The guard a command's save carries through a lease, or without one. */
  function CommandGuard(command: O.OperatorCommand, lease: Option<R.Lease>): O.SaveGuard {
    var guard := O.SaveGuard(None, None, command.MarkFailure?);
    if lease.Some? then O.SaveGuard(Some(lease.value.owner), Some(lease.value.epoch), command.MarkFailure?) else guard
  }

  /** Each answer and each audit of a command stands for its own situation; a row that was not written is as it was. */
  lemma CommandAnswers(row: Option<Row>, command: O.OperatorCommand, lease: Option<R.Lease>, now: O.Time)
    ensures
      var result := Command(row, command, lease, now);
      var ended := row.Some? && row.value.state in {O.Completed, O.BudgetExhausted, O.FailedOperational};
      var fits := row.Some?
                  && match command
                     case ResumeRun => row.value.state.Paused?
                     case MarkFailure => row.value.state.Running?
                     case _ => !ended;
      && (result.outcome.NoRun? <==> row.None?)
      && (result.outcome.Unchanged? <==> row.Some? && !fits)
      && (result.outcome.Unchanged? ==> result.outcome.row == row.value)
      && (result.outcome.Written? <==> fits && O.SaveRow(row, row.value, CommandGuard(command, lease), now).outcome.Saved?)
      && (if result.outcome.Written? then result.row == Some(result.outcome.row) else result.row == row)
      && (result.audits != [] <==> (ended && (command.PauseRun? || command.CancelRun?)) || (command.MarkFailure? && result.outcome.Written?))
      && (result.audits != [] ==>
            result.audits == [if command.MarkFailure? then OperationalFailureRecorded(row.value.state)
                              else CommandRejected(command, row.value.state)])
      && (result.outcome.Written? && command.ResumeRun? ==>
            result.row.value.state.Ready? && result.row.value.pauseReason.None? && result.row.value.stopReason.None?
            && result.row.value.lastPhase == O.Note("resume") && result.row.value.currentPhase == row.value.currentPhase)
  {
    S.CommandLeaves(command, if row.Some? then row.value else O.StartRow(1));
  }

  /** The end of a cycle: row and record together, the durable record of an ended run, or a refusal that writes neither. */
  lemma EndAnswers(row: Option<Row>, cycles: set<nat>, current: Row, end: O.CycleEnd, lease: Option<R.Lease>, now: O.Time)
    ensures
      var result := EndCycle(row, cycles, current, end, lease, now);
      var counted := end.increment || !end.outcome.Continue?;
      && (result.outcome.Ended? <==>
            && row.Some? && row.value.state !in {O.Completed, O.BudgetExhausted, O.FailedOperational}
            && (lease.Some? ==> row.value.owner == Some(lease.value.owner) && row.value.epoch == lease.value.epoch))
      && (result.outcome.FoundTerminal? <==> row.Some? && row.value.state in {O.Completed, O.BudgetExhausted, O.FailedOperational})
      && (result.outcome.FoundTerminal? ==> result.outcome.durable == row.value)
      && (if result.outcome.Ended? then
            && result.row == Some(result.outcome.row)
            && result.cycles == cycles + (if counted then {current.cycleNumber + 1} else {})
          else result.row == row && result.cycles == cycles)
  {
  }

  // ------------------------------------------------------------------ the writes interleaved by module Runs

  /** A command interleaved at transaction boundaries is a read step followed at once by the write step of that read. */
  lemma CommandIsReadThenWrite(s: R.State, command: O.OperatorCommand)
    ensures
      var read := R.Apply(s, R.OperatorReads);
      R.Apply(read, R.OperatorWrites(|s.snapshots|, command)).row == Command(s.row, command, None, s.now).row
  {
  }

  /** The end of a cycle by a process of the system is the controller's method on the shared tables. */
  lemma EndIsEndCycle(s: R.State, i: nat, end: O.CycleEnd)
    requires R.MayEnd(s, i, end)
    ensures
      var s' := R.Apply(s, R.EndCycle(i, end));
      var result := EndCycle(s.row, s.cycles, s.agents[i].current.value, end, s.agents[i].lease, s.now);
      s'.row == result.row && s'.cycles == result.cycles
  {
  }

  /** Cancelling and every operational failure end the run; pausing and resuming leave it open. */
  lemma CommandsThatEndTheRun(row: Row, command: O.OperatorCommand, lease: Option<R.Lease>, now: O.Time)
    requires Command(Some(row), command, lease, now).outcome.Written?
    ensures
      var after := Command(Some(row), command, lease, now).row.value;
      && (O.Terminal(after.state) <==> command.CancelRun? || command.MarkFailure?)
      && after.cycleNumber == row.cycleNumber && after.epoch == row.epoch && after.owner == row.owner
      && (command.MarkFailure? ==> lease.None? && O.UnownedOrExpired(row, now))
  {
  }

  /** Every stop inserts a cycle record and leaves the run in a state no step continues from; it can be resumed only from the non-terminal ones. */
  lemma StopsEndStepping(current: Row, reason: O.StopReason, note: string, increment: bool, phase: Option<O.CyclePhase>)
    ensures
      var end := O.StopEnd(reason, note, increment, phase);
      var record := O.CompleteCycleRow(current, end);
      && O.Inserts(end) && record.cycleNumber == current.cycleNumber + 1
      && !O.Runnable(record.state) && record.stopReason == Some(reason)
      && (O.Terminal(record.state) <==>
            reason !in {O.RequireHumanReview, O.OperatorPaused, O.CoreBlocked, O.NoCompatibleRuntime,
                        O.ContentPolicyBlocked, O.AuthRequired, O.RateLimited})
  {
  }

  /** A stop whose save is accepted parks the run: with nobody else at work, nothing is executed until an operator resumes it. */
  lemma {:induction false} StopParksTheRun(
    s: R.State, i: nat, reason: O.StopReason, note: string, increment: bool, phase: Option<O.CyclePhase>, steps: seq<R.Step>)
    requires R.Doing(s, i, R.Stepping) && s.agents[i].current.Some?
    requires EndCycle(s.row, s.cycles, s.agents[i].current.value, O.StopEnd(reason, note, increment, phase), s.agents[i].lease, s.now)
             .outcome.Ended?
    requires forall j :: 0 <= j < |s.agents| && j != i ==> L.Stopped(s.agents[j])
    requires L.NoResume(steps)
    ensures
      var stopped := R.Apply(s, R.EndCycle(i, O.StopEnd(reason, note, increment, phase)));
      L.Parked(stopped.row) && T.SameExecution(s, R.Run(stopped, steps))
  {
    var end := O.StopEnd(reason, note, increment, phase);
    var stopped := R.Apply(s, R.EndCycle(i, end));
    StopsEndStepping(s.agents[i].current.value, reason, note, increment, phase);
    EndIsEndCycle(s, i, end);
    assert stopped.agents == s.agents[i := stopped.agents[i]] && stopped.agents[i].doing.Idle?;
    L.ParkedRunWaitsForResume(stopped, steps);
  }
}
