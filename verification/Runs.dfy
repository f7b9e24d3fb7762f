/**
  One research run as a transition system: any number of runtime instances, operators and crashes
  over one durable store. Every transaction is one step; a crash may fall between any two steps; a
  process acts on what it read in an earlier step. A step that is not possible leaves the state as
  it is, so a run is any sequence of steps.
 */
module Runs {
  import opened Wrappers
  import opened Ledger
  import opened Store
  import opened Execution
  import O = Orchestration

  type Row = O.Row

  /** What a supervisor remembers of its acquisition; every fenced call of its process carries it. */
  datatype Lease = Lease(owner: O.RuntimeId, epoch: nat)

  datatype Entry = StepEntry | DiscoveryEntry | ManagedEntry

  /** Where a controller process stands between two transactions. Tickets number the dispatch commits. */
  datatype Activity =
    | Idle
    | Loaded(entry: Entry)
    | Stepping
    | Halting
    | Authorizing(experiment: ExperimentId)
    | SawAuthorized(request: RequestId)
    | SawDispatching(request: RequestId)
    | Reserving(request: RequestId, amount: Positive)
    | Cleared(ticket: nat)
    | Confirmed(ticket: nat)
    | Returned(ticket: nat)
    | Ingesting(ticket: nat, document: WorkerDocument)

  /** A controller process. Without a lease its repository and Worker are not fenced. */
  datatype Agent = Agent(lease: Option<Lease>, alive: bool, current: Option<Row>, doing: Activity)

  /** A committed dispatch: `wasAuthorized` is the state its transaction overwrote. */
  datatype Clearance = Clearance(
    request: RequestId,
    budget: BudgetId,
    handed: Option<Positive>,
    lease: Option<Lease>,
    wasAuthorized: bool)

  /** A committed attempt and the orchestration row its transaction found. */
  datatype Creation = Creation(
    request: RequestId,
    experiment: ExperimentId,
    lease: Option<Lease>,
    hooked: bool,
    rowBefore: Option<Row>)

  /** What happened, in order. */
  datatype History = History(
    /** Epochs of accepted acquisitions, renewals, releases, fenced saves and lease checks. */
    accepted: seq<nat>,
    cleared: seq<Clearance>,
    /** Tickets that passed the lease check, and tickets that reached the Worker. */
    passed: seq<nat>,
    invoked: seq<nat>,
    created: seq<Creation>)

  datatype State = State(
    limits: Limits,
    now: O.Time,
    row: Option<Row>,
    cycles: set<nat>,
    snapshots: seq<Row>,
    db: Db,
    agents: seq<Agent>,
    past: History)

  datatype Step =
    // environment, supervisors and operators
    | Advance(elapsed: O.Time)
    | Start(maxCycles: nat)
    | Acquire(owner: O.RuntimeId, ttl: O.Time)
    | Spawn
    | Renew(i: nat, ttl: O.Time)
    | Release(i: nat)
    | Crash(i: nat)
    | OperatorReads
    | OperatorWrites(read: nat, command: O.OperatorCommand)
    | AddExperiment(experiment: ExperimentId, budget: BudgetId)
    | Consume(charge: Charge)
    // controller
    | Load(i: nat, entry: Entry)
    | Check(i: nat)
    | Reload(i: nat)
    | Save(i: nat, update: O.RowUpdate)
    | EndCycle(i: nat, end: O.CycleEnd)
    // executor
    | ReadExperiment(i: nat, experiment: ExperimentId)
    | CommitAuthorization(i: nat, request: RequestId, verdict: Verdict, plan: PlanBinding, hooked: bool)
    | ReadAttempt(i: nat, request: RequestId)
    | CommitUnknown(i: nat)
    | Reserve(i: nat)
    | CommitDispatch(i: nat)
    | CheckLease(i: nat)
    | Invoke(i: nat)
    | CommitOutcome(i: nat, invocation: Invocation)
    | LoseOutcome(i: nat)
    | CommitIngestion(i: nat)

  function Initial(limits: Limits): State {
    State(limits, 0.0, None, {}, [], Db(map[], map[], [], map[], map[], map[]), [], History([], [], [], [], []))
  }

  // ------------------------------------------------------------------ helpers

  predicate Acts(s: State, i: nat) {
    i < |s.agents| && s.agents[i].alive
  }

  predicate Doing(s: State, i: nat, doing: Activity) {
    Acts(s, i) && s.agents[i].doing == doing
  }

  function Turn(s: State, i: nat, doing: Activity): State
    requires i < |s.agents|
  {
    s.(agents := s.agents[i := s.agents[i].(doing := doing)])
  }

  function Remember(s: State, i: nat, current: Option<Row>, doing: Activity): State
    requires i < |s.agents|
  {
    s.(agents := s.agents[i := s.agents[i].(current := current, doing := doing)])
  }

  /** The guard a process's save carries: its lease, when it has one. */
  function GuardOf(lease: Option<Lease>): O.SaveGuard {
    if lease.Some? then O.FencedGuard(O.UNGUARDED, lease.value.owner, lease.value.epoch) else O.UNGUARDED
  }

  /** No lease is needed, or the row has this one. */
  predicate LeaseHeld(row: Option<Row>, lease: Option<Lease>) {
    lease.Some? ==> row.Some? && O.HeldBy(row.value, lease.value.owner, lease.value.epoch)
  }

  function Epoch(row: Option<Row>): nat {
    if row.Some? then row.value.epoch else 0
  }

  function Accept(s: State, lease: Option<Lease>): History {
    if lease.Some? then s.past.(accepted := s.past.accepted + [lease.value.epoch]) else s.past
  }

  // ------------------------------------------------------------------ environment

  function DoAcquire(s: State, owner: O.RuntimeId, ttl: O.Time): State {
    var result := O.AcquireRow(s.row, owner, ttl, s.now);
    if result.outcome != O.Acquired then s
    else
      var epoch := result.row.value.epoch;
      s.(row := result.row,
         agents := s.agents + [Agent(Some(Lease(owner, epoch)), true, None, Idle)],
         past := s.past.(accepted := s.past.accepted + [epoch]))
  }

  /** A heartbeat runs between two steps of its own process. */
  function DoRenew(s: State, i: nat, ttl: O.Time): State {
    if !Doing(s, i, Idle) || s.agents[i].lease.None? then s
    else
      var lease := s.agents[i].lease.value;
      var result := O.RenewRow(s.row, lease.owner, lease.epoch, ttl, s.now);
      if result.accepted then s.(row := result.row, past := Accept(s, Some(lease))) else s
  }

  function DoRelease(s: State, i: nat): State {
    if !Doing(s, i, Idle) || s.agents[i].lease.None? then s
    else
      var lease := s.agents[i].lease.value;
      var result := O.ReleaseRow(s.row, lease.owner, lease.epoch);
      if result.accepted then s.(row := result.row, past := Accept(s, Some(lease))) else s
  }

  function DoOperatorWrite(s: State, read: nat, command: O.OperatorCommand): State {
    if read >= |s.snapshots| then s
    else
      var write := O.OperatorWrite(command, s.snapshots[read]);
      if write.None? then s else s.(row := O.SaveRow(s.row, write.value.0, write.value.1, s.now).row)
  }

  function DoAddExperiment(s: State, x: ExperimentId, budget: BudgetId): State {
    if x in s.db.experiments then s
    else s.(db := s.db.(experiments := s.db.experiments[x := Experiment(budget, Planned)]))
  }

  /** Model calls and tokens; dispatch resources are only ever charged by a dispatch. */
  function DoConsume(s: State, charge: Charge): State {
    if charge.resource.WorkerInvocation? || charge.resource.Request? then s
    else s.(db := s.db.(ledger := RecordConsumption(s.db.ledger, s.limits, s.row.Some?, charge).ledger))
  }

  // ------------------------------------------------------------------ controller

  function DoLoad(s: State, i: nat, entry: Entry): State {
    if !Doing(s, i, Idle) || s.row.None? then s else Remember(s, i, s.row, Loaded(entry))
  }

  /** The checks every entry point makes before it may reach the executor. */
  function DoCheck(s: State, i: nat): State {
    if !Acts(s, i) || !s.agents[i].doing.Loaded? || s.agents[i].current.None? then s
    else
      var current := s.agents[i].current.value;
      if !O.Runnable(current.state) then Remember(s, i, None, Idle)
      else if UnknownOpen(s.db) || (s.agents[i].doing.entry.StepEntry? && current.currentPhase.PhaseDispatching?)
      then Turn(s, i, Halting)
      else Turn(s, i, Stepping)
  }

  function DoReload(s: State, i: nat): State {
    if !Doing(s, i, Stepping) || s.row.None? then s else Remember(s, i, s.row, Stepping)
  }

  /** After a refused save: a checkpoint onto a terminal row goes on with the durable record, anything else aborts. */
  function AfterRefusal(s: State, i: nat, update: O.RowUpdate, outcome: O.SaveOutcome): State
    requires i < |s.agents|
  {
    if update.Checkpoint? && outcome.TerminalState? then Remember(s, i, s.row, Stepping)
    else Remember(s, i, None, Idle)
  }

  /** A failure stop saves what the same transaction read; every other update belongs to a step. */
  predicate MaySave(s: State, i: nat, update: O.RowUpdate) {
    && Acts(s, i) && s.agents[i].current.Some?
    && match update
       case StopForFailure(_) => s.agents[i].doing.Loaded? && O.Runnable(s.agents[i].current.value.state)
       case PersistAttempt => false
       case _ => s.agents[i].doing.Stepping?
  }

  function DoSave(s: State, i: nat, update: O.RowUpdate): State {
    if !MaySave(s, i, update) then s
    else
      var lease := s.agents[i].lease;
      var record := O.UpdateRow(s.agents[i].current.value, update);
      var saved := O.SaveRow(s.row, record, GuardOf(lease), s.now);
      if saved.outcome.Saved? then
        Remember(
          s.(row := saved.row, past := Accept(s, lease)),
          i, Some(record), if update.StopForFailure? then Idle else Stepping)
      else AfterRefusal(s, i, update, saved.outcome)
  }

  /** A process stopped by its entry checks ends its cycle as an operational failure; one in its step ends it as it likes. */
  predicate MayEnd(s: State, i: nat, end: O.CycleEnd) {
    && Acts(s, i) && s.agents[i].current.Some?
    && (s.agents[i].doing.Stepping?
        || (s.agents[i].doing.Halting? && end == O.StopEnd(O.OperationalFailure, end.note, false, None)))
  }

  /** Row and cycle record commit together; a cycle number already present is left as it is. */
  function DoEndCycle(s: State, i: nat, end: O.CycleEnd): State {
    if !MayEnd(s, i, end) then s
    else
      var lease := s.agents[i].lease;
      var record := O.CompleteCycleRow(s.agents[i].current.value, end);
      var saved := O.SaveRow(s.row, record, GuardOf(lease), s.now);
      if saved.outcome.Saved? then
        Remember(
          s.(row := saved.row,
             cycles := if O.Inserts(end) then s.cycles + {record.cycleNumber} else s.cycles,
             past := Accept(s, lease)),
          i, None, Idle)
      else Remember(s, i, None, Idle)
  }

  // ------------------------------------------------------------------ executor

  function DoReadExperiment(s: State, i: nat, x: ExperimentId): State {
    if !Doing(s, i, Stepping) || x !in s.db.experiments then s
    else if TerminalExperiment(s.db.experiments[x].state) || HasAttemptFor(s.db, x) then s
    else Turn(s, i, Authorizing(x))
  }

  function CreationOf(s: State, i: nat, x: ExperimentId, r: RequestId, hooked: bool): Creation
    requires i < |s.agents|
  {
    Creation(r, x, s.agents[i].lease, hooked, s.row)
  }

  /** With the hook, attempt and orchestration save commit together; a refused save rolls both back. */
  function DoCommitAuthorization(
    s: State, i: nat, r: RequestId, verdict: Verdict, plan: PlanBinding, hooked: bool): State
  {
    if !Acts(s, i) || !s.agents[i].doing.Authorizing? || s.agents[i].current.None? then s
    else if s.agents[i].doing.experiment !in s.db.experiments then s
    else
      var x := s.agents[i].doing.experiment;
      var result := AuthorizeWrite(s.db, x, r, verdict, plan);
      if !result.authorized then Turn(s.(db := result.db), i, Stepping)
      else
        var past := s.past.(created := s.past.created + [CreationOf(s, i, x, r, hooked)]);
        if !hooked then Turn(s.(db := result.db, past := past), i, Stepping)
        else
          var lease := s.agents[i].lease;
          var record := O.UpdateRow(s.agents[i].current.value, O.PersistAttempt);
          var saved := O.SaveRow(s.row, record, GuardOf(lease), s.now);
          if saved.outcome.Saved? then
            Remember(
              s.(db := result.db, row := saved.row,
                 past := Accept(s, lease).(created := past.created)),
              i, Some(record), Stepping)
          else Remember(s, i, None, Idle)
  }

  function DoReadAttempt(s: State, i: nat, r: RequestId): State {
    if !Doing(s, i, Stepping) || r !in s.db.attempts then s
    else
      match s.db.attempts[r].state
      case Authorized => Turn(s, i, SawAuthorized(r))
      case Dispatching => Turn(s, i, SawDispatching(r))
      case _ => s
  }

  function DoCommitUnknown(s: State, i: nat): State {
    if !Acts(s, i) || !s.agents[i].doing.SawDispatching? || s.agents[i].doing.request !in s.db.attempts then s
    else Turn(s.(db := MarkUnknown(s.db, s.agents[i].doing.request)), i, Stepping)
  }

  predicate Locked(s: State, r: RequestId) {
    exists j :: 0 <= j < |s.agents| && s.agents[j].alive && s.agents[j].doing.Reserving? && s.agents[j].doing.request == r
  }

  /** Updating the attempt row locks it until the transaction ends; the amount is computed under that lock. */
  function DoReserve(s: State, i: nat): State {
    if !Acts(s, i) || !s.agents[i].doing.SawAuthorized? then s
    else
      var r := s.agents[i].doing.request;
      if r !in s.db.attempts || Locked(s, r) then s
      else if s.db.attempts[r].budget !in s.limits.issued then Turn(s, i, Stepping)
      else
        var amount := RequestAmount(s.db.ledger, s.limits, s.db.attempts[r]);
        Turn(s, i, if amount.None? then Stepping else Reserving(r, amount.value))
  }

  function ClearanceOf(s: State, i: nat, r: RequestId, amount: Positive): Clearance
    requires i < |s.agents| && r in s.db.attempts
  {
    var attempt := s.db.attempts[r];
    Clearance(r, attempt.budget, HandedCeiling(attempt, amount), s.agents[i].lease, attempt.state.Authorized?)
  }

  function DoCommitDispatch(s: State, i: nat): State {
    if !Acts(s, i) || !s.agents[i].doing.Reserving? || s.agents[i].doing.request !in s.db.attempts then s
    else
      var r, amount := s.agents[i].doing.request, s.agents[i].doing.amount;
      var begun := BeginDispatch(s.db, s.limits, r, amount);
      if begun.None? then Turn(s, i, Stepping)
      else
        Turn(
          s.(db := begun.value, past := s.past.(cleared := s.past.cleared + [ClearanceOf(s, i, r, amount)])),
          i, Cleared(|s.past.cleared|))
  }

  /** An unleased process goes straight to the Worker; a stale lease aborts its step. */
  function DoCheckLease(s: State, i: nat): State {
    if !Acts(s, i) || !s.agents[i].doing.Cleared? then s
    else
      var lease, ticket := s.agents[i].lease, s.agents[i].doing.ticket;
      if lease.Some? && (s.row.None? || !O.HeldBy(s.row.value, lease.value.owner, lease.value.epoch))
      then Remember(s, i, None, Idle)
      else Turn(s.(past := Accept(s, lease).(passed := s.past.passed + [ticket])), i, Confirmed(ticket))
  }

  function DoInvoke(s: State, i: nat): State {
    if !Acts(s, i) || !s.agents[i].doing.Confirmed? then s
    else
      var ticket := s.agents[i].doing.ticket;
      Turn(s.(past := s.past.(invoked := s.past.invoked + [ticket])), i, Returned(ticket))
  }

  predicate TicketKnown(s: State, ticket: nat) {
    ticket < |s.past.cleared| && s.past.cleared[ticket].request in s.db.attempts
  }

  function DoCommitOutcome(s: State, i: nat, invocation: Invocation): State {
    if !Acts(s, i) || !s.agents[i].doing.Returned? || !TicketKnown(s, s.agents[i].doing.ticket) then s
    else
      var ticket := s.agents[i].doing.ticket;
      var next :=
        if invocation.status.InvocationCompleted? && invocation.document.Some?
        then Ingesting(ticket, invocation.document.value)
        else Stepping;
      Turn(s.(db := RecordOutcome(s.db, s.past.cleared[ticket].request, invocation)), i, next)
  }

  /** Recording the outcome fails: the attempt stays DISPATCHING, nothing is ingested and the process goes on. */
  function DoLoseOutcome(s: State, i: nat): State {
    if !Acts(s, i) || !s.agents[i].doing.Returned? then s else Turn(s, i, Stepping)
  }

  function DoCommitIngestion(s: State, i: nat): State {
    if !Acts(s, i) || !s.agents[i].doing.Ingesting? || !TicketKnown(s, s.agents[i].doing.ticket) then s
    else
      var r := s.past.cleared[s.agents[i].doing.ticket].request;
      Turn(s.(db := IngestOutcomeOf(s.db, r, s.agents[i].doing.document).db), i, Stepping)
  }

  // ------------------------------------------------------------------ runs

  function Apply(s: State, step: Step): State {
    match step
    case Advance(elapsed) => if elapsed < 0.0 then s else s.(now := s.now + elapsed)
    case Start(maxCycles) => if s.row.Some? then s else s.(row := Some(O.StartRow(maxCycles)))
    case Acquire(owner, ttl) => DoAcquire(s, owner, ttl)
    case Spawn => s.(agents := s.agents + [Agent(None, true, None, Idle)])
    case Renew(i, ttl) => DoRenew(s, i, ttl)
    case Release(i) => DoRelease(s, i)
    case Crash(i) => if Acts(s, i) then s.(agents := s.agents[i := s.agents[i].(alive := false)]) else s
    case OperatorReads => if s.row.None? then s else s.(snapshots := s.snapshots + [s.row.value])
    case OperatorWrites(read, command) => DoOperatorWrite(s, read, command)
    case AddExperiment(x, budget) => DoAddExperiment(s, x, budget)
    case Consume(charge) => DoConsume(s, charge)
    case Load(i, entry) => DoLoad(s, i, entry)
    case Check(i) => DoCheck(s, i)
    case Reload(i) => DoReload(s, i)
    case Save(i, update) => DoSave(s, i, update)
    case EndCycle(i, end) => DoEndCycle(s, i, end)
    case ReadExperiment(i, x) => DoReadExperiment(s, i, x)
    case CommitAuthorization(i, r, verdict, plan, hooked) => DoCommitAuthorization(s, i, r, verdict, plan, hooked)
    case ReadAttempt(i, r) => DoReadAttempt(s, i, r)
    case CommitUnknown(i) => DoCommitUnknown(s, i)
    case Reserve(i) => DoReserve(s, i)
    case CommitDispatch(i) => DoCommitDispatch(s, i)
    case CheckLease(i) => DoCheckLease(s, i)
    case Invoke(i) => DoInvoke(s, i)
    case CommitOutcome(i, invocation) => DoCommitOutcome(s, i, invocation)
    case LoseOutcome(i) => DoLoseOutcome(s, i)
    case CommitIngestion(i) => DoCommitIngestion(s, i)
  }

  function Run(s: State, steps: seq<Step>): State {
    if steps == [] then s else Apply(Run(s, steps[..|steps| - 1]), steps[|steps| - 1])
  }

  ghost predicate Reachable(limits: Limits, s: State) {
    exists steps :: s == Run(Initial(limits), steps)
  }

  lemma ReachNext(limits: Limits, s: State, step: Step, s': State)
    requires Reachable(limits, s)
    ensures s' == Apply(s, step) ==> Reachable(limits, s')
  {
    var steps :| s == Run(Initial(limits), steps);
    assert (steps + [step])[..|steps|] == steps;
    assert Apply(s, step) == Run(Initial(limits), steps + [step]);
  }
}
