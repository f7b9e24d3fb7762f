/** Concrete runs of leased processes in which a property fails, each showing that a condition of a theorem is needed. */
module Witnesses {
  import opened Wrappers
  import opened Ledger
  import opened Store
  import opened Execution
  import opened Runs
  import opened Dispatches
  import opened Fencing
  import opened FencedCalls
  import opened EndStates
  import opened Cycles
  import opened Boundaries
  import W = Whitespace
  import O = Orchestration

  /** Reached by leased processes only. */
  ghost predicate ReachedLeased(limits: Limits, s: State) {
    exists steps :: OnlyLeased(steps) && s == Run(Initial(limits), steps)
  }

  /** Reached by leased processes, every accepted write carrying the row's epoch. */
  ghost predicate ReachedCurrent(limits: Limits, s: State) {
    exists steps :: OnlyLeased(steps) && NoStaleWrite(Initial(limits), steps) && s == Run(Initial(limits), steps)
  }

  lemma LeasedNext(limits: Limits, s: State, step: Step, s': State)
    requires ReachedLeased(limits, s) && !step.Spawn?
    ensures s' == Apply(s, step) ==> ReachedLeased(limits, s')
  {
    var steps :| OnlyLeased(steps) && s == Run(Initial(limits), steps);
    var longer := steps + [step];
    assert longer[..|steps|] == steps;
    assert OnlyLeased(longer) && Apply(s, step) == Run(Initial(limits), longer);
  }

  lemma CurrentNext(limits: Limits, s: State, step: Step, s': State)
    requires ReachedCurrent(limits, s) && !step.Spawn?
    ensures s' == Apply(s, step) && !StaleWrite(s, step) ==> ReachedCurrent(limits, s')
  {
    var steps :| OnlyLeased(steps) && NoStaleWrite(Initial(limits), steps) && s == Run(Initial(limits), steps);
    var longer := steps + [step];
    assert longer[..|steps|] == steps;
    if !StaleWrite(s, step) {
      NoStaleExtends(Initial(limits), longer);
    }
    assert OnlyLeased(longer) && Apply(s, step) == Run(Initial(limits), longer);
  }

  /** A step of the processes themselves. */
  lemma FencedNext(limits: Limits, s: State, step: Step, s': State)
    requires ReachedCurrent(limits, s) && AllLeased(s.agents)
    requires !step.Spawn? && !step.OperatorWrites?
    ensures s' == Apply(s, step) ==> ReachedCurrent(limits, s')
  {
    LeasedWritesAreFenced(s, step);
    CurrentNext(limits, s, step, s');
  }

  lemma CurrentIsLeased(limits: Limits, s: State)
    requires ReachedCurrent(limits, s)
    ensures ReachedLeased(limits, s)
  {
  }

  // ------------------------------------------------------------------ single steps

  lemma Loads(s: State, i: nat, entry: Entry, s': State)
    requires Doing(s, i, Idle) && s.row.Some? && s' == Remember(s, i, s.row, Loaded(entry))
    ensures s' == Apply(s, Load(i, entry))
  {
  }

  lemma Checks(s: State, i: nat, entry: Entry, s': State)
    requires Doing(s, i, Loaded(entry)) && s.agents[i].current.Some? && O.Runnable(s.agents[i].current.value.state)
    requires !UnknownOpen(s.db) && !s.agents[i].current.value.currentPhase.PhaseDispatching?
    requires s' == Turn(s, i, Stepping)
    ensures s' == Apply(s, Check(i))
  {
  }

  lemma ReadsRow(s: State, s': State)
    requires s.row.Some? && s' == s.(snapshots := s.snapshots + [s.row.value])
    ensures s' == Apply(s, OperatorReads)
  {
  }

  lemma ReadsAttempt(s: State, i: nat, s': State)
    requires Doing(s, i, Stepping) && 9 in s.db.attempts && s.db.attempts[9].state.Authorized?
    requires s' == Turn(s, i, SawAuthorized(9))
    ensures s' == Apply(s, ReadAttempt(i, 9))
  {
  }

  lemma Passes(s: State, i: nat, ticket: nat, s': State)
    requires Doing(s, i, Cleared(ticket)) && s.agents[i].lease.Some? && s.row.Some?
    requires O.HeldBy(s.row.value, s.agents[i].lease.value.owner, s.agents[i].lease.value.epoch)
    requires s' == Turn(s.(past := Accept(s, s.agents[i].lease).(passed := s.past.passed + [ticket])), i, Confirmed(ticket))
    ensures s' == Apply(s, CheckLease(i))
  {
  }

  lemma Calls(s: State, i: nat, ticket: nat, s': State)
    requires Doing(s, i, Confirmed(ticket))
    requires s' == Turn(s.(past := s.past.(invoked := s.past.invoked + [ticket])), i, Returned(ticket))
    ensures s' == Apply(s, Invoke(i))
  {
  }

  // ------------------------------------------------------------------ the common start

  const A: Lease := Lease("a", 1)
  const B: Lease := Lease("b", 2)

  /** The row under the first lease: as acquired, and after the attempt was authorized through the hook. */
  const ACQUIRED_ROW: Row := O.StartRow(3).(owner := Some("a"), epoch := 1, expiresAt := Some(1.0))
  const AUTHORIZED_ROW: Row := O.UpdateRow(ACQUIRED_ROW, O.PersistAttempt)
  const TAKEN_ROW: Row := AUTHORIZED_ROW.(owner := Some("b"), epoch := 2, expiresAt := Some(3.0))

  function Process(lease: Lease, current: Option<Row>, doing: Activity): Agent {
    Agent(Some(lease), true, current, doing)
  }

  function First(doing: Activity): Agent { Process(A, Some(AUTHORIZED_ROW), doing) }
  function Second(doing: Activity): Agent { Process(B, Some(TAKEN_ROW), doing) }

  const HOOKED: Creation := Creation(9, 7, Some(A), true, Some(ACQUIRED_ROW))

  const PLAN: PlanBinding := PlanBinding(BrowserPage, false, 0)
  const AUTHORIZE: Step := CommitAuthorization(0, 9, Decided(Allow, false), PLAN, true)

  function Scene(
    now: O.Time, row: Row, snapshots: seq<Row>, db: Db, agents: seq<Agent>, accepted: seq<nat>,
    cleared: seq<Clearance>, passed: seq<nat>, invoked: seq<nat>): State
  {
    State(TWO_CALLS, now, Some(row), {}, snapshots, db, agents, History(accepted, cleared, passed, invoked, [HOOKED]))
  }

  /** Before the attempt exists. */
  function Early(row: Row, db: Db, agents: seq<Agent>): State {
    State(TWO_CALLS, 0.0, Some(row), {}, [], db, agents, History([1], [], [], [], []))
  }

  const EMPTY_DB: Db := Db(map[], map[], [], map[], map[], map[])
  const PLANNED_DB: Db := Db(map[7 := Experiment(1, Planned)], map[], [], map[], map[], map[])

  lemma RunStarts()
    ensures ReachedCurrent(TWO_CALLS, Initial(TWO_CALLS).(row := Some(O.StartRow(3))))
  {
    var s0 := Initial(TWO_CALLS);
    assert OnlyLeased([]) && NoStaleWrite(s0, []) && s0 == Run(s0, []);
    FencedNext(TWO_CALLS, s0, Start(3), s0.(row := Some(O.StartRow(3))));
  }

  lemma FirstAcquires()
    ensures ReachedCurrent(TWO_CALLS, Early(ACQUIRED_ROW, EMPTY_DB, [Process(A, None, Idle)]))
  {
    var s, s' := Initial(TWO_CALLS).(row := Some(O.StartRow(3))), Early(ACQUIRED_ROW, EMPTY_DB, [Process(A, None, Idle)]);
    RunStarts();
    FirstAcquisition(s, s');
    FencedNext(TWO_CALLS, s, Acquire("a", 1.0), s');
  }

  lemma FirstAcquisition(s: State, s': State)
    requires s == Initial(TWO_CALLS).(row := Some(O.StartRow(3)))
    requires s' == Early(ACQUIRED_ROW, EMPTY_DB, [Process(A, None, Idle)])
    ensures s' == Apply(s, Acquire("a", 1.0))
  {
    assert !W.Blank("a") by { assert "a"[0] == 'a'; }
  }

  lemma AddsExperiment(s: State, s': State)
    requires s == Early(ACQUIRED_ROW, EMPTY_DB, [Process(A, None, Idle)])
    requires s' == Early(ACQUIRED_ROW, PLANNED_DB, [Process(A, None, Idle)])
    ensures s' == Apply(s, AddExperiment(7, 1))
  {
  }

  lemma ExperimentAppears()
    ensures ReachedCurrent(TWO_CALLS, Early(ACQUIRED_ROW, PLANNED_DB, [Process(A, None, Idle)]))
  {
    FirstAcquires();
    var s, s' := Early(ACQUIRED_ROW, EMPTY_DB, [Process(A, None, Idle)]), Early(ACQUIRED_ROW, PLANNED_DB, [Process(A, None, Idle)]);
    AddsExperiment(s, s');
    FencedNext(TWO_CALLS, s, AddExperiment(7, 1), s');
  }

  function Stage(doing: Activity): State {
    Early(ACQUIRED_ROW, PLANNED_DB, [Process(A, Some(ACQUIRED_ROW), doing)])
  }

  lemma FirstLoads()
    ensures ReachedCurrent(TWO_CALLS, Stage(Loaded(StepEntry)))
  {
    ExperimentAppears();
    var s := Early(ACQUIRED_ROW, PLANNED_DB, [Process(A, None, Idle)]);
    Loads(s, 0, StepEntry, Stage(Loaded(StepEntry)));
    FencedNext(TWO_CALLS, s, Load(0, StepEntry), Stage(Loaded(StepEntry)));
  }

  lemma FirstSteps()
    ensures ReachedCurrent(TWO_CALLS, Stage(Stepping))
  {
    FirstLoads();
    assert !UnknownOpen(PLANNED_DB);
    Checks(Stage(Loaded(StepEntry)), 0, StepEntry, Stage(Stepping));
    FencedNext(TWO_CALLS, Stage(Loaded(StepEntry)), Check(0), Stage(Stepping));
  }

  lemma ReadsExperiment(s: State, s': State)
    requires s == Stage(Stepping) && s' == Stage(Authorizing(7))
    ensures s' == Apply(s, ReadExperiment(0, 7))
  {
    assert !HasAttemptFor(s.db, 7);
  }

  lemma FirstReadsExperiment()
    ensures ReachedCurrent(TWO_CALLS, Stage(Authorizing(7)))
  {
    FirstSteps();
    ReadsExperiment(Stage(Stepping), Stage(Authorizing(7)));
    FencedNext(TWO_CALLS, Stage(Stepping), ReadExperiment(0, 7), Stage(Authorizing(7)));
  }

  function Authorized9(doing: Activity, snapshots: seq<Row>): State {
    Scene(0.0, AUTHORIZED_ROW, snapshots, BEFORE, [First(doing)], [1, 1], [], [], [])
  }

  lemma AuthorizeWritesAttempt()
    ensures AuthorizeWrite(PLANNED_DB, 7, 9, Decided(Allow, false), PLAN) == AuthorizeResult(BEFORE, AuthorizedNotDispatched, true)
  {
  }

  lemma FirstCommitsAttempt(s: State, s': State)
    requires s == Stage(Authorizing(7)) && s' == Authorized9(Stepping, [])
    ensures s' == Apply(s, AUTHORIZE)
  {
    AuthorizeWritesAttempt();
  }

  lemma FirstAuthorizes()
    ensures ReachedCurrent(TWO_CALLS, Authorized9(Stepping, []))
  {
    FirstReadsExperiment();
    FirstCommitsAttempt(Stage(Authorizing(7)), Authorized9(Stepping, []));
    FencedNext(TWO_CALLS, Stage(Authorizing(7)), AUTHORIZE, Authorized9(Stepping, []));
  }

  lemma FirstReadsAttempt()
    ensures ReachedCurrent(TWO_CALLS, Authorized9(SawAuthorized(9), []))
  {
    FirstAuthorizes();
    ReadsAttempt(Authorized9(Stepping, []), 0, Authorized9(SawAuthorized(9), []));
    FencedNext(TWO_CALLS, Authorized9(Stepping, []), ReadAttempt(0, 9), Authorized9(SawAuthorized(9), []));
  }

  /** The first process has read its attempt and an operator has read the row. */
  const BOTH_READ: State := Authorized9(SawAuthorized(9), [AUTHORIZED_ROW])

  lemma AttemptAndRowAreRead()
    ensures ReachedCurrent(TWO_CALLS, BOTH_READ)
  {
    FirstReadsAttempt();
    ReadsRow(Authorized9(SawAuthorized(9), []), BOTH_READ);
    FencedNext(TWO_CALLS, Authorized9(SawAuthorized(9), []), OperatorReads, BOTH_READ);
  }

  // ------------------------------------------------------------------ dispatch steps of either process

  lemma Reserves(s: State, i: nat, s': State)
    requires Doing(s, i, SawAuthorized(9)) && 9 in s.db.attempts && !Locked(s, 9)
    requires s.db.attempts[9].budget in s.limits.issued
    requires RequestAmount(s.db.ledger, s.limits, s.db.attempts[9]) == Some(16)
    requires s' == Turn(s, i, Reserving(9, 16))
    ensures s' == Apply(s, Reserve(i))
  {
  }

  const FIRST_CHARGE: Clearance := Clearance(9, 1, Some(16), Some(A), true)
  const FIRST_STALE: Clearance := Clearance(9, 1, Some(16), Some(A), false)
  const SECOND_CHARGE: Clearance := Clearance(9, 1, Some(16), Some(B), true)
  const SECOND_STALE: Clearance := Clearance(9, 1, Some(16), Some(B), false)

  lemma FirstAmount()
    ensures RequestAmount(BEFORE.ledger, TWO_CALLS, BEFORE.attempts[9]) == Some(16)
  {
    assert Total([], 1, Request) == 0;
  }

  // ------------------------------------------------------------------ a cancelled run still calls the Worker

  const CANCELLED_ROW: Row :=
    AUTHORIZED_ROW.(state := O.Completed, stopReason := Some(O.OperatorCancelled), lastPhase := O.Note("operator"))

  function AfterCancel(doing: Activity, db: Db, accepted: seq<nat>, cleared: seq<Clearance>, passed: seq<nat>, invoked: seq<nat>): State {
    Scene(0.0, CANCELLED_ROW, [AUTHORIZED_ROW], db, [First(doing)], accepted, cleared, passed, invoked)
  }

  lemma Commands(s: State, command: O.OperatorCommand, record: Row, s': State)
    requires s.snapshots != [] && s.row.Some? && !O.Terminal(s.row.value.state)
    requires O.OperatorWrite(command, s.snapshots[0]) == Some((record, O.UNGUARDED)) && s' == s.(row := Some(record))
    ensures s' == Apply(s, OperatorWrites(0, command))
    ensures StaleWrite(s, OperatorWrites(0, command)) <==> record.epoch != s.row.value.epoch
  {
  }

  lemma RunIsCancelled()
    ensures ReachedCurrent(TWO_CALLS, AfterCancel(SawAuthorized(9), BEFORE, [1, 1], [], [], []))
  {
    AttemptAndRowAreRead();
    var s' := AfterCancel(SawAuthorized(9), BEFORE, [1, 1], [], [], []);
    Commands(BOTH_READ, O.CancelRun, CANCELLED_ROW, s');
    CurrentNext(TWO_CALLS, BOTH_READ, OperatorWrites(0, O.CancelRun), s');
  }

  lemma CancelledReserves()
    ensures ReachedCurrent(TWO_CALLS, AfterCancel(Reserving(9, 16), BEFORE, [1, 1], [], [], []))
  {
    RunIsCancelled();
    FirstAmount();
    var s, s' := AfterCancel(SawAuthorized(9), BEFORE, [1, 1], [], [], []), AfterCancel(Reserving(9, 16), BEFORE, [1, 1], [], [], []);
    Reserves(s, 0, s');
    FencedNext(TWO_CALLS, s, Reserve(0), s');
  }

  lemma CancelledDispatches()
    ensures ReachedCurrent(TWO_CALLS, AfterCancel(Cleared(0), AFTER, [1, 1], [FIRST_CHARGE], [], []))
  {
    CancelledReserves();
    BeginTwice(BEFORE, AFTER);
    var s, s' := AfterCancel(Reserving(9, 16), BEFORE, [1, 1], [], [], []), AfterCancel(Cleared(0), AFTER, [1, 1], [FIRST_CHARGE], [], []);
    Commits(s, 0, s', FIRST_CHARGE);
    FencedNext(TWO_CALLS, s, CommitDispatch(0), s');
  }

  lemma CancelledPasses()
    ensures ReachedCurrent(TWO_CALLS, AfterCancel(Confirmed(0), AFTER, [1, 1, 1], [FIRST_CHARGE], [0], []))
  {
    CancelledDispatches();
    var s := AfterCancel(Cleared(0), AFTER, [1, 1], [FIRST_CHARGE], [], []);
    var s' := AfterCancel(Confirmed(0), AFTER, [1, 1, 1], [FIRST_CHARGE], [0], []);
    Passes(s, 0, 0, s');
    FencedNext(TWO_CALLS, s, CheckLease(0), s');
  }

  /** The run is cancelled before its attempt is dispatched; dispatch, charges, lease check and call go on regardless. */
  lemma CancelledRunStillCallsTheWorker()
    ensures ReachedCurrent(TWO_CALLS, AfterCancel(Returned(0), AFTER, [1, 1, 1], [FIRST_CHARGE], [0], [0]))
    ensures Ended(Some(CANCELLED_ROW))
    ensures ReachedCurrent(TWO_CALLS, AfterCancel(SawAuthorized(9), BEFORE, [1, 1], [], [], []))
  {
    RunIsCancelled();
    CancelledPasses();
    var s := AfterCancel(Confirmed(0), AFTER, [1, 1, 1], [FIRST_CHARGE], [0], []);
    var s' := AfterCancel(Returned(0), AFTER, [1, 1, 1], [FIRST_CHARGE], [0], [0]);
    Calls(s, 0, 0, s');
    FencedNext(TWO_CALLS, s, Invoke(0), s');
  }

  // ------------------------------------------------------------------ the second process takes over

  const PAUSED_ROW: Row :=
    AUTHORIZED_ROW.(state := O.Paused, stopReason := Some(O.OperatorPaused), pauseReason := Some(O.OperatorPaused),
                    lastPhase := O.Note("operator"))

  function Duel(
    row: Row, first: Activity, second: Activity, db: Db, accepted: seq<nat>, cleared: seq<Clearance>,
    passed: seq<nat>, invoked: seq<nat>): State
  {
    Scene(2.0, row, [AUTHORIZED_ROW], db, [First(first), Second(second)], accepted, cleared, passed, invoked)
  }

  const SAW: Activity := SawAuthorized(9)

  lemma FirstExpires()
    ensures ReachedCurrent(TWO_CALLS, BOTH_READ.(now := 2.0))
  {
    AttemptAndRowAreRead();
    FencedNext(TWO_CALLS, BOTH_READ, Advance(2.0), BOTH_READ.(now := 2.0));
  }

  const TAKEN: State := Scene(2.0, TAKEN_ROW, [AUTHORIZED_ROW], BEFORE, [First(SAW), Process(B, None, Idle)], [1, 1, 2], [], [], [])

  lemma TakesOver(s: State, s': State)
    requires s == BOTH_READ.(now := 2.0) && s' == TAKEN
    ensures s' == Apply(s, Acquire("b", 1.0))
  {
    assert !W.Blank("b") by { assert "b"[0] == 'b'; }
  }

  lemma SecondAcquires()
    ensures ReachedCurrent(TWO_CALLS, TAKEN)
  {
    FirstExpires();
    TakesOver(BOTH_READ.(now := 2.0), TAKEN);
    FencedNext(TWO_CALLS, BOTH_READ.(now := 2.0), Acquire("b", 1.0), TAKEN);
  }

  lemma SecondLoads()
    ensures ReachedCurrent(TWO_CALLS, Duel(TAKEN_ROW, SAW, Loaded(StepEntry), BEFORE, [1, 1, 2], [], [], []))
  {
    SecondAcquires();
    var s' := Duel(TAKEN_ROW, SAW, Loaded(StepEntry), BEFORE, [1, 1, 2], [], [], []);
    Loads(TAKEN, 1, StepEntry, s');
    FencedNext(TWO_CALLS, TAKEN, Load(1, StepEntry), s');
  }

  lemma SecondChecks(s: State, s': State)
    requires s == Duel(TAKEN_ROW, SAW, Loaded(StepEntry), BEFORE, [1, 1, 2], [], [], [])
    requires s' == Duel(TAKEN_ROW, SAW, Stepping, BEFORE, [1, 1, 2], [], [], [])
    ensures s' == Apply(s, Check(1))
  {
    assert !UnknownOpen(s.db);
  }

  lemma SecondSteps()
    ensures ReachedCurrent(TWO_CALLS, Duel(TAKEN_ROW, SAW, Stepping, BEFORE, [1, 1, 2], [], [], []))
  {
    SecondLoads();
    var s, s' := Duel(TAKEN_ROW, SAW, Loaded(StepEntry), BEFORE, [1, 1, 2], [], [], []), Duel(TAKEN_ROW, SAW, Stepping, BEFORE, [1, 1, 2], [], [], []);
    SecondChecks(s, s');
    FencedNext(TWO_CALLS, s, Check(1), s');
  }

  /** Both processes have read the attempt as AUTHORIZED; the second holds the row. */
  const BOTH_SAW: State := Duel(TAKEN_ROW, SAW, SAW, BEFORE, [1, 1, 2], [], [], [])

  lemma SecondReadsAttempt()
    ensures ReachedCurrent(TWO_CALLS, BOTH_SAW)
  {
    SecondSteps();
    ReadsAttempt(Duel(TAKEN_ROW, SAW, Stepping, BEFORE, [1, 1, 2], [], [], []), 1, BOTH_SAW);
    FencedNext(TWO_CALLS, Duel(TAKEN_ROW, SAW, Stepping, BEFORE, [1, 1, 2], [], [], []), ReadAttempt(1, 9), BOTH_SAW);
  }

  // ------------------------------------------------------------------ a stale command between the two calls

  lemma SecondReserves()
    ensures ReachedCurrent(TWO_CALLS, Duel(TAKEN_ROW, SAW, Reserving(9, 16), BEFORE, [1, 1, 2], [], [], []))
  {
    SecondReadsAttempt();
    FirstAmount();
    var s' := Duel(TAKEN_ROW, SAW, Reserving(9, 16), BEFORE, [1, 1, 2], [], [], []);
    Reserves(BOTH_SAW, 1, s');
    FencedNext(TWO_CALLS, BOTH_SAW, Reserve(1), s');
  }

  lemma SecondCommitsDispatch()
    ensures ReachedCurrent(TWO_CALLS, Duel(TAKEN_ROW, SAW, Cleared(0), AFTER, [1, 1, 2], [SECOND_CHARGE], [], []))
  {
    SecondReserves();
    var s := Duel(TAKEN_ROW, SAW, Reserving(9, 16), BEFORE, [1, 1, 2], [], [], []);
    var s' := Duel(TAKEN_ROW, SAW, Cleared(0), AFTER, [1, 1, 2], [SECOND_CHARGE], [], []);
    SecondCommitIs(s, s');
    FencedNext(TWO_CALLS, s, CommitDispatch(1), s');
  }

  lemma SecondCommitIs(s: State, s': State)
    requires s == Duel(TAKEN_ROW, SAW, Reserving(9, 16), BEFORE, [1, 1, 2], [], [], [])
    requires s' == Duel(TAKEN_ROW, SAW, Cleared(0), AFTER, [1, 1, 2], [SECOND_CHARGE], [], [])
    ensures s' == Apply(s, CommitDispatch(1))
  {
    BeginTwice(BEFORE, AFTER);
    Commits(s, 1, s', SECOND_CHARGE);
  }

  lemma SecondPasses()
    ensures ReachedCurrent(TWO_CALLS, Duel(TAKEN_ROW, SAW, Confirmed(0), AFTER, [1, 1, 2, 2], [SECOND_CHARGE], [0], []))
  {
    SecondCommitsDispatch();
    var s := Duel(TAKEN_ROW, SAW, Cleared(0), AFTER, [1, 1, 2], [SECOND_CHARGE], [], []);
    var s' := Duel(TAKEN_ROW, SAW, Confirmed(0), AFTER, [1, 1, 2, 2], [SECOND_CHARGE], [0], []);
    Passes(s, 1, 0, s');
    FencedNext(TWO_CALLS, s, CheckLease(1), s');
  }

  lemma SecondCalls()
    ensures ReachedCurrent(TWO_CALLS, Duel(TAKEN_ROW, SAW, Returned(0), AFTER, [1, 1, 2, 2], [SECOND_CHARGE], [0], [0]))
  {
    SecondPasses();
    var s := Duel(TAKEN_ROW, SAW, Confirmed(0), AFTER, [1, 1, 2, 2], [SECOND_CHARGE], [0], []);
    var s' := Duel(TAKEN_ROW, SAW, Returned(0), AFTER, [1, 1, 2, 2], [SECOND_CHARGE], [0], [0]);
    Calls(s, 1, 0, s');
    FencedNext(TWO_CALLS, s, Invoke(1), s');
  }

  /** The pause saves the first lease back. */
  function Restored(first: Activity, accepted: seq<nat>, cleared: seq<Clearance>, passed: seq<nat>, invoked: seq<nat>): State {
    Duel(PAUSED_ROW, first, Returned(0), AFTER, accepted, cleared, passed, invoked)
  }

  lemma StalePauseRestoresFirst()
    ensures ReachedLeased(TWO_CALLS, Restored(SAW, [1, 1, 2, 2], [SECOND_CHARGE], [0], [0]))
  {
    SecondCalls();
    var s := Duel(TAKEN_ROW, SAW, Returned(0), AFTER, [1, 1, 2, 2], [SECOND_CHARGE], [0], [0]);
    CurrentIsLeased(TWO_CALLS, s);
    Commands(s, O.PauseRun, PAUSED_ROW, Restored(SAW, [1, 1, 2, 2], [SECOND_CHARGE], [0], [0]));
    LeasedNext(TWO_CALLS, s, OperatorWrites(0, O.PauseRun), Restored(SAW, [1, 1, 2, 2], [SECOND_CHARGE], [0], [0]));
  }

  lemma FirstReservesAgain()
    ensures ReachedLeased(TWO_CALLS, Restored(Reserving(9, 16), [1, 1, 2, 2], [SECOND_CHARGE], [0], [0]))
  {
    StalePauseRestoresFirst();
    SecondAmount();
    var s, s' := Restored(SAW, [1, 1, 2, 2], [SECOND_CHARGE], [0], [0]), Restored(Reserving(9, 16), [1, 1, 2, 2], [SECOND_CHARGE], [0], [0]);
    Reserves(s, 0, s');
    LeasedNext(TWO_CALLS, s, Reserve(0), s');
  }

  lemma FirstCommitsAgain()
    ensures ReachedLeased(TWO_CALLS, Restored(Cleared(1), [1, 1, 2, 2], [SECOND_CHARGE, FIRST_STALE], [0], [0]))
  {
    FirstReservesAgain();
    BeginTwice(BEFORE, AFTER);
    var s, s' := Restored(Reserving(9, 16), [1, 1, 2, 2], [SECOND_CHARGE], [0], [0]), Restored(Cleared(1), [1, 1, 2, 2], [SECOND_CHARGE, FIRST_STALE], [0], [0]);
    Commits(s, 0, s', FIRST_STALE);
    LeasedNext(TWO_CALLS, s, CommitDispatch(0), s');
  }

  const CALLED_TWICE: State := Restored(Returned(1), [1, 1, 2, 2, 1], [SECOND_CHARGE, FIRST_STALE], [0, 1], [0, 1])

  /**
    Leased processes only. "a" reads its attempt, "b" takes over, dispatches and calls the Worker; a pause saved from the
    record read before restores the lease of "a", which then dispatches and calls the Worker for the same request.
   */
  lemma StaleCommandLetsLeasedProcessesCallTwice()
    ensures ReachedLeased(TWO_CALLS, CALLED_TWICE) && AllLeased(CALLED_TWICE.agents)
    ensures !EachInvokedOnce(CALLED_TWICE.past)
  {
    FirstCommitsAgain();
    var both := [SECOND_CHARGE, FIRST_STALE];
    var s, s' := Restored(Cleared(1), [1, 1, 2, 2], both, [0], [0]), Restored(Confirmed(1), [1, 1, 2, 2, 1], both, [0, 1], [0]);
    Passes(s, 0, 1, s');
    LeasedNext(TWO_CALLS, s, CheckLease(0), s');
    Calls(s', 0, 1, CALLED_TWICE);
    LeasedNext(TWO_CALLS, s', Invoke(0), CALLED_TWICE);
    assert CALLED_TWICE.past.invoked[0] == 0 && CALLED_TWICE.past.invoked[1] == 1;
  }

  // ------------------------------------------------------------------ a stale command before both calls

  function Repaused(
    row: Row, agents: seq<Agent>, db: Db, accepted: seq<nat>, cleared: seq<Clearance>, passed: seq<nat>): State
  {
    Scene(2.0, row, [AUTHORIZED_ROW], db, agents, accepted, cleared, passed, [])
  }

  lemma PausedBeforeAnyCall()
    ensures ReachedLeased(TWO_CALLS, Repaused(PAUSED_ROW, [First(SAW), Second(SAW)], BEFORE, [1, 1, 2], [], []))
  {
    SecondReadsAttempt();
    CurrentIsLeased(TWO_CALLS, BOTH_SAW);
    var s' := Repaused(PAUSED_ROW, [First(SAW), Second(SAW)], BEFORE, [1, 1, 2], [], []);
    Commands(BOTH_SAW, O.PauseRun, PAUSED_ROW, s');
    LeasedNext(TWO_CALLS, BOTH_SAW, OperatorWrites(0, O.PauseRun), s');
  }

  lemma FirstReservesFirst()
    ensures ReachedLeased(TWO_CALLS, Repaused(PAUSED_ROW, [First(Reserving(9, 16)), Second(SAW)], BEFORE, [1, 1, 2], [], []))
  {
    PausedBeforeAnyCall();
    FirstAmount();
    var s := Repaused(PAUSED_ROW, [First(SAW), Second(SAW)], BEFORE, [1, 1, 2], [], []);
    var s' := Repaused(PAUSED_ROW, [First(Reserving(9, 16)), Second(SAW)], BEFORE, [1, 1, 2], [], []);
    Reserves(s, 0, s');
    LeasedNext(TWO_CALLS, s, Reserve(0), s');
  }

  lemma FirstCommitsFirst()
    ensures ReachedLeased(TWO_CALLS, Repaused(PAUSED_ROW, [First(Cleared(0)), Second(SAW)], AFTER, [1, 1, 2], [FIRST_CHARGE], []))
  {
    FirstReservesFirst();
    BeginTwice(BEFORE, AFTER);
    var s := Repaused(PAUSED_ROW, [First(Reserving(9, 16)), Second(SAW)], BEFORE, [1, 1, 2], [], []);
    var s' := Repaused(PAUSED_ROW, [First(Cleared(0)), Second(SAW)], AFTER, [1, 1, 2], [FIRST_CHARGE], []);
    Commits(s, 0, s', FIRST_CHARGE);
    LeasedNext(TWO_CALLS, s, CommitDispatch(0), s');
  }

  /** The first process has passed; the second still waits with a lease of epoch 2. */
  const PASSED_ONCE: State := Repaused(PAUSED_ROW, [First(Confirmed(0)), Second(SAW)], AFTER, [1, 1, 2, 1], [FIRST_CHARGE], [0])

  lemma FirstPassesFirst()
    ensures ReachedLeased(TWO_CALLS, PASSED_ONCE)
  {
    FirstCommitsFirst();
    var s := Repaused(PAUSED_ROW, [First(Cleared(0)), Second(SAW)], AFTER, [1, 1, 2], [FIRST_CHARGE], []);
    Passes(s, 0, 0, PASSED_ONCE);
    LeasedNext(TWO_CALLS, s, CheckLease(0), PASSED_ONCE);
  }

  /** "b" acquires epoch 2 a second time: the waiting process's lease is honoured again without any operator. */
  function Reacquired(second: Activity, accepted: seq<nat>, cleared: seq<Clearance>, passed: seq<nat>): State {
    Repaused(PAUSED_ROW.(owner := Some("b"), epoch := 2, expiresAt := Some(3.0)),
             [First(Confirmed(0)), Second(second), Process(B, None, Idle)], AFTER, accepted, cleared, passed)
  }

  lemma SecondOwnerReacquires(s: State, s': State)
    requires s == PASSED_ONCE && s' == Reacquired(SAW, [1, 1, 2, 1, 2], [FIRST_CHARGE], [0])
    ensures s' == Apply(s, Acquire("b", 1.0)) && !StaleWrite(s, Acquire("b", 1.0))
  {
    assert !W.Blank("b") by { assert "b"[0] == 'b'; }
  }

  lemma WaitingReserves(s: State, s': State)
    requires s == Reacquired(SAW, [1, 1, 2, 1, 2], [FIRST_CHARGE], [0])
    requires s' == Reacquired(Reserving(9, 16), [1, 1, 2, 1, 2], [FIRST_CHARGE], [0])
    ensures s' == Apply(s, Reserve(1)) && !StaleWrite(s, Reserve(1))
  {
    SecondAmount();
    Reserves(s, 1, s');
  }

  lemma WaitingCommits(s: State, s': State)
    requires s == Reacquired(Reserving(9, 16), [1, 1, 2, 1, 2], [FIRST_CHARGE], [0])
    requires s' == Reacquired(Cleared(1), [1, 1, 2, 1, 2], [FIRST_CHARGE, SECOND_STALE], [0])
    ensures s' == Apply(s, CommitDispatch(1)) && !StaleWrite(s, CommitDispatch(1))
  {
    BeginTwice(BEFORE, AFTER);
    Commits(s, 1, s', SECOND_STALE);
  }

  const PASSED_TWICE: State := Reacquired(Confirmed(1), [1, 1, 2, 1, 2, 2], [FIRST_CHARGE, SECOND_STALE], [0, 1])

  const BETWEEN: seq<Step> := [Acquire("b", 1.0), Reserve(1), CommitDispatch(1), CheckLease(1)]

  lemma BetweenPrefixes(s: State)
    ensures Run(s, BETWEEN[..0]) == s
    ensures Run(s, BETWEEN[..1]) == Apply(s, BETWEEN[0])
    ensures Run(s, BETWEEN[..2]) == Apply(Run(s, BETWEEN[..1]), BETWEEN[1])
    ensures Run(s, BETWEEN[..3]) == Apply(Run(s, BETWEEN[..2]), BETWEEN[2])
    ensures Run(s, BETWEEN) == Apply(Run(s, BETWEEN[..3]), BETWEEN[3])
  {
    assert BETWEEN[..1][..0] == BETWEEN[..0] && BETWEEN[..2][..1] == BETWEEN[..1] && BETWEEN[..3][..2] == BETWEEN[..2];
    assert Run(s, BETWEEN[..0]) == s;
  }

  /**
    The stale command need not fall between the two calls. Here it comes before both, no write between them is stale,
    and the second is made under a lease whose epoch was acquired twice.
   */
  lemma StaleCommandMayPrecedeBothCalls()
    ensures ReachedLeased(TWO_CALLS, PASSED_ONCE) && PASSED_ONCE.past.passed == [0]
    ensures Run(PASSED_ONCE, BETWEEN) == PASSED_TWICE && OnlyLeased(BETWEEN) && NoStaleWrite(PASSED_ONCE, BETWEEN)
    ensures SameRequest(PASSED_TWICE.past.cleared, PASSED_TWICE.past.passed[0], PASSED_TWICE.past.passed[1])
  {
    FirstPassesFirst();
    BetweenPrefixes(PASSED_ONCE);
    var s1 := Reacquired(SAW, [1, 1, 2, 1, 2], [FIRST_CHARGE], [0]);
    var s2 := Reacquired(Reserving(9, 16), [1, 1, 2, 1, 2], [FIRST_CHARGE], [0]);
    var s3 := Reacquired(Cleared(1), [1, 1, 2, 1, 2], [FIRST_CHARGE, SECOND_STALE], [0]);
    SecondOwnerReacquires(PASSED_ONCE, s1);
    WaitingReserves(s1, s2);
    WaitingCommits(s2, s3);
    WaitingPasses(s3);
    forall n | 0 <= n < |BETWEEN| ensures !StaleWrite(Run(PASSED_ONCE, BETWEEN[..n]), BETWEEN[n]) {
      assert n == 0 || n == 1 || n == 2 || n == 3;
    }
  }

  lemma WaitingPasses(s: State)
    requires s == Reacquired(Cleared(1), [1, 1, 2, 1, 2], [FIRST_CHARGE, SECOND_STALE], [0])
    ensures Apply(s, CheckLease(1)) == PASSED_TWICE && !StaleWrite(s, CheckLease(1))
  {
  }

  // ------------------------------------------------------------------ an old cycle number

  const ONE_CYCLE: O.CycleEnd := O.CycleEnd(O.Continue, "cycle", None, None, true, None, None)
  const CYCLED_ROW: Row := O.CompleteCycleRow(ACQUIRED_ROW, ONE_CYCLE)

  function Cycling(row: Row, cycles: set<nat>, agent: Agent, accepted: seq<nat>): State {
    State(TWO_CALLS, 0.0, Some(row), cycles, [ACQUIRED_ROW], EMPTY_DB, [agent], History(accepted, [], [], [], []))
  }

  lemma RowIsReadBeforeCycle()
    ensures ReachedCurrent(TWO_CALLS, Cycling(ACQUIRED_ROW, {}, Process(A, None, Idle), [1]))
  {
    FirstAcquires();
    var s, s' := Early(ACQUIRED_ROW, EMPTY_DB, [Process(A, None, Idle)]), Cycling(ACQUIRED_ROW, {}, Process(A, None, Idle), [1]);
    ReadsRow(s, s');
    FencedNext(TWO_CALLS, s, OperatorReads, s');
  }

  lemma CycleLoads()
    ensures ReachedCurrent(TWO_CALLS, Cycling(ACQUIRED_ROW, {}, Process(A, Some(ACQUIRED_ROW), Loaded(ManagedEntry)), [1]))
  {
    RowIsReadBeforeCycle();
    var s := Cycling(ACQUIRED_ROW, {}, Process(A, None, Idle), [1]);
    var s' := Cycling(ACQUIRED_ROW, {}, Process(A, Some(ACQUIRED_ROW), Loaded(ManagedEntry)), [1]);
    Loads(s, 0, ManagedEntry, s');
    FencedNext(TWO_CALLS, s, Load(0, ManagedEntry), s');
  }

  lemma CycleChecks(s: State, s': State)
    requires s == Cycling(ACQUIRED_ROW, {}, Process(A, Some(ACQUIRED_ROW), Loaded(ManagedEntry)), [1])
    requires s' == Cycling(ACQUIRED_ROW, {}, Process(A, Some(ACQUIRED_ROW), Stepping), [1])
    ensures s' == Apply(s, Check(0))
  {
    assert !UnknownOpen(s.db);
  }

  lemma CycleSteps()
    ensures ReachedCurrent(TWO_CALLS, Cycling(ACQUIRED_ROW, {}, Process(A, Some(ACQUIRED_ROW), Stepping), [1]))
  {
    CycleLoads();
    var s := Cycling(ACQUIRED_ROW, {}, Process(A, Some(ACQUIRED_ROW), Loaded(ManagedEntry)), [1]);
    var s' := Cycling(ACQUIRED_ROW, {}, Process(A, Some(ACQUIRED_ROW), Stepping), [1]);
    CycleChecks(s, s');
    FencedNext(TWO_CALLS, s, Check(0), s');
  }

  const CYCLED: State := Cycling(CYCLED_ROW, {1}, Process(A, None, Idle), [1, 1])

  lemma EndsCycle(s: State, s': State)
    requires s == Cycling(ACQUIRED_ROW, {}, Process(A, Some(ACQUIRED_ROW), Stepping), [1]) && s' == CYCLED
    ensures s' == Apply(s, EndCycle(0, ONE_CYCLE))
  {
    assert {} + {1} == {1};
  }

  lemma CycleEnds()
    ensures ReachedCurrent(TWO_CALLS, CYCLED)
  {
    CycleSteps();
    var s := Cycling(ACQUIRED_ROW, {}, Process(A, Some(ACQUIRED_ROW), Stepping), [1]);
    EndsCycle(s, CYCLED);
    FencedNext(TWO_CALLS, s, EndCycle(0, ONE_CYCLE), CYCLED);
  }

  /** A pause read before a cycle ended and saved after it takes the cycle number back, within one lease. */
  lemma OldCommandTakesCycleNumberBack()
    ensures ReachedCurrent(TWO_CALLS, CYCLED)
    ensures OldNumber(CYCLED, OperatorWrites(0, O.PauseRun)) && !StaleWrite(CYCLED, OperatorWrites(0, O.PauseRun))
    ensures Exact(CYCLED) && !Exact(Apply(CYCLED, OperatorWrites(0, O.PauseRun)))
  {
    CycleEnds();
    assert UpTo(1) == {1};
    OldNumberBreaksExact(CYCLED, OperatorWrites(0, O.PauseRun));
  }
}
