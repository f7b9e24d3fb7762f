/** Concrete runs of leased processes in which an operator's old record shortens a lease or lets two attempts through. */
module LeaseWitnesses {
  import opened Wrappers
  import opened Ledger
  import opened Store
  import opened Execution
  import opened Runs
  import opened Dispatches
  import opened Fencing
  import opened FencedCalls
  import opened Witnesses
  import opened LateCalls
  import opened SecondAttempts
  import W = Whitespace
  import O = Orchestration

  // ------------------------------------------------------------------ an old expiry

  const TEN_ROW: Row := O.StartRow(3).(owner := Some("a"), epoch := 1, expiresAt := Some(10.0))

  function PausedFrom(row: Row): Row {
    row.(state := O.Paused, stopReason := Some(O.OperatorPaused), pauseReason := Some(O.OperatorPaused),
         lastPhase := O.Note("operator"))
  }

  function Held(now: O.Time, row: Row, snapshots: seq<Row>, agents: seq<Agent>, accepted: seq<nat>): State {
    State(TWO_CALLS, now, Some(row), {}, snapshots, EMPTY_DB, agents, History(accepted, [], [], [], []))
  }

  const OWNER: Agent := Process(A, None, Idle)

  lemma AcquiresForTen(s: State, s': State)
    requires s == Initial(TWO_CALLS).(row := Some(O.StartRow(3))) && s' == Held(0.0, TEN_ROW, [], [OWNER], [1])
    ensures s' == Apply(s, Acquire("a", 10.0))
  {
    assert !W.Blank("a") by { assert "a"[0] == 'a'; }
  }

  lemma OwnerIsRead()
    ensures ReachedCurrent(TWO_CALLS, Held(0.0, TEN_ROW, [TEN_ROW], [OWNER], [1]))
  {
    RunStarts();
    var s0, s1 := Initial(TWO_CALLS).(row := Some(O.StartRow(3))), Held(0.0, TEN_ROW, [], [OWNER], [1]);
    AcquiresForTen(s0, s1);
    FencedNext(TWO_CALLS, s0, Acquire("a", 10.0), s1);
    ReadsRow(s1, Held(0.0, TEN_ROW, [TEN_ROW], [OWNER], [1]));
    FencedNext(TWO_CALLS, s1, OperatorReads, Held(0.0, TEN_ROW, [TEN_ROW], [OWNER], [1]));
  }

  /** After the heartbeat at time 5. */
  const RENEWED: State := Held(5.0, TEN_ROW.(expiresAt := Some(15.0)), [TEN_ROW], [OWNER], [1, 1])

  lemma RenewsAtFive(s: State)
    requires s == Held(5.0, TEN_ROW, [TEN_ROW], [OWNER], [1])
    ensures RENEWED == Apply(s, Renew(0, 10.0))
  {
  }

  lemma OwnerRenews()
    ensures ReachedCurrent(TWO_CALLS, RENEWED)
  {
    OwnerIsRead();
    var s, s' := Held(0.0, TEN_ROW, [TEN_ROW], [OWNER], [1]), Held(5.0, TEN_ROW, [TEN_ROW], [OWNER], [1]);
    FencedNext(TWO_CALLS, s, Advance(5.0), s');
    RenewsAtFive(s');
    FencedNext(TWO_CALLS, s', Renew(0, 10.0), RENEWED);
  }

  /** The pause puts the expiry of time 10 back, under the same epoch. */
  const SHORTENED: State := Held(5.0, PausedFrom(TEN_ROW), [TEN_ROW], [OWNER], [1, 1])

  lemma PauseShortensLease()
    ensures ReachedCurrent(TWO_CALLS, SHORTENED)
    ensures Apply(RENEWED, OperatorWrites(0, O.PauseRun)) == SHORTENED && !StaleWrite(RENEWED, OperatorWrites(0, O.PauseRun))
  {
    OwnerRenews();
    Commands(RENEWED, O.PauseRun, PausedFrom(TEN_ROW), SHORTENED);
    CurrentNext(TWO_CALLS, RENEWED, OperatorWrites(0, O.PauseRun), SHORTENED);
  }

  const LOST: State :=
    Held(11.0, PausedFrom(TEN_ROW).(owner := Some("b"), epoch := 2, expiresAt := Some(21.0)), [TEN_ROW],
         [OWNER, Process(B, None, Idle)], [1, 1, 2])

  lemma OtherAcquires(s: State)
    requires s == SHORTENED.(now := 11.0)
    ensures LOST == Apply(s, Acquire("b", 10.0))
  {
    assert !W.Blank("b") by { assert "b"[0] == 'b'; }
  }

  /**
    Every renewal of "a" was accepted, the last one at time 5 for ten seconds, and no write carried another epoch; at time
    11 "b" takes the run over, because a pause saved from the record read before the renewal put its older expiry back.
   */
  lemma OldExpiryLosesTheLease()
    ensures ReachedCurrent(TWO_CALLS, RENEWED) && RENEWED.row.value.expiresAt == Some(15.0)
    ensures ReachedCurrent(TWO_CALLS, LOST) && LOST.now < 15.0 && LeaseHeld(LOST.row, Some(B))
  {
    OwnerRenews();
    PauseShortensLease();
    FencedNext(TWO_CALLS, SHORTENED, Advance(6.0), SHORTENED.(now := 11.0));
    OtherAcquires(SHORTENED.(now := 11.0));
    FencedNext(TWO_CALLS, SHORTENED.(now := 11.0), Acquire("b", 10.0), LOST);
  }

  // ------------------------------------------------------------------ two hooked attempts

  const OTHER_ROW: Row := ACQUIRED_ROW.(owner := Some("b"), epoch := 2, expiresAt := Some(3.0))

  function Rivals(
    row: Row, first: Agent, second: seq<Agent>, db: Db, accepted: seq<nat>, created: seq<Creation>): State
  {
    State(TWO_CALLS, 2.0, Some(row), {}, [ACQUIRED_ROW], db, [first] + second, History(accepted, [], [], [], created))
  }

  const WAITING: Agent := Process(A, Some(ACQUIRED_ROW), Authorizing(7))

  function Other(doing: Activity): seq<Agent> { [Process(B, Some(OTHER_ROW), doing)] }

  lemma FirstWaits()
    ensures ReachedCurrent(TWO_CALLS, Rivals(ACQUIRED_ROW, WAITING, [], PLANNED_DB, [1], []))
  {
    FirstReadsExperiment();
    var read := Stage(Authorizing(7)).(snapshots := [ACQUIRED_ROW]);
    ReadsRow(Stage(Authorizing(7)), read);
    FencedNext(TWO_CALLS, Stage(Authorizing(7)), OperatorReads, read);
    FencedNext(TWO_CALLS, read, Advance(2.0), Rivals(ACQUIRED_ROW, WAITING, [], PLANNED_DB, [1], []));
  }

  lemma RivalAcquires(s: State, s': State)
    requires s == Rivals(ACQUIRED_ROW, WAITING, [], PLANNED_DB, [1], [])
    requires s' == Rivals(OTHER_ROW, WAITING, [Process(B, None, Idle)], PLANNED_DB, [1, 2], [])
    ensures s' == Apply(s, Acquire("b", 1.0))
  {
    assert !W.Blank("b") by { assert "b"[0] == 'b'; }
  }

  lemma RivalLoads()
    ensures ReachedCurrent(TWO_CALLS, Rivals(OTHER_ROW, WAITING, Other(Loaded(StepEntry)), PLANNED_DB, [1, 2], []))
  {
    FirstWaits();
    var s0 := Rivals(ACQUIRED_ROW, WAITING, [], PLANNED_DB, [1], []);
    var s1 := Rivals(OTHER_ROW, WAITING, [Process(B, None, Idle)], PLANNED_DB, [1, 2], []);
    var s2 := Rivals(OTHER_ROW, WAITING, Other(Loaded(StepEntry)), PLANNED_DB, [1, 2], []);
    RivalAcquires(s0, s1);
    FencedNext(TWO_CALLS, s0, Acquire("b", 1.0), s1);
    Loads(s1, 1, StepEntry, s2);
    FencedNext(TWO_CALLS, s1, Load(1, StepEntry), s2);
  }

  lemma RivalReadsExperiment(s: State, s': State)
    requires s == Rivals(OTHER_ROW, WAITING, Other(Stepping), PLANNED_DB, [1, 2], [])
    requires s' == Rivals(OTHER_ROW, WAITING, Other(Authorizing(7)), PLANNED_DB, [1, 2], [])
    ensures s' == Apply(s, ReadExperiment(1, 7))
  {
    assert !HasAttemptFor(s.db, 7);
  }

  /** Both processes found the experiment without attempts; the second holds the row. */
  const BOTH_WAIT: State := Rivals(OTHER_ROW, WAITING, Other(Authorizing(7)), PLANNED_DB, [1, 2], [])

  lemma RivalWaits()
    ensures ReachedCurrent(TWO_CALLS, BOTH_WAIT)
  {
    RivalLoads();
    var s1 := Rivals(OTHER_ROW, WAITING, Other(Loaded(StepEntry)), PLANNED_DB, [1, 2], []);
    var s2 := Rivals(OTHER_ROW, WAITING, Other(Stepping), PLANNED_DB, [1, 2], []);
    assert !UnknownOpen(PLANNED_DB);
    Checks(s1, 1, StepEntry, s2);
    FencedNext(TWO_CALLS, s1, Check(1), s2);
    RivalReadsExperiment(s2, BOTH_WAIT);
    FencedNext(TWO_CALLS, s2, ReadExperiment(1, 7), BOTH_WAIT);
  }

  function Ask(i: nat, r: RequestId): Step { CommitAuthorization(i, r, Decided(Allow, false), PLAN, true) }

  const SAVED_ROW: Row := O.UpdateRow(OTHER_ROW, O.PersistAttempt)
  const OTHER_CREATED: Creation := Creation(9, 7, Some(B), true, Some(OTHER_ROW))
  const OTHER_SAVED: Agent := Process(B, Some(SAVED_ROW), Stepping)

  const FIRST_COMMITTED: State := Rivals(SAVED_ROW, WAITING, [OTHER_SAVED], BEFORE, [1, 2, 2], [OTHER_CREATED])

  lemma RivalCommits(s: State)
    requires s == BOTH_WAIT
    ensures FIRST_COMMITTED == Apply(s, Ask(1, 9))
  {
    AuthorizeWritesAttempt();
  }

  /** The pause restores the first lease. */
  const PUT_BACK: State := Rivals(PausedFrom(ACQUIRED_ROW), WAITING, [OTHER_SAVED], BEFORE, [1, 2, 2], [OTHER_CREATED])

  lemma PausePutsFirstBack()
    ensures ReachedLeased(TWO_CALLS, FIRST_COMMITTED) && ReachedLeased(TWO_CALLS, PUT_BACK)
  {
    RivalWaits();
    RivalCommits(BOTH_WAIT);
    FencedNext(TWO_CALLS, BOTH_WAIT, Ask(1, 9), FIRST_COMMITTED);
    CurrentIsLeased(TWO_CALLS, FIRST_COMMITTED);
    Commands(FIRST_COMMITTED, O.PauseRun, PausedFrom(ACQUIRED_ROW), PUT_BACK);
    LeasedNext(TWO_CALLS, FIRST_COMMITTED, OperatorWrites(0, O.PauseRun), PUT_BACK);
  }

  const FIRST_HOOKED: Creation := Creation(10, 7, Some(A), true, Some(PausedFrom(ACQUIRED_ROW)))

  const COMMITTED_TWICE: State :=
    Rivals(AUTHORIZED_ROW, Process(A, Some(AUTHORIZED_ROW), Stepping), [OTHER_SAVED], TWO_ATTEMPTS, [1, 2, 2, 1],
           [OTHER_CREATED, FIRST_HOOKED])

  lemma SecondAttemptIsWritten()
    ensures AuthorizeWrite(BEFORE, 7, 10, Decided(Allow, false), PLAN) == AuthorizeResult(TWO_ATTEMPTS, AuthorizedNotDispatched, true)
  {
    assert CreateAttempt(BEFORE, 7, 10, PLAN) == TWO_ATTEMPTS;
  }

  lemma FirstCommitsToo(s: State)
    requires s == PUT_BACK
    ensures COMMITTED_TWICE == Apply(s, Ask(0, 10))
  {
    SecondAttemptIsWritten();
  }

  /**
    Leased processes, both through the hook: "b" (epoch 2) commits an attempt, a pause saved from the record read before the
    takeover restores "a" (epoch 1), and "a" commits a second attempt of the same experiment under its superseded epoch.
   */
  lemma StaleCommandLetsTwoAttemptsThrough()
    ensures ReachedLeased(TWO_CALLS, COMMITTED_TWICE) && AllLeased(COMMITTED_TWICE.agents)
    ensures TWO_ATTEMPTS.attempts[9].experiment == TWO_ATTEMPTS.attempts[10].experiment
    ensures Epoch(FIRST_COMMITTED.row) == 2 && COMMITTED_TWICE.past.created[1].lease == Some(A)
  {
    PausePutsFirstBack();
    FirstCommitsToo(PUT_BACK);
    LeasedNext(TWO_CALLS, PUT_BACK, Ask(0, 10), COMMITTED_TWICE);
  }
}
