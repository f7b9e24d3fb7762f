/** A run in which an operator command saves the record it read before a takeover, and the old lease is honoured again. */
module StaleOperator {
  import opened Wrappers
  import opened Ledger
  import opened Runs
  import opened Fencing
  import W = Whitespace
  import O = Orchestration

  const NO_BUDGETS: Limits := Limits(map[], 0)

  function Leased(owner: O.RuntimeId, epoch: nat): Agent {
    Agent(Some(Lease(owner, epoch)), true, None, Idle)
  }

  function HeldRow(owner: O.RuntimeId, epoch: nat, expiresAt: O.Time): Row {
    O.StartRow(3).(owner := Some(owner), epoch := epoch, expiresAt := Some(expiresAt))
  }

  function Paused(row: Row): Row {
    row.(state := O.Paused, stopReason := Some(O.OperatorPaused), pauseReason := Some(O.OperatorPaused),
         lastPhase := O.Note("operator"))
  }

  const FIRST: State :=
    Initial(NO_BUDGETS).(
      row := Some(HeldRow("a", 1, 1.0)), agents := [Leased("a", 1)], snapshots := [HeldRow("a", 1, 1.0)],
      past := History([1], [], [], [], []))

  const SECOND: State :=
    FIRST.(
      now := 2.0, row := Some(HeldRow("b", 2, 3.0)), agents := [Leased("a", 1), Leased("b", 2)],
      past := History([1, 2], [], [], [], []))

  /** The first owner's row, restored by the pause. */
  const RESTORED: State := SECOND.(row := Some(Paused(HeldRow("a", 1, 1.0))))

  const REVIVED: State :=
    RESTORED.(
      row := Some(Paused(HeldRow("a", 1, 1.0)).(expiresAt := Some(3.0))),
      past := History([1, 2, 1], [], [], [], []))

  lemma FirstOwnerIsRead()
    ensures Reachable(NO_BUDGETS, FIRST)
  {
    var s0 := Initial(NO_BUDGETS);
    assert s0 == Run(s0, []);
    var s1 := s0.(row := Some(O.StartRow(3)));
    ReachNext(NO_BUDGETS, s0, Start(3), s1);
    var s2 := FIRST.(snapshots := []);
    assert !W.Blank("a") by { assert "a"[0] == 'a'; }
    ReachNext(NO_BUDGETS, s1, Acquire("a", 1.0), s2);
    ReachNext(NO_BUDGETS, s2, OperatorReads, FIRST);
  }

  lemma SecondOwnerTakesOver()
    ensures Reachable(NO_BUDGETS, SECOND)
  {
    FirstOwnerIsRead();
    ReachNext(NO_BUDGETS, FIRST, Advance(2.0), FIRST.(now := 2.0));
    assert !W.Blank("b") by { assert "b"[0] == 'b'; }
    ReachNext(NO_BUDGETS, FIRST.(now := 2.0), Acquire("b", 1.0), SECOND);
  }

  /**
    The accepted epochs of this run are 1, 2, 1: after "b" took over, a pause saved from the record read before
    restores the row of "a", whose next heartbeat succeeds while the lease of "b" is refused.
   */
  lemma StaleCommandRevivesOldLease()
    ensures Reachable(NO_BUDGETS, REVIVED) && !Nondecreasing(REVIVED.past.accepted)
    ensures StaleWrite(SECOND, OperatorWrites(0, O.PauseRun)) && Apply(SECOND, OperatorWrites(0, O.PauseRun)) == RESTORED
    ensures !O.RenewRow(REVIVED.row, "b", 2, 1.0, REVIVED.now).accepted
  {
    SecondOwnerTakesOver();
    ReachNext(NO_BUDGETS, SECOND, OperatorWrites(0, O.PauseRun), RESTORED);
    ReachNext(NO_BUDGETS, RESTORED, Renew(0, 1.0), REVIVED);
    assert REVIVED.past.accepted[1] == 2 && REVIVED.past.accepted[2] == 1;
  }
}
