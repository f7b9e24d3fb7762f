/** What a restarted daemon may do with a run, from its checkpoint and the list of its attempts. */
module Recovery {
  import opened Wrappers
  import opened Store
  import opened Runs
  import opened Restart
  import O = Orchestration

  datatype Action =
    | SafeResume
    | SafeRetryAfterReauthorization
    | ReconciliationRequired
    | HumanRequired
    | DoNotResume

  predicate Settled(attempt: Attempt) {
    !attempt.state.Dispatching? && !attempt.state.UnknownOutcome? && !attempt.state.Authorized?
  }

  function ActionFor(attempt: Attempt): Action
    requires !Settled(attempt)
  {
    match attempt.state
    case Dispatching => ReconciliationRequired
    case UnknownOutcome => if attempt.sideEffectLevel > 0 then HumanRequired else ReconciliationRequired
    case _ => SafeRetryAfterReauthorization
  }

  /** The first attempt in list order that is not settled decides. */
  function ClassifyAttempts(listed: seq<Attempt>): Action {
    if listed == [] then SafeResume
    else if Settled(listed[0]) then ClassifyAttempts(listed[1..])
    else ActionFor(listed[0])
  }

  function Classify(row: Option<Row>, listed: seq<Attempt>): Action {
    if row.None? || !O.Runnable(row.value.state) then DoNotResume else ClassifyAttempts(listed)
  }

  lemma {:induction false} AttemptsDecide(listed: seq<Attempt>)
    ensures ClassifyAttempts(listed).SafeResume? <==> forall i :: 0 <= i < |listed| ==> Settled(listed[i])
    ensures !ClassifyAttempts(listed).SafeResume? ==>
              exists i :: 0 <= i < |listed| && !Settled(listed[i]) && ClassifyAttempts(listed) == ActionFor(listed[i])
                          && forall j :: 0 <= j < i ==> Settled(listed[j])
    ensures !ClassifyAttempts(listed).DoNotResume?
  {
    if listed != [] && Settled(listed[0]) {
      var rest := listed[1..];
      AttemptsDecide(rest);
      assert forall i :: 0 <= i < |rest| ==> listed[i + 1] == rest[i];
      assert (forall i :: 0 <= i < |listed| ==> Settled(listed[i])) <==> (forall i :: 0 <= i < |rest| ==> Settled(rest[i])) by {
        assert forall i :: 0 < i < |listed| ==> listed[i] == rest[i - 1];
      }
      if !ClassifyAttempts(rest).SafeResume? {
        var i :| 0 <= i < |rest| && !Settled(rest[i]) && ClassifyAttempts(rest) == ActionFor(rest[i])
                 && forall j :: 0 <= j < i ==> Settled(rest[j]);
        assert !Settled(listed[i + 1]);
        forall j | 0 <= j < i + 1 ensures Settled(listed[j]) {
          assert j > 0 ==> listed[j] == rest[j - 1];
        }
      }
    }
  }

  /**
    A run may resume exactly when its checkpoint is READY or RUNNING and no attempt is DISPATCHING, UNKNOWN_OUTCOME
    or AUTHORIZED, whatever the order the attempts are listed in.
   */
  lemma SafeResumeExactlyWhenSettled(row: Option<Row>, listed: seq<Attempt>)
    ensures Classify(row, listed).SafeResume? <==>
            && row.Some? && O.Runnable(row.value.state)
            && forall i :: 0 <= i < |listed| ==> Settled(listed[i])
    ensures Classify(row, listed).DoNotResume? <==> row.None? || !O.Runnable(row.value.state)
  {
    AttemptsDecide(listed);
  }

  predicate FirstUnsettled(listed: seq<Attempt>, i: nat) {
    && i < |listed| && listed[i].state in {Dispatching, UnknownOutcome, Authorized}
    && forall j :: 0 <= j < i ==> listed[j].state !in {Dispatching, UnknownOutcome, Authorized}
  }

  lemma FirstIsUnique(listed: seq<Attempt>, i: nat)
    requires FirstUnsettled(listed, i)
    ensures forall k: nat :: FirstUnsettled(listed, k) ==> k == i
  {
  }

  /** Of a READY or RUNNING run, the first unsettled attempt decides: its state, and for an unknown outcome its side effects. */
  lemma ClassifierAnswers(row: Option<Row>, listed: seq<Attempt>)
    requires row.Some? && (row.value.state.Ready? || row.value.state.Running?)
    ensures Classify(row, listed).SafeRetryAfterReauthorization? <==>
            exists i: nat :: FirstUnsettled(listed, i) && listed[i].state.Authorized?
    ensures Classify(row, listed).HumanRequired? <==>
            exists i: nat :: FirstUnsettled(listed, i) && listed[i].state.UnknownOutcome? && listed[i].sideEffectLevel > 0
    ensures Classify(row, listed).ReconciliationRequired? <==>
            exists i: nat :: FirstUnsettled(listed, i)
                        && (listed[i].state.Dispatching?
                            || (listed[i].state.UnknownOutcome? && listed[i].sideEffectLevel == 0))
  {
    AttemptsDecide(listed);
    var action := Classify(row, listed);
    if !action.SafeResume? {
      var i :| 0 <= i < |listed| && !Settled(listed[i]) && action == ActionFor(listed[i])
               && forall j :: 0 <= j < i ==> Settled(listed[j]);
      assert FirstUnsettled(listed, i);
      FirstIsUnique(listed, i);
    }
  }

  /** The list holds every attempt of the store. */
  ghost predicate Lists(listed: seq<Attempt>, db: Db) {
    forall r :: r in db.attempts ==> db.attempts[r] in listed
  }

  /** After a crash that left an attempt open, the classifier refuses to resume for the rest of the run's life. */
  lemma {:induction false} OpenAttemptIsNeverSafeToResume(s: State, steps: seq<Step>, listed: seq<Attempt>)
    requires Quiet(s) && Lists(listed, Run(s, steps).db)
    ensures !Classify(Run(s, steps).row, listed).SafeResume?
  {
    OpenAttemptStopsTheRun(s, steps);
    var db := Run(s, steps).db;
    var r :| r in db.attempts && OpenAttempt(db.attempts[r]);
    assert db.attempts[r] in listed && !Settled(db.attempts[r]);
    SafeResumeExactlyWhenSettled(Run(s, steps).row, listed);
  }

  ghost predicate ListsOnly(listed: seq<Attempt>, db: Db) {
    forall a :: a in listed ==> exists r :: r in db.attempts && db.attempts[r] == a
  }

  /** With an attempt open and none AUTHORIZED, a crashed run is never offered a resume or a retry, whatever is done to it. */
  lemma {:induction false} OpenAttemptIsNeverRetried(s: State, steps: seq<Step>, listed: seq<Attempt>)
    requires Quiet(s) && forall r :: r in s.db.attempts ==> !s.db.attempts[r].state.Authorized?
    requires Lists(listed, Run(s, steps).db) && ListsOnly(listed, Run(s, steps).db)
    ensures Classify(Run(s, steps).row, listed) in {ReconciliationRequired, HumanRequired, DoNotResume}
  {
    OpenAttemptIsNeverSafeToResume(s, steps, listed);
    OpenAttemptStopsTheRun(s, steps);
    var db := Run(s, steps).db;
    forall a | a in listed ensures !a.state.Authorized? {
      var r :| r in db.attempts && db.attempts[r] == a;
    }
    NoneToRetry(Run(s, steps).row, listed);
  }

  lemma NoneToRetry(row: Option<Row>, listed: seq<Attempt>)
    requires forall a :: a in listed ==> !a.state.Authorized?
    ensures !Classify(row, listed).SafeRetryAfterReauthorization?
  {
    if row.Some? && O.Runnable(row.value.state) {
      ClassifierAnswers(row, listed);
    }
  }

  /** A run judged safe to resume passes the checks of every entry point; a step alone also minds the recorded phase. */
  lemma SafeResumePassesChecks(s: State, i: nat, entry: Entry, listed: seq<Attempt>)
    requires Lists(listed, s.db) && Classify(s.row, listed).SafeResume?
    requires Doing(s, i, Idle)
    ensures
      var checked := Apply(Apply(s, Load(i, entry)), Check(i));
      Doing(checked, i, if entry.StepEntry? && s.row.value.currentPhase.PhaseDispatching? then Halting else Stepping)
  {
    SafeResumeExactlyWhenSettled(s.row, listed);
    assert !UnknownOpen(s.db) by {
      forall r | r in s.db.attempts ensures !OpenAttempt(s.db.attempts[r]) {
        assert Settled(s.db.attempts[r]);
      }
    }
  }
}
