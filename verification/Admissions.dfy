/** What armings and deliveries answer, and whose verdict an admission or a rejection carries. */
module Admissions {
  import opened Wrappers
  import opened Oast

  // ------------------------------------------------------------------ the spine behind a correlation

  /** The rows of an attempt agree with each other and have an identity. */
  predicate SpineOf(spine: Spine, attempt: Id, experiment: Id, run: Id, target: Id, identity: Id) {
    && attempt in spine.attempts && spine.attempts[attempt] == Attempt(experiment, run, target)
    && experiment in spine.plans && run in spine.runs
    && var plan := spine.plans[experiment];
       && plan.run == run && plan.target == target && (plan.identity.Some? ==> plan.identity.value == identity)
       && plan.hypothesis in spine.hypotheses && spine.hypotheses[plan.hypothesis] == Some(identity)
  }

  ghost predicate CompleteSpine(spine: Spine, attempt: Id) {
    exists experiment, run, target, identity :: SpineOf(spine, attempt, experiment, run, target, identity)
  }

  lemma SpineErrorExactly(spine: Spine, attempt: Id)
    ensures SpineError(spine, attempt).None? <==> CompleteSpine(spine, attempt)
    ensures SpineError(spine, attempt) == Some(AttemptMissing) <==> attempt !in spine.attempts
    ensures SpineError(spine, attempt) == Some(PlanOfOtherRun) ==>
              spine.plans[spine.attempts[attempt].experiment].run != spine.attempts[attempt].run
    ensures SpineError(spine, attempt) == Some(TargetMismatch) ==>
              spine.plans[spine.attempts[attempt].experiment].target != spine.attempts[attempt].target
    ensures SpineError(spine, attempt) == Some(IdentityMissing) ==>
              spine.hypotheses[spine.plans[spine.attempts[attempt].experiment].hypothesis].None?
    ensures SpineError(spine, attempt) != Some(WindowOutOfBounds)
  {
    if SpineError(spine, attempt).None? {
      var row := spine.attempts[attempt];
      var identity := spine.hypotheses[spine.plans[row.experiment].hypothesis].value;
      assert SpineOf(spine, attempt, row.experiment, row.run, row.target, identity);
    }
  }

  /**
    Arming succeeds exactly inside the window bounds and for a complete spine; a first arming adds one correlation with
    the spine's own rows and the given window, a later one and every refusal add nothing.
   */
  lemma ArmingAnswers(
    ledger: Ledger, attempt: Id, armedAt: Time, expiresAt: Time, maxTtl: Time, newId: Id, existing: Option<Id>)
    requires existing.Some? ==> ArmedAs(ledger.correlations, attempt, existing.value)
    ensures
      var result := Arm(ledger, attempt, armedAt, expiresAt, maxTtl, newId, existing);
      && (result.outcome.Armed? <==> 0.0 < expiresAt - armedAt <= maxTtl && CompleteSpine(ledger.spine, attempt))
      && (result.outcome == ArmFailed(WindowOutOfBounds) <==> !(0.0 < expiresAt - armedAt <= maxTtl))
      && (result.outcome.Armed? && existing.Some? ==>
            result.ledger == ledger && result.outcome.id == existing.value && result.outcome.existing)
      && (result.outcome.Armed? && existing.None? ==>
            var c := result.outcome.correlation;
            && result.outcome.id == newId && !result.outcome.existing
            && result.ledger == ledger.(correlations := ledger.correlations[newId := c])
            && c.attempt == attempt && c.armedAt == armedAt && c.expiresAt == expiresAt
            && SpineOf(ledger.spine, attempt, c.experiment, c.run, c.target, c.identity))
      && (!result.outcome.Armed? ==> result.ledger == ledger)
  {
    SpineErrorExactly(ledger.spine, attempt);
  }

  /** A delivery is bound exactly inside the window and while the spine still says what the correlation says. */
  lemma BindingExactly(spine: Spine, c: Correlation, receivedAt: Time)
    ensures
      var error := BindingError(spine, c, receivedAt);
      && (error.None? <==>
            c.armedAt <= receivedAt < c.expiresAt && SpineOf(spine, c.attempt, c.experiment, c.run, c.target, c.identity))
      && (error == Some(NotArmed) <==> receivedAt < c.armedAt)
      && (error == Some(Expired) <==> c.armedAt <= receivedAt && c.expiresAt <= receivedAt)
      && (error == Some(AttemptRunMismatch) ==> spine.attempts[c.attempt].run != c.run)
      && (error == Some(AttemptExperimentMismatch) ==> spine.attempts[c.attempt].experiment != c.experiment)
      && (error == Some(AttemptTargetMismatch) ==> spine.attempts[c.attempt].target != c.target)
      && (error == Some(PlanRunMismatch) ==> spine.plans[c.experiment].run != c.run)
      && (error == Some(PlanTargetMismatch) ==> spine.plans[c.experiment].target != c.target)
      && (error == Some(NoIdentity) ==> spine.hypotheses[spine.plans[c.experiment].hypothesis].None?)
      && error !in {Some(CorrelationNotFound), Some(DeliveryAlreadyRecorded), Some(AdmissionConflict), Some(AdmissionRejected)}
  {
  }

  // ------------------------------------------------------------------ whose verdict it was

  /** The transaction's own admission step, with this verdict of the sensor, at the moment it was about to admit. */
  ghost predicate Judged(s: System, steps: seq<Step>, i: nat, rejects: bool) {
    exists n :: 0 <= n < |steps| && steps[n] == WriteAdmission(i, rejects) && At(Run(s, steps[..n]), i, Admitting)
  }

  predicate AdmitsOrWill(stage: Stage) {
    stage.AdmissionWritten? || stage == Done(CallbackAdmitted)
  }

  predicate TurnedDown(stage: Stage) {
    stage == Done(Refused(AdmissionRejected))
  }

  /** Unhindered, the admission step follows the sensor. */
  lemma SensorDecides(s: System, i: nat, rejects: bool)
    requires At(s, i, Admitting) && !Admitted(s.ledger.admissions, s.open[i].delivery.correlation)
    requires !AdmissionBlocked(s, i, s.open[i].delivery.correlation)
    ensures
      var s' := Apply(s, WriteAdmission(i, rejects));
      && s'.ledger == s.ledger && |s'.open| == |s.open| && s'.open[i].delivery == s.open[i].delivery
      && (TurnedDown(s'.open[i].stage) <==> rejects) && (s'.open[i].stage.AdmissionWritten? <==> !rejects)
  {
  }

  /** A verdict appears only by the transaction's own admission step. */
  lemma VerdictIsOwn(s: System, step: Step, i: nat)
    requires i < |Apply(s, step).open|
    ensures TurnedDown(Apply(s, step).open[i].stage) ==>
              (i < |s.open| && TurnedDown(s.open[i].stage)) || (At(s, i, Admitting) && step == WriteAdmission(i, true))
    ensures AdmitsOrWill(Apply(s, step).open[i].stage) ==>
              (i < |s.open| && AdmitsOrWill(s.open[i].stage)) || (At(s, i, Admitting) && step == WriteAdmission(i, false))
  {
  }

  lemma JudgedEarlier(s: System, steps: seq<Step>, i: nat, rejects: bool)
    requires steps != [] && Judged(s, steps[..|steps| - 1], i, rejects)
    ensures Judged(s, steps, i, rejects)
  {
    var front := steps[..|steps| - 1];
    var n :| 0 <= n < |front| && front[n] == WriteAdmission(i, rejects) && At(Run(s, front[..n]), i, Admitting);
    assert front[..n] == steps[..n] && steps[n] == front[n];
  }

  /**
    In every interleaving: a delivery is turned down only after the sensor rejected it in that transaction's own admission
    step, and admitted only after the sensor accepted it there.
   */
  lemma {:induction false} VerdictsAreTheSensors(spine: Spine, steps: seq<Step>, i: nat)
    requires i < |Run(Start(spine), steps).open|
    ensures TurnedDown(Run(Start(spine), steps).open[i].stage) ==> Judged(Start(spine), steps, i, true)
    ensures AdmitsOrWill(Run(Start(spine), steps).open[i].stage) ==> Judged(Start(spine), steps, i, false)
  {
    if steps != [] {
      var n := |steps| - 1;
      var s0, front := Start(spine), steps[..n];
      var before, stage := Run(s0, front), Run(s0, steps).open[i].stage;
      VerdictIsOwn(before, steps[n], i);
      if i < |before.open| && (TurnedDown(before.open[i].stage) || AdmitsOrWill(before.open[i].stage)) {
        VerdictsAreTheSensors(spine, front, i);
        if TurnedDown(stage) && TurnedDown(before.open[i].stage) {
          JudgedEarlier(s0, steps, i, true);
        }
        if AdmitsOrWill(stage) && AdmitsOrWill(before.open[i].stage) {
          JudgedEarlier(s0, steps, i, false);
        }
      }
    }
  }

  ghost predicate HasAdmitter(s: System, a: Admission) {
    exists i :: 0 <= i < |s.open| && s.open[i] == Transaction(a.delivery, Done(CallbackAdmitted))
  }

  lemma AdmitterStays(s: System, step: Step, a: Admission)
    requires HasAdmitter(s, a)
    ensures HasAdmitter(Apply(s, step), a)
  {
    var i :| 0 <= i < |s.open| && s.open[i] == Transaction(a.delivery, Done(CallbackAdmitted));
    assert Apply(s, step).open[i] == s.open[i];
  }

  lemma AdmissionsAppear(s: System, step: Step, a: Admission)
    requires a in Apply(s, step).ledger.admissions
    ensures a in s.ledger.admissions || HasAdmitter(Apply(s, step), a)
  {
    if a !in s.ledger.admissions {
      assert Apply(s, step).open[step.i] == Transaction(a.delivery, Done(CallbackAdmitted));
    }
  }

  /** Every admission of a run was committed by a transaction of that delivery, and its sensor had accepted it. */
  lemma {:induction false} AdmissionsWereAccepted(spine: Spine, steps: seq<Step>, a: Admission) returns (i: nat)
    requires a in Run(Start(spine), steps).ledger.admissions
    ensures i < |Run(Start(spine), steps).open|
    ensures Run(Start(spine), steps).open[i] == Transaction(a.delivery, Done(CallbackAdmitted))
    ensures Judged(Start(spine), steps, i, false)
  {
    AdmissionsHaveAdmitters(spine, steps, a);
    var s := Run(Start(spine), steps);
    i :| 0 <= i < |s.open| && s.open[i] == Transaction(a.delivery, Done(CallbackAdmitted));
    VerdictsAreTheSensors(spine, steps, i);
  }

  lemma {:induction false} AdmissionsHaveAdmitters(spine: Spine, steps: seq<Step>, a: Admission)
    requires a in Run(Start(spine), steps).ledger.admissions
    ensures HasAdmitter(Run(Start(spine), steps), a)
  {
    if steps != [] {
      var before, step := Run(Start(spine), steps[..|steps| - 1]), steps[|steps| - 1];
      AdmissionsAppear(before, step, a);
      if a in before.ledger.admissions {
        AdmissionsHaveAdmitters(spine, steps[..|steps| - 1], a);
        AdmitterStays(before, step, a);
      }
    }
  }
}
