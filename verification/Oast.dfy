/**
  Callbacks admitted against armed correlations: an append-only ledger whose unique keys let any number of overlapping
  transactions agree on one authoritative admission per correlation. A transaction that would take a key held by another
  open transaction waits; a key held by a committed row is a conflict.
 */
module Oast {
  import opened Wrappers

  type Id = nat
  type Time = real

  // ------------------------------------------------------------------ the execution spine

  datatype Attempt = Attempt(experiment: Id, run: Id, target: Id)

  /** `identity` is the plan's own identity argument, when it has one. */
  datatype Plan = Plan(run: Id, target: Id, hypothesis: Id, identity: Option<Id>)

  /** Rows that never change once written; a hypothesis may lack an identity. */
  datatype Spine = Spine(
    attempts: map<Id, Attempt>,
    plans: map<Id, Plan>,
    runs: set<Id>,
    hypotheses: map<Id, Option<Id>>)

  datatype Correlation = Correlation(
    attempt: Id,
    experiment: Id,
    run: Id,
    target: Id,
    identity: Id,
    armedAt: Time,
    expiresAt: Time)

  datatype Delivery = Delivery(
    id: Id,
    correlation: Id,
    adapter: Id,
    event: Id,
    digest: Id,
    receivedAt: Time)

  /** Observation, fact, source and admission rows of one correlation, all under identifiers built from it. */
  datatype Admission = Admission(correlation: Id, delivery: Delivery)

  datatype Ledger = Ledger(
    spine: Spine,
    correlations: map<Id, Correlation>,
    deliveries: seq<Delivery>,
    admissions: seq<Admission>)

  // ------------------------------------------------------------------ arming

  datatype ArmError =
    | WindowOutOfBounds
    | AttemptMissing
    | SpineIncomplete
    | PlanOfOtherRun
    | TargetMismatch
    | IdentityMissing
    | PlanIdentityMismatch

  datatype ArmOutcome = Armed(id: Id, correlation: Correlation, existing: bool) | ArmFailed(error: ArmError)

  datatype ArmResult = ArmResult(ledger: Ledger, outcome: ArmOutcome)

  /** The complete spine of an attempt, or why it cannot be armed. */
  function SpineError(spine: Spine, attempt: Id): Option<ArmError> {
    if attempt !in spine.attempts then Some(AttemptMissing)
    else
      var row := spine.attempts[attempt];
      if row.experiment !in spine.plans || row.run !in spine.runs then Some(SpineIncomplete)
      else
        var plan := spine.plans[row.experiment];
        if plan.hypothesis !in spine.hypotheses then Some(SpineIncomplete)
        else if plan.run != row.run then Some(PlanOfOtherRun)
        else if plan.target != row.target then Some(TargetMismatch)
        else if spine.hypotheses[plan.hypothesis].None? then Some(IdentityMissing)
        else if plan.identity.Some? && plan.identity != spine.hypotheses[plan.hypothesis] then Some(PlanIdentityMismatch)
        else None
  }

  function NewCorrelation(spine: Spine, attempt: Id, armedAt: Time, expiresAt: Time): Correlation
    requires SpineError(spine, attempt).None?
  {
    var row := spine.attempts[attempt];
    var identity := spine.hypotheses[spine.plans[row.experiment].hypothesis].value;
    Correlation(attempt, row.experiment, row.run, row.target, identity, armedAt, expiresAt)
  }

  ghost predicate ArmedAs(correlations: map<Id, Correlation>, attempt: Id, id: Id) {
    id in correlations && correlations[id].attempt == attempt
  }

  /** `fresh` is the new correlation's identifier; an attempt is armed once, later calls return the first. */
  function Arm(
    ledger: Ledger, attempt: Id, armedAt: Time, expiresAt: Time, maxTtl: Time, newId: Id, existing: Option<Id>): ArmResult
  {
    if expiresAt <= armedAt || expiresAt - armedAt > maxTtl then ArmResult(ledger, ArmFailed(WindowOutOfBounds))
    else
      var error := SpineError(ledger.spine, attempt);
      if error.Some? then ArmResult(ledger, ArmFailed(error.value))
      else if existing.Some? && existing.value in ledger.correlations then
        ArmResult(ledger, Armed(existing.value, ledger.correlations[existing.value], true))
      else
        var correlation := NewCorrelation(ledger.spine, attempt, armedAt, expiresAt);
        ArmResult(ledger.(correlations := ledger.correlations[newId := correlation]), Armed(newId, correlation, false))
  }

  // ------------------------------------------------------------------ binding

  datatype Reason =
    | CorrelationNotFound
    | NotArmed
    | Expired
    | BindingNotFound
    | AttemptExperimentMismatch
    | AttemptRunMismatch
    | PlanRunMismatch
    | AttemptTargetMismatch
    | PlanTargetMismatch
    | NoIdentity
    | IdentityMismatch
    | DeliveryAlreadyRecorded
    | AdmissionConflict
    | AdmissionRejected

  function BindingError(spine: Spine, c: Correlation, receivedAt: Time): Option<Reason> {
    if receivedAt < c.armedAt then Some(NotArmed)
    else if receivedAt >= c.expiresAt then Some(Expired)
    else if c.attempt !in spine.attempts || c.experiment !in spine.plans || c.run !in spine.runs
            || spine.plans[c.experiment].hypothesis !in spine.hypotheses
    then Some(BindingNotFound)
    else
      var attempt, plan := spine.attempts[c.attempt], spine.plans[c.experiment];
      var identity := spine.hypotheses[plan.hypothesis];
      if attempt.experiment != c.experiment then Some(AttemptExperimentMismatch)
      else if attempt.run != c.run then Some(AttemptRunMismatch)
      else if plan.run != c.run then Some(PlanRunMismatch)
      else if attempt.target != c.target then Some(AttemptTargetMismatch)
      else if plan.target != c.target then Some(PlanTargetMismatch)
      else if identity.None? then Some(NoIdentity)
      else if identity.value != c.identity then Some(IdentityMismatch)
      else if plan.identity.Some? && plan.identity.value != c.identity then Some(IdentityMismatch)
      else None
  }

  /** What arming derived from the spine always binds: inside its window, such a correlation is never refused. */
  lemma ArmedCorrelationBinds(
    ledger: Ledger, attempt: Id, armedAt: Time, expiresAt: Time, maxTtl: Time, newId: Id, receivedAt: Time)
    requires Arm(ledger, attempt, armedAt, expiresAt, maxTtl, newId, None).outcome.Armed?
    ensures
      var correlation := Arm(ledger, attempt, armedAt, expiresAt, maxTtl, newId, None).outcome.correlation;
      && (BindingError(ledger.spine, correlation, receivedAt).None? <==> armedAt <= receivedAt < expiresAt)
      && (receivedAt < armedAt ==> BindingError(ledger.spine, correlation, receivedAt) == Some(NotArmed))
      && (expiresAt <= receivedAt ==> BindingError(ledger.spine, correlation, receivedAt) == Some(Expired))
  {
  }

  // ------------------------------------------------------------------ unique keys

  /** Two delivery rows that no unique constraint lets stand together. */
  predicate Clash(d: Delivery, e: Delivery) {
    || d.id == e.id
    || (d.adapter == e.adapter && d.event == e.event)
    || (d.correlation == e.correlation && d.digest == e.digest)
  }

  predicate Recorded(deliveries: seq<Delivery>, d: Delivery) {
    exists k :: 0 <= k < |deliveries| && Clash(deliveries[k], d)
  }

  predicate Admitted(admissions: seq<Admission>, correlation: Id) {
    exists k :: 0 <= k < |admissions| && admissions[k].correlation == correlation
  }

  // ------------------------------------------------------------------ overlapping transactions

  datatype Result =
    | CallbackAdmitted
    | AlreadyAdmitted
    | Refused(reason: Reason)
    | Aborted

  datatype Stage =
    | Opened
    | Bound
    | DeliveryWritten
    | Admitting
    | AdmissionWritten
    | Done(result: Result)

  datatype Transaction = Transaction(delivery: Delivery, stage: Stage)

  datatype System = System(ledger: Ledger, open: seq<Transaction>)

  datatype Step =
    | ArmAttempt(attempt: Id, armedAt: Time, expiresAt: Time, maxTtl: Time, newId: Id)
    | Receive(delivery: Delivery)
    | Bind(i: nat)
    | WriteDelivery(i: nat)
    | ReadAdmission(i: nat)
    | WriteAdmission(i: nat, sensorRejects: bool)
    | Commit(i: nat)
    | Abort(i: nat)

  predicate At(s: System, i: nat, stage: Stage) {
    i < |s.open| && s.open[i].stage == stage
  }

  function Move(s: System, i: nat, stage: Stage): System
    requires i < |s.open|
  {
    s.(open := s.open[i := s.open[i].(stage := stage)])
  }

  predicate HoldsDelivery(t: Transaction) {
    t.stage.DeliveryWritten? || t.stage.Admitting? || t.stage.AdmissionWritten?
  }

  /** Another open transaction holds a key the delivery needs. */
  predicate DeliveryBlocked(s: System, i: nat, d: Delivery) {
    exists j :: 0 <= j < |s.open| && j != i && HoldsDelivery(s.open[j]) && Clash(s.open[j].delivery, d)
  }

  predicate AdmissionBlocked(s: System, i: nat, correlation: Id) {
    exists j :: 0 <= j < |s.open| && j != i && s.open[j].stage.AdmissionWritten? && s.open[j].delivery.correlation == correlation
  }

  /** A conflict is answered from the committed admission, when there is one. */
  function AfterConflict(s: System, correlation: Id, otherwise: Reason): Stage {
    if Admitted(s.ledger.admissions, correlation) then Done(AlreadyAdmitted) else Done(Refused(otherwise))
  }

  ghost function DoArm(s: System, attempt: Id, armedAt: Time, expiresAt: Time, maxTtl: Time, newId: Id): System {
    if newId in s.ledger.correlations then s
    else
      var existing := if exists id :: ArmedAs(s.ledger.correlations, attempt, id)
                      then Some(var id :| ArmedAs(s.ledger.correlations, attempt, id); id) else None;
      s.(ledger := Arm(s.ledger, attempt, armedAt, expiresAt, maxTtl, newId, existing).ledger)
  }

  function DoBind(s: System, i: nat): System {
    if !At(s, i, Opened) then s
    else
      var d := s.open[i].delivery;
      if d.correlation !in s.ledger.correlations then Move(s, i, Done(Refused(CorrelationNotFound)))
      else
        var error := BindingError(s.ledger.spine, s.ledger.correlations[d.correlation], d.receivedAt);
        Move(s, i, if error.Some? then Done(Refused(error.value)) else Bound)
  }

  function DoWriteDelivery(s: System, i: nat): System {
    if !At(s, i, Bound) then s
    else
      var d := s.open[i].delivery;
      if Recorded(s.ledger.deliveries, d) then Move(s, i, AfterConflict(s, d.correlation, DeliveryAlreadyRecorded))
      else if DeliveryBlocked(s, i, d) then s
      else Move(s, i, DeliveryWritten)
  }

  /** A second delivery of an admitted correlation is kept in the ledger and admits nothing. */
  function DoReadAdmission(s: System, i: nat): System {
    if !At(s, i, DeliveryWritten) then s
    else
      var d := s.open[i].delivery;
      if Admitted(s.ledger.admissions, d.correlation) then
        Move(s.(ledger := s.ledger.(deliveries := s.ledger.deliveries + [d])), i, Done(AlreadyAdmitted))
      else Move(s, i, Admitting)
  }

  function DoWriteAdmission(s: System, i: nat, sensorRejects: bool): System {
    if !At(s, i, Admitting) then s
    else
      var c := s.open[i].delivery.correlation;
      if Admitted(s.ledger.admissions, c) then Move(s, i, AfterConflict(s, c, AdmissionConflict))
      else if AdmissionBlocked(s, i, c) then s
      else Move(s, i, if sensorRejects then Done(Refused(AdmissionRejected)) else AdmissionWritten)
  }

  function DoCommit(s: System, i: nat): System {
    if !At(s, i, AdmissionWritten) then s
    else
      var d := s.open[i].delivery;
      Move(s.(ledger := s.ledger.(deliveries := s.ledger.deliveries + [d],
                                  admissions := s.ledger.admissions + [Admission(d.correlation, d)])),
           i, Done(CallbackAdmitted))
  }

  ghost function Apply(s: System, step: Step): System {
    match step
    case ArmAttempt(attempt, armedAt, expiresAt, maxTtl, newId) => DoArm(s, attempt, armedAt, expiresAt, maxTtl, newId)
    case Receive(delivery) => s.(open := s.open + [Transaction(delivery, Opened)])
    case Bind(i) => DoBind(s, i)
    case WriteDelivery(i) => DoWriteDelivery(s, i)
    case ReadAdmission(i) => DoReadAdmission(s, i)
    case WriteAdmission(i, sensorRejects) => DoWriteAdmission(s, i, sensorRejects)
    case Commit(i) => DoCommit(s, i)
    case Abort(i) => if i < |s.open| && !s.open[i].stage.Done? then Move(s, i, Done(Aborted)) else s
  }

  ghost function Run(s: System, steps: seq<Step>): System {
    if steps == [] then s else Apply(Run(s, steps[..|steps| - 1]), steps[|steps| - 1])
  }

  function Start(spine: Spine): System {
    System(Ledger(spine, map[], [], []), [])
  }

  // ------------------------------------------------------------------ invariants

  ghost predicate OneAdmissionEach(admissions: seq<Admission>) {
    forall j, k :: 0 <= j < k < |admissions| ==> admissions[j].correlation != admissions[k].correlation
  }

  ghost predicate NoneClash(deliveries: seq<Delivery>) {
    forall j, k :: 0 <= j < k < |deliveries| ==> !Clash(deliveries[j], deliveries[k])
  }

  predicate InWindow(ledger: Ledger, d: Delivery) {
    d.correlation in ledger.correlations
    && ledger.correlations[d.correlation].armedAt <= d.receivedAt < ledger.correlations[d.correlation].expiresAt
  }

  ghost predicate LedgerInv(ledger: Ledger) {
    && OneAdmissionEach(ledger.admissions) && NoneClash(ledger.deliveries)
    && (forall k :: 0 <= k < |ledger.deliveries| ==> Admitted(ledger.admissions, ledger.deliveries[k].correlation))
    && (forall k :: 0 <= k < |ledger.admissions| ==> AdmissionInv(ledger, ledger.admissions[k]))
  }

  /** An admission comes from a committed delivery of its own correlation, received inside the window. */
  predicate AdmissionInv(ledger: Ledger, a: Admission) {
    a.delivery.correlation == a.correlation && a.delivery in ledger.deliveries && InWindow(ledger, a.delivery)
  }

  /** A refusal as already recorded is due to a committed delivery of some other correlation. */
  ghost predicate ClashesElsewhere(deliveries: seq<Delivery>, d: Delivery) {
    exists k :: 0 <= k < |deliveries| && Clash(deliveries[k], d) && deliveries[k].correlation != d.correlation
  }

  ghost predicate TransactionInv(ledger: Ledger, t: Transaction) {
    && (t.stage.Bound? || HoldsDelivery(t) ==> InWindow(ledger, t.delivery))
    && (HoldsDelivery(t) ==> !Recorded(ledger.deliveries, t.delivery))
    && (t.stage.AdmissionWritten? ==> !Admitted(ledger.admissions, t.delivery.correlation))
    && (t.stage.Done? ==> ResultInv(ledger, t.delivery, t.stage.result))
  }

  ghost predicate ResultInv(ledger: Ledger, d: Delivery, result: Result) {
    match result
    case CallbackAdmitted => Admission(d.correlation, d) in ledger.admissions
    case AlreadyAdmitted => Admitted(ledger.admissions, d.correlation)
    case Refused(reason) =>
      && reason != AdmissionConflict
      && (reason == DeliveryAlreadyRecorded ==> ClashesElsewhere(ledger.deliveries, d))
    case Aborted => true
  }

  ghost predicate KeysExclude(open: seq<Transaction>) {
    forall i, j :: 0 <= i < j < |open| ==> PairExcludes(open[i], open[j])
  }

  predicate PairExcludes(t: Transaction, u: Transaction) {
    && (HoldsDelivery(t) && HoldsDelivery(u) ==> !Clash(t.delivery, u.delivery))
    && (t.stage.AdmissionWritten? && u.stage.AdmissionWritten? ==> t.delivery.correlation != u.delivery.correlation)
    && (t.stage == u.stage == Done(CallbackAdmitted) ==> t.delivery.correlation != u.delivery.correlation)
  }

  ghost predicate Inv(s: System) {
    && LedgerInv(s.ledger) && KeysExclude(s.open)
    && forall i :: 0 <= i < |s.open| ==> TransactionInv(s.ledger, s.open[i])
  }

  // ------------------------------------------------------------------ steps that leave the rows alone

  /** One transaction moves; what it holds does not grow unless it excludes everybody else. */
  lemma MoveKeepsInv(s: System, i: nat, stage: Stage)
    requires Inv(s) && i < |s.open| && TransactionInv(s.ledger, s.open[i].(stage := stage))
    requires forall j :: 0 <= j < |s.open| && j != i ==>
               PairExcludes(s.open[i].(stage := stage), s.open[j]) && PairExcludes(s.open[j], s.open[i].(stage := stage))
    ensures Inv(Move(s, i, stage))
  {
  }

  lemma SmallerMoveKeepsInv(s: System, i: nat, stage: Stage)
    requires Inv(s) && i < |s.open| && TransactionInv(s.ledger, s.open[i].(stage := stage))
    requires HoldsDelivery(s.open[i].(stage := stage)) ==> HoldsDelivery(s.open[i])
    requires !stage.AdmissionWritten? && stage != Done(CallbackAdmitted)
    ensures Inv(Move(s, i, stage))
  {
    var t := s.open[i].(stage := stage);
    forall j | 0 <= j < |s.open| && j != i ensures PairExcludes(t, s.open[j]) && PairExcludes(s.open[j], t) {
      assert PairExcludes(s.open[if i < j then i else j], s.open[if i < j then j else i]);
    }
    MoveKeepsInv(s, i, stage);
  }

  lemma BindKeepsInv(s: System, i: nat)
    requires Inv(s)
    ensures Inv(DoBind(s, i))
  {
    if At(s, i, Opened) {
      SmallerMoveKeepsInv(s, i, DoBind(s, i).open[i].stage);
    }
  }

  lemma WriteDeliveryKeepsInv(s: System, i: nat)
    requires Inv(s)
    ensures Inv(DoWriteDelivery(s, i))
  {
    if At(s, i, Bound) {
      var d := s.open[i].delivery;
      assert TransactionInv(s.ledger, s.open[i]);
      if Recorded(s.ledger.deliveries, d) {
        var k :| 0 <= k < |s.ledger.deliveries| && Clash(s.ledger.deliveries[k], d);
        SmallerMoveKeepsInv(s, i, AfterConflict(s, d.correlation, DeliveryAlreadyRecorded));
      } else if !DeliveryBlocked(s, i, d) {
        var t := s.open[i].(stage := DeliveryWritten);
        forall j | 0 <= j < |s.open| && j != i ensures PairExcludes(t, s.open[j]) && PairExcludes(s.open[j], t) {
          assert HoldsDelivery(s.open[j]) ==> !Clash(s.open[j].delivery, d);
        }
        MoveKeepsInv(s, i, DeliveryWritten);
      }
    }
  }

  lemma WriteAdmissionKeepsInv(s: System, i: nat, sensorRejects: bool)
    requires Inv(s)
    ensures Inv(DoWriteAdmission(s, i, sensorRejects))
  {
    if At(s, i, Admitting) {
      var c := s.open[i].delivery.correlation;
      assert TransactionInv(s.ledger, s.open[i]);
      if Admitted(s.ledger.admissions, c) {
        SmallerMoveKeepsInv(s, i, Done(AlreadyAdmitted));
      } else if !AdmissionBlocked(s, i, c) {
        if sensorRejects {
          SmallerMoveKeepsInv(s, i, Done(Refused(AdmissionRejected)));
        } else {
          var t := s.open[i].(stage := AdmissionWritten);
          forall j | 0 <= j < |s.open| && j != i ensures PairExcludes(t, s.open[j]) && PairExcludes(s.open[j], t) {
            assert PairExcludes(s.open[if i < j then i else j], s.open[if i < j then j else i]);
            assert s.open[j].stage.AdmissionWritten? ==> s.open[j].delivery.correlation != c;
          }
          MoveKeepsInv(s, i, AdmissionWritten);
        }
      }
    }
  }

  // ------------------------------------------------------------------ steps that commit rows

  lemma AdmittedLater(admissions: seq<Admission>, longer: seq<Admission>, c: Id)
    requires admissions <= longer && Admitted(admissions, c)
    ensures Admitted(longer, c)
  {
    var k :| 0 <= k < |admissions| && admissions[k].correlation == c;
    assert longer[k].correlation == c;
  }

  lemma ClashesElsewhereLater(deliveries: seq<Delivery>, longer: seq<Delivery>, d: Delivery)
    requires deliveries <= longer && ClashesElsewhere(deliveries, d)
    ensures ClashesElsewhere(longer, d)
  {
    var k :| 0 <= k < |deliveries| && Clash(deliveries[k], d) && deliveries[k].correlation != d.correlation;
    assert longer[k] == deliveries[k];
  }

  /** The ledger after transaction `i` commits its delivery, and its admission if it wrote one. */
  function Committed(ledger: Ledger, t: Transaction): Ledger {
    ledger.(deliveries := ledger.deliveries + [t.delivery],
            admissions := if t.stage.AdmissionWritten? then ledger.admissions + [Admission(t.delivery.correlation, t.delivery)]
                          else ledger.admissions)
  }

  lemma CommitKeepsLedger(ledger: Ledger, t: Transaction)
    requires LedgerInv(ledger) && TransactionInv(ledger, t) && HoldsDelivery(t)
    requires t.stage.AdmissionWritten? || Admitted(ledger.admissions, t.delivery.correlation)
    ensures LedgerInv(Committed(ledger, t))
  {
    var ledger' := Committed(ledger, t);
    forall k | 0 <= k < |ledger'.deliveries| ensures Admitted(ledger'.admissions, ledger'.deliveries[k].correlation) {
      if k < |ledger.deliveries| {
        AdmittedLater(ledger.admissions, ledger'.admissions, ledger.deliveries[k].correlation);
      } else if t.stage.AdmissionWritten? {
        assert ledger'.admissions[|ledger.admissions|].correlation == t.delivery.correlation;
      }
    }
    forall k | 0 <= k < |ledger'.admissions| ensures AdmissionInv(ledger', ledger'.admissions[k]) {
      if k < |ledger.admissions| {
        assert AdmissionInv(ledger, ledger.admissions[k]);
      }
    }
    forall j, k | 0 <= j < k < |ledger'.deliveries| ensures !Clash(ledger'.deliveries[j], ledger'.deliveries[k]) {
      if k == |ledger.deliveries| {
        assert !Recorded(ledger.deliveries, t.delivery);
      }
    }
  }

  /** Everybody else's standing survives the commit of transaction `t`. */
  lemma CommitKeepsOther(ledger: Ledger, t: Transaction, u: Transaction)
    requires TransactionInv(ledger, t) && HoldsDelivery(t) && TransactionInv(ledger, u)
    requires PairExcludes(t, u)
    ensures TransactionInv(Committed(ledger, t), u)
  {
    var ledger' := Committed(ledger, t);
    if u.stage.Done? {
      match u.stage.result
      case AlreadyAdmitted => AdmittedLater(ledger.admissions, ledger'.admissions, u.delivery.correlation);
      case Refused(reason) =>
        if reason == DeliveryAlreadyRecorded {
          ClashesElsewhereLater(ledger.deliveries, ledger'.deliveries, u.delivery);
        }
      case _ =>
    } else if HoldsDelivery(u) {
      forall k | 0 <= k < |ledger'.deliveries| ensures !Clash(ledger'.deliveries[k], u.delivery) {
        if k < |ledger.deliveries| {
          assert !Recorded(ledger.deliveries, u.delivery);
        }
      }
      NotAdmittedByOther(ledger, t, u);
    }
  }

  lemma NotAdmittedByOther(ledger: Ledger, t: Transaction, u: Transaction)
    requires TransactionInv(ledger, u) && PairExcludes(t, u)
    ensures u.stage.AdmissionWritten? ==> !Admitted(Committed(ledger, t).admissions, u.delivery.correlation)
  {
    var admissions' := Committed(ledger, t).admissions;
    if u.stage.AdmissionWritten? {
      forall k | 0 <= k < |admissions'| ensures admissions'[k].correlation != u.delivery.correlation {
        if k < |ledger.admissions| {
          assert admissions'[k] == ledger.admissions[k];
        }
      }
    }
  }

  lemma CommittingKeepsInv(s: System, i: nat, s': System, result: Result)
    requires Inv(s) && i < |s.open| && HoldsDelivery(s.open[i])
    requires s' == Move(s.(ledger := Committed(s.ledger, s.open[i])), i, Done(result))
    requires if result.CallbackAdmitted? then s.open[i].stage.AdmissionWritten?
             else result.AlreadyAdmitted? && Admitted(s.ledger.admissions, s.open[i].delivery.correlation)
    ensures Inv(s')
  {
    var t := s.open[i];
    CommitKeepsLedger(s.ledger, t);
    forall j | 0 <= j < |s'.open| ensures TransactionInv(s'.ledger, s'.open[j]) {
      if j != i {
        assert PairExcludes(s.open[if i < j then i else j], s.open[if i < j then j else i]);
        CommitKeepsOther(s.ledger, t, s.open[j]);
      } else if result.AlreadyAdmitted? {
        AdmittedLater(s.ledger.admissions, s'.ledger.admissions, t.delivery.correlation);
      }
    }
    forall j, k | 0 <= j < k < |s'.open| ensures PairExcludes(s'.open[j], s'.open[k]) {
      assert PairExcludes(s.open[j], s.open[k]);
      assert TransactionInv(s.ledger, s.open[j]) && TransactionInv(s.ledger, s.open[k]);
    }
  }

  lemma ArmKeepsInv(s: System, attempt: Id, armedAt: Time, expiresAt: Time, maxTtl: Time, newId: Id)
    requires Inv(s)
    ensures Inv(DoArm(s, attempt, armedAt, expiresAt, maxTtl, newId))
  {
    var s' := DoArm(s, attempt, armedAt, expiresAt, maxTtl, newId);
    if s' != s {
      assert forall id :: id in s.ledger.correlations ==>
        id in s'.ledger.correlations && s'.ledger.correlations[id] == s.ledger.correlations[id];
      forall k | 0 <= k < |s'.ledger.admissions| ensures AdmissionInv(s'.ledger, s'.ledger.admissions[k]) {
        assert AdmissionInv(s.ledger, s.ledger.admissions[k]);
      }
      forall j | 0 <= j < |s'.open| ensures TransactionInv(s'.ledger, s'.open[j]) {
        assert TransactionInv(s.ledger, s.open[j]);
      }
    }
  }

  lemma StepKeepsInv(s: System, step: Step)
    requires Inv(s)
    ensures Inv(Apply(s, step))
  {
    match step
    case ArmAttempt(attempt, armedAt, expiresAt, maxTtl, newId) => ArmKeepsInv(s, attempt, armedAt, expiresAt, maxTtl, newId);
    case Receive(delivery) =>
    case Bind(i) => BindKeepsInv(s, i);
    case WriteDelivery(i) => WriteDeliveryKeepsInv(s, i);
    case ReadAdmission(i) =>
      if At(s, i, DeliveryWritten) {
        if Admitted(s.ledger.admissions, s.open[i].delivery.correlation) {
          CommittingKeepsInv(s, i, DoReadAdmission(s, i), AlreadyAdmitted);
        } else {
          SmallerMoveKeepsInv(s, i, Admitting);
        }
      }
    case WriteAdmission(i, sensorRejects) => WriteAdmissionKeepsInv(s, i, sensorRejects);
    case Commit(i) =>
      if At(s, i, AdmissionWritten) {
        CommittingKeepsInv(s, i, DoCommit(s, i), CallbackAdmitted);
      }
    case Abort(i) =>
      if i < |s.open| {
        SmallerMoveKeepsInv(s, i, Done(Aborted));
      }
  }

  // ------------------------------------------------------------------ main result

  lemma {:induction false} RunKeepsInv(spine: Spine, steps: seq<Step>)
    ensures Inv(Run(Start(spine), steps))
  {
    if steps != [] {
      RunKeepsInv(spine, steps[..|steps| - 1]);
      StepKeepsInv(Run(Start(spine), steps[..|steps| - 1]), steps[|steps| - 1]);
    }
  }

  /**
    In every interleaving of armings, deliveries and aborted transactions: each correlation has at most one admission,
    first admitted by a delivery received in [armedAt, expiresAt); and every committed delivery's correlation has one.
   */
  lemma {:induction false} OneAdmissionPerCorrelation(spine: Spine, steps: seq<Step>)
    ensures
      var ledger := Run(Start(spine), steps).ledger;
      && OneAdmissionEach(ledger.admissions)
      && (forall k :: 0 <= k < |ledger.admissions| ==> AdmissionInv(ledger, ledger.admissions[k]))
      && (forall k :: 0 <= k < |ledger.deliveries| ==> Admitted(ledger.admissions, ledger.deliveries[k].correlation))
  {
    RunKeepsInv(spine, steps);
  }

  /**
    What a caller is told is true of the ledger: admitted means its own delivery was, already admitted means somebody's
    was, an already recorded delivery clashes with another correlation's, and the admission conflict never occurs.
   */
  lemma {:induction false} AnswersAreTruthful(spine: Spine, steps: seq<Step>, i: nat)
    requires i < |Run(Start(spine), steps).open| && Run(Start(spine), steps).open[i].stage.Done?
    ensures
      var s := Run(Start(spine), steps);
      ResultInv(s.ledger, s.open[i].delivery, s.open[i].stage.result)
  {
    RunKeepsInv(spine, steps);
    assert TransactionInv(Run(Start(spine), steps).ledger, Run(Start(spine), steps).open[i]);
  }

  /** Of the transactions of one correlation, at most one is ever told that it admitted the callback. */
  lemma {:induction false} OnlyOneAdmits(spine: Spine, steps: seq<Step>, i: nat, j: nat)
    requires i < j < |Run(Start(spine), steps).open|
    requires
      var open := Run(Start(spine), steps).open;
      open[i].stage == open[j].stage == Done(CallbackAdmitted)
    ensures
      var open := Run(Start(spine), steps).open;
      open[i].delivery.correlation != open[j].delivery.correlation
  {
    RunKeepsInv(spine, steps);
    var s := Run(Start(spine), steps);
    assert PairExcludes(s.open[i], s.open[j]);
  }

  // ------------------------------------------------------------------ the use cases

  /** Arming, one call at a time. */
  class ArmOastCorrelation {
    var ledger: Ledger
    const maxTtl: Time

    constructor (ledger: Ledger, maxTtl: Time)
      requires maxTtl > 0.0
      ensures this.ledger == ledger && this.maxTtl == maxTtl
    {
      this.ledger := ledger;
      this.maxTtl := maxTtl;
    }

    method FindByAttempt(attempt: Id) returns (existing: Option<Id>)
      ensures existing.Some? ==> ArmedAs(ledger.correlations, attempt, existing.value)
      ensures existing.None? ==> forall id :: !ArmedAs(ledger.correlations, attempt, id)
    {
      var candidates := set id | id in ledger.correlations && ledger.correlations[id].attempt == attempt;
      if candidates == {} {
        assert forall id :: ArmedAs(ledger.correlations, attempt, id) ==> id in candidates;
        return None;
      }
      var id :| id in candidates;
      return Some(id);
    }

    /** Without an expiry the window is the longest allowed one. */
    method Execute(attempt: Id, armedAt: Time, expiresAt: Option<Time>, newId: Id) returns (outcome: ArmOutcome)
      requires newId !in ledger.correlations
      modifies this
      ensures exists existing: Option<Id> ::
                && (existing.Some? ==> ArmedAs(old(ledger).correlations, attempt, existing.value))
                && (existing.None? ==> forall id :: !ArmedAs(old(ledger).correlations, attempt, id))
                && ArmResult(ledger, outcome)
                   == Arm(old(ledger), attempt, armedAt,
                          if expiresAt.Some? then expiresAt.value else armedAt + maxTtl, maxTtl, newId, existing)
    {
      ghost var before := ledger;
      var expiry := if expiresAt.Some? then expiresAt.value else armedAt + maxTtl;
      var existing := FindByAttempt(attempt);
      if expiry <= armedAt || expiry - armedAt > maxTtl {
        outcome := ArmFailed(WindowOutOfBounds);
      } else {
        var error := SpineError(ledger.spine, attempt);
        if error.Some? {
          outcome := ArmFailed(error.value);
        } else if existing.Some? {
          outcome := Armed(existing.value, ledger.correlations[existing.value], true);
        } else {
          var correlation := NewCorrelation(ledger.spine, attempt, armedAt, expiry);
          ledger := ledger.(correlations := ledger.correlations[newId := correlation]);
          outcome := Armed(newId, correlation, false);
        }
      }
      assert ArmResult(ledger, outcome) == Arm(before, attempt, armedAt, expiry, maxTtl, newId, existing);
    }
  }

  /** The steps of one delivery's transaction, in program order. */
  function InOrder(d: Delivery, sensorRejects: bool): seq<Step> {
    [Receive(d), Bind(0), WriteDelivery(0), ReadAdmission(0), WriteAdmission(0, sensorRejects), Commit(0)]
  }

  /** A transaction running alone, after its first `n` steps. */
  ghost function Alone(ledger: Ledger, d: Delivery, sensorRejects: bool, n: nat): System
    requires n <= 6
  {
    Run(System(ledger, []), InOrder(d, sensorRejects)[..n])
  }

  lemma AloneNext(ledger: Ledger, d: Delivery, sensorRejects: bool, n: nat)
    requires n < 6
    ensures Alone(ledger, d, sensorRejects, n + 1) == Apply(Alone(ledger, d, sensorRejects, n), InOrder(d, sensorRejects)[n])
  {
    assert InOrder(d, sensorRejects)[..n + 1][..n] == InOrder(d, sensorRejects)[..n];
  }

  /** A finished transaction is not touched by the rest of its own steps. */
  lemma {:induction false} DoneStays(ledger: Ledger, d: Delivery, sensorRejects: bool, n: nat)
    requires 1 <= n <= 6
    requires |Alone(ledger, d, sensorRejects, n).open| == 1 && Alone(ledger, d, sensorRejects, n).open[0].stage.Done?
    ensures Alone(ledger, d, sensorRejects, 6) == Alone(ledger, d, sensorRejects, n)
    decreases 6 - n
  {
    if n < 6 {
      AloneNext(ledger, d, sensorRejects, n);
      DoneStays(ledger, d, sensorRejects, n + 1);
    }
  }

  datatype Executed = Executed(ledger: Ledger, result: Result)

  function ExecuteBound(ledger: Ledger, d: Delivery, sensorRejects: bool): Executed {
    if Recorded(ledger.deliveries, d) then
      Executed(ledger, if Admitted(ledger.admissions, d.correlation) then AlreadyAdmitted else Refused(DeliveryAlreadyRecorded))
    else if Admitted(ledger.admissions, d.correlation) then
      Executed(ledger.(deliveries := ledger.deliveries + [d]), AlreadyAdmitted)
    else if sensorRejects then Executed(ledger, Refused(AdmissionRejected))
    else
      Executed(ledger.(deliveries := ledger.deliveries + [d], admissions := ledger.admissions + [Admission(d.correlation, d)]),
               CallbackAdmitted)
  }

  function Execute(ledger: Ledger, d: Delivery, sensorRejects: bool): Executed {
    if d.correlation !in ledger.correlations then Executed(ledger, Refused(CorrelationNotFound))
    else
      var error := BindingError(ledger.spine, ledger.correlations[d.correlation], d.receivedAt);
      if error.Some? then Executed(ledger, Refused(error.value)) else ExecuteBound(ledger, d, sensorRejects)
  }

  function Lone(ledger: Ledger, d: Delivery, stage: Stage): System {
    System(ledger, [Transaction(d, stage)])
  }

  lemma AloneBinds(ledger: Ledger, d: Delivery, sensorRejects: bool)
    ensures Alone(ledger, d, sensorRejects, 2) == DoBind(Lone(ledger, d, Opened), 0)
  {
    assert Alone(ledger, d, sensorRejects, 0) == System(ledger, []);
    AloneNext(ledger, d, sensorRejects, 0);
    AloneNext(ledger, d, sensorRejects, 1);
    assert [] + [Transaction(d, Opened)] == [Transaction(d, Opened)];
  }

  lemma AloneFromBound(ledger: Ledger, d: Delivery, sensorRejects: bool, executed: Executed)
    requires Alone(ledger, d, sensorRejects, 2) == Lone(ledger, d, Bound)
    requires executed == ExecuteBound(ledger, d, sensorRejects)
    ensures Alone(ledger, d, sensorRejects, 6) == Lone(executed.ledger, d, Done(executed.result))
  {
    AloneNext(ledger, d, sensorRejects, 2);
    if Recorded(ledger.deliveries, d) {
      DoneStays(ledger, d, sensorRejects, 3);
    } else {
      assert Alone(ledger, d, sensorRejects, 3) == Lone(ledger, d, DeliveryWritten);
      AloneFromWritten(ledger, d, sensorRejects, executed);
    }
  }

  lemma AloneFromWritten(ledger: Ledger, d: Delivery, sensorRejects: bool, executed: Executed)
    requires Alone(ledger, d, sensorRejects, 3) == Lone(ledger, d, DeliveryWritten) && !Recorded(ledger.deliveries, d)
    requires executed == ExecuteBound(ledger, d, sensorRejects)
    ensures Alone(ledger, d, sensorRejects, 6) == Lone(executed.ledger, d, Done(executed.result))
  {
    AloneNext(ledger, d, sensorRejects, 3);
    if Admitted(ledger.admissions, d.correlation) {
      DoneStays(ledger, d, sensorRejects, 4);
    } else {
      assert Alone(ledger, d, sensorRejects, 4) == Lone(ledger, d, Admitting);
      AloneNext(ledger, d, sensorRejects, 4);
      if sensorRejects {
        DoneStays(ledger, d, sensorRejects, 5);
      } else {
        assert Alone(ledger, d, sensorRejects, 5) == Lone(ledger, d, AdmissionWritten);
        AloneNext(ledger, d, sensorRejects, 5);
      }
    }
  }

  /** The method's straight-line code is the system's transaction run without interruption. */
  lemma ExecuteRunsAlone(ledger: Ledger, d: Delivery, sensorRejects: bool, executed: Executed)
    requires executed == Execute(ledger, d, sensorRejects)
    ensures Alone(ledger, d, sensorRejects, 6) == Lone(executed.ledger, d, Done(executed.result))
  {
    AloneBinds(ledger, d, sensorRejects);
    var bound := Alone(ledger, d, sensorRejects, 2);
    if bound.open[0].stage.Done? {
      DoneStays(ledger, d, sensorRejects, 2);
    } else {
      AloneFromBound(ledger, d, sensorRejects, executed);
    }
  }

  // ------------------------------------------------------------------ what one delivery is told

  predicate BoundFor(ledger: Ledger, d: Delivery) {
    d.correlation in ledger.correlations
    && BindingError(ledger.spine, ledger.correlations[d.correlation], d.receivedAt).None?
  }

  /** What one delivery with nobody in between is told, and what it leaves in the ledger. */
  predicate Told(ledger: Ledger, d: Delivery, sensorRejects: bool, after: Ledger, result: Result) {
    var bound, recorded := BoundFor(ledger, d), Recorded(ledger.deliveries, d);
    var admitted := Admitted(ledger.admissions, d.correlation);
    && (result.CallbackAdmitted? <==> bound && !recorded && !admitted && !sensorRejects)
    && (result == Refused(AdmissionRejected) <==> bound && !recorded && !admitted && sensorRejects)
    && (result.AlreadyAdmitted? <==> bound && admitted)
    && (result == Refused(DeliveryAlreadyRecorded) <==> bound && recorded && !admitted)
    && (result == Refused(CorrelationNotFound) <==> d.correlation !in ledger.correlations)
    && !result.Aborted?
    && after.spine == ledger.spine && after.correlations == ledger.correlations
    && (after.deliveries == ledger.deliveries + if bound && !recorded && !(sensorRejects && !admitted) then [d] else [])
    && (after.admissions == ledger.admissions + if result.CallbackAdmitted? then [Admission(d.correlation, d)] else [])
  }

  /** The transaction of one delivery running alone. */
  lemma {:induction false} LoneDeliveryIsTold(ledger: Ledger, d: Delivery, sensorRejects: bool)
    ensures
      var alone := Alone(ledger, d, sensorRejects, 6);
      && |alone.open| == 1 && alone.open[0].delivery == d && alone.open[0].stage.Done?
      && Told(ledger, d, sensorRejects, alone.ledger, alone.open[0].stage.result)
  {
    var executed := Execute(ledger, d, sensorRejects);
    ExecuteRunsAlone(ledger, d, sensorRejects, executed);
  }

  /** Admission of deliveries, one call at a time. */
  class AdmitOastCallback {
    var ledger: Ledger

    constructor (ledger: Ledger)
      ensures this.ledger == ledger
    {
      this.ledger := ledger;
    }

    method ExecuteDelivery(d: Delivery, sensorRejects: bool) returns (result: Result)
      modifies this
      ensures Executed(ledger, result) == Execute(old(ledger), d, sensorRejects)
      ensures Lone(ledger, d, Done(result)) == Alone(old(ledger), d, sensorRejects, 6)
      ensures Told(old(ledger), d, sensorRejects, ledger, result)
    {
      LoneDeliveryIsTold(ledger, d, sensorRejects);
      ExecuteRunsAlone(ledger, d, sensorRejects, Execute(ledger, d, sensorRejects));
      if d.correlation !in ledger.correlations {
        return Refused(CorrelationNotFound);
      }
      var error := BindingError(ledger.spine, ledger.correlations[d.correlation], d.receivedAt);
      if error.Some? {
        return Refused(error.value);
      }
      if Recorded(ledger.deliveries, d) {
        return if Admitted(ledger.admissions, d.correlation) then AlreadyAdmitted else Refused(DeliveryAlreadyRecorded);
      }
      if Admitted(ledger.admissions, d.correlation) {
        ledger := ledger.(deliveries := ledger.deliveries + [d]);
        return AlreadyAdmitted;
      }
      if sensorRejects {
        return Refused(AdmissionRejected);
      }
      ledger := ledger.(deliveries := ledger.deliveries + [d],
      admissions := ledger.admissions + [Admission(d.correlation, d)]);
      return CallbackAdmitted;
    }
  }
}
