/** Transition A: a completed WorkerResult becomes result, observation and audit rows in one transaction. */
module Ingestion {
  import opened Wrappers
  import opened Ledger
  import opened Store

  datatype IngestOutcome =
    | Ingested(ids: set<ObservationId>)
    | NoObservation
    | AlreadyIngested(ids: set<ObservationId>)
    | RejectedInvalidInvocation
      /** A unique conflict that is not an idempotent replay: the transaction is rolled back. */
    | Raised

  /** The trusted request document, the untrusted result's status and the drafts its normalizer produced. */
  datatype Delivery = Delivery(
    request: RequestId,
    experiment: ExperimentId,
    budget: BudgetId,
    status: ResultStatus,
    drafts: seq<ObservationKey>,
    /** Contract validation, correlation match, normalizer lookup and normalization all passed. */
    wellFormed: bool)

  datatype IngestResult = IngestResult(db: Db, outcome: IngestOutcome)

  type Observations = map<ObservationId, RequestId>
  type Audits = map<AuditId, AuditEvent>

  // ------------------------------------------------------------------ row by row

  function DraftIds(request: RequestId, drafts: seq<ObservationKey>): set<ObservationId>
  {
    if drafts == [] then {}
    else DraftIds(request, drafts[..|drafts| - 1]) + {ObservationOf(request, drafts[|drafts| - 1])}
  }

  /** The observation table after the drafts' rows, or nothing when an identifier is taken on the way. */
  function InsertObservations(table: Observations, request: RequestId, drafts: seq<ObservationKey>): Option<Observations>
  {
    if drafts == [] then Some(table)
    else
      var rest := InsertObservations(table, request, drafts[..|drafts| - 1]);
      var id := ObservationOf(request, drafts[|drafts| - 1]);
      if rest.None? || id in rest.value then None else Some(rest.value[id := request])
  }

  function InsertObservationAudits(table: Audits, request: RequestId, drafts: seq<ObservationKey>): Option<Audits>
  {
    if drafts == [] then Some(table)
    else
      var rest := InsertObservationAudits(table, request, drafts[..|drafts| - 1]);
      var last := drafts[|drafts| - 1];
      var id := ObservationAudit(request, last);
      if rest.None? || id in rest.value then None
      else Some(rest.value[id := ObservationAdmitted(ObservationOf(request, last))])
  }

  function InsertAudits(table: Audits, request: RequestId, drafts: seq<ObservationKey>): Option<Audits>
  {
    if ResultAudit(request) in table then None
    else InsertObservationAudits(table[ResultAudit(request) := ResultIngested(|drafts|)], request, drafts)
  }

  predicate ExperimentMatches(db: Db, delivery: Delivery) {
    delivery.experiment in db.experiments && db.experiments[delivery.experiment].budget == delivery.budget
  }

  function Ingest(db: Db, delivery: Delivery): IngestResult {
    var r := delivery.request;
    if !delivery.wellFormed then IngestResult(db, RejectedInvalidInvocation)
    else if r in db.results then IngestResult(db, AlreadyIngested(ObservationsOf(db, r)))
    else if !ExperimentMatches(db, delivery) then IngestResult(db, RejectedInvalidInvocation)
    else
      var observations := InsertObservations(db.observations, r, delivery.drafts);
      var audits := InsertAudits(db.audits, r, delivery.drafts);
      if observations.None? || audits.None? then IngestResult(db, Raised)
      else
        var ids := DraftIds(r, delivery.drafts);
        IngestResult(
          db.(results := db.results[r := WorkerResult(delivery.experiment, delivery.status)],
              observations := observations.value,
              audits := audits.value),
          if ids == {} then NoObservation else Ingested(ids))
  }

  /** What row-by-row insertion amounts to: all the drafts' rows, each of them new. */
  lemma {:induction false} InsertedObservations(
    table: Observations, request: RequestId, drafts: seq<ObservationKey>, after: Observations)
    requires InsertObservations(table, request, drafts) == Some(after)
    ensures forall o :: o in after <==> o in table || o in DraftIds(request, drafts)
    ensures forall o :: o in DraftIds(request, drafts) ==> o !in table && o.request == request && after[o] == request
    ensures forall o :: o in table ==> after[o] == table[o]
    ensures |DraftIds(request, drafts)| == |drafts|
  {
    if drafts != [] {
      var front, id := drafts[..|drafts| - 1], ObservationOf(request, drafts[|drafts| - 1]);
      var rest := InsertObservations(table, request, front).value;
      InsertedObservations(table, request, front, rest);
      assert id !in DraftIds(request, front);
      assert DraftIds(request, drafts) == DraftIds(request, front) + {id};
      assert after == rest[id := request];
    }
  }

  lemma {:induction false} InsertedObservationAudits(
    table: Audits, request: RequestId, drafts: seq<ObservationKey>, after: Audits)
    requires InsertObservationAudits(table, request, drafts) == Some(after)
    ensures forall a :: a in table ==> a in after && after[a] == table[a]
    ensures forall o :: o in DraftIds(request, drafts) ==>
                          var a := ObservationAudit(request, o.key);
                          o.request == request && a in after && after[a] == ObservationAdmitted(o)
    ensures forall a :: a in after && a !in table ==>
                          a.ObservationAudit? && a.request == request
                          && ObservationOf(request, a.key) in DraftIds(request, drafts)
  {
    if drafts != [] {
      var front, last := drafts[..|drafts| - 1], drafts[|drafts| - 1];
      var rest := InsertObservationAudits(table, request, front).value;
      InsertedObservationAudits(table, request, front, rest);
      assert DraftIds(request, drafts) == DraftIds(request, front) + {ObservationOf(request, last)};
    }
  }

  // ------------------------------------------------------------------ provenance

  ghost predicate ObservationsHaveResults(db: Db) {
    forall o :: o in db.observations ==> db.observations[o] == o.request && o.request in db.results
  }

  ghost predicate ResultsAreAudited(db: Db) {
    && (forall r :: r in db.results <==> ResultAudit(r) in db.audits)
    && (forall r :: r in db.results ==> db.audits[ResultAudit(r)] == ResultIngested(|ObservationsOf(db, r)|))
  }

  ghost predicate ObservationsAreAudited(db: Db) {
    && (forall o :: o in db.observations <==> ObservationAudit(o.request, o.key) in db.audits)
    && (forall o :: o in db.observations ==> db.audits[ObservationAudit(o.request, o.key)] == ObservationAdmitted(o))
  }

  /** Observations, results and ingestion audits agree row by row. */
  ghost predicate Provenance(db: Db) {
    ObservationsHaveResults(db) && ResultsAreAudited(db) && ObservationsAreAudited(db)
  }

  /** The tables after a first ingestion, row by row. */
  lemma FreshIngestion(db: Db, delivery: Delivery, db': Db)
    requires Provenance(db) && db' == Ingest(db, delivery).db && db' != db
    ensures ObservationsHaveResults(db')
    ensures db'.results.Keys == db.results.Keys + {delivery.request} && delivery.request !in db.results
    ensures ObservationsOf(db', delivery.request) == DraftIds(delivery.request, delivery.drafts)
    ensures |ObservationsOf(db', delivery.request)| == |delivery.drafts|
  {
    InsertedObservations(db.observations, delivery.request, delivery.drafts, db'.observations);
    forall o
      ensures o in ObservationsOf(db', delivery.request) <==> o in DraftIds(delivery.request, delivery.drafts)
    {
      assert o in db.observations ==> o.request in db.results;
    }
  }

  lemma OtherObservationsStay(db: Db, delivery: Delivery, db': Db, other: RequestId)
    requires db' == Ingest(db, delivery).db && db' != db && other != delivery.request
    ensures ObservationsOf(db', other) == ObservationsOf(db, other)
  {
    InsertedObservations(db.observations, delivery.request, delivery.drafts, db'.observations);
  }

  lemma FreshIngestionIsAudited(db: Db, delivery: Delivery, db': Db)
    requires Provenance(db) && db' == Ingest(db, delivery).db && db' != db
    ensures ResultsAreAudited(db')
  {
    var r := delivery.request;
    FreshIngestion(db, delivery, db');
    var head := db.audits[ResultAudit(r) := ResultIngested(|delivery.drafts|)];
    InsertedObservationAudits(head, r, delivery.drafts, db'.audits);
    forall q
      ensures q in db'.results <==> ResultAudit(q) in db'.audits
      ensures q in db'.results ==> db'.audits[ResultAudit(q)] == ResultIngested(|ObservationsOf(db', q)|)
    {
      assert ResultAudit(q) in db'.audits <==> ResultAudit(q) in head;
      if q != r {
        OtherObservationsStay(db, delivery, db', q);
      }
    }
  }

  lemma FreshObservationsAreAudited(db: Db, delivery: Delivery, db': Db)
    requires Provenance(db) && db' == Ingest(db, delivery).db && db' != db
    ensures ObservationsAreAudited(db')
  {
    var r := delivery.request;
    InsertedObservations(db.observations, r, delivery.drafts, db'.observations);
    var head := db.audits[ResultAudit(r) := ResultIngested(|delivery.drafts|)];
    InsertedObservationAudits(head, r, delivery.drafts, db'.audits);
    forall o: ObservationId
      ensures o in db'.observations <==> ObservationAudit(o.request, o.key) in db'.audits
      ensures o in db'.observations ==> db'.audits[ObservationAudit(o.request, o.key)] == ObservationAdmitted(o)
    {
      assert ObservationOf(o.request, o.key) == o;
      assert ObservationAudit(o.request, o.key) in head <==> ObservationAudit(o.request, o.key) in db.audits;
    }
  }

  lemma IngestKeepsProvenance(db: Db, delivery: Delivery)
    requires Provenance(db)
    ensures Provenance(Ingest(db, delivery).db)
  {
    var db' := Ingest(db, delivery).db;
    if db' != db {
      FreshIngestion(db, delivery, db');
      FreshIngestionIsAudited(db, delivery, db');
      FreshObservationsAreAudited(db, delivery, db');
    }
  }

  function AuditsOf(ids: set<ObservationId>): set<AuditId> {
    set o | o in ids :: ObservationAudit(o.request, o.key)
  }

  /** Mapping an observation to its audit is injective, so the two sets have the same size. */
  lemma {:induction false} AuditsOfSize(ids: set<ObservationId>)
    ensures |AuditsOf(ids)| == |ids|
  {
    if ids != {} {
      var o :| o in ids;
      AuditsOfSize(ids - {o});
      assert AuditsOf(ids) == AuditsOf(ids - {o}) + {ObservationAudit(o.request, o.key)};
      assert ObservationAudit(o.request, o.key) !in AuditsOf(ids - {o});
    }
  }

  lemma IngestionAuditsAreThese(db: Db, request: RequestId)
    requires Provenance(db) && request in db.results
    ensures IngestionAuditsOf(db, request) == AuditsOf(ObservationsOf(db, request)) + {ResultAudit(request)}
  {
    var ids := ObservationsOf(db, request);
    forall a | a in IngestionAuditsOf(db, request) && a != ResultAudit(request)
      ensures a in AuditsOf(ids)
    {
      var o := ObservationOf(a.request, a.key);
      assert a == ObservationAudit(o.request, o.key);
      assert o in db.observations;
    }
  }

  /** Every ingested result carries one audit of its own and one per observation, and nothing else. */
  lemma IngestionAuditCount(db: Db, request: RequestId)
    requires Provenance(db) && request in db.results
    ensures |IngestionAuditsOf(db, request)| == 1 + |ObservationsOf(db, request)|
    ensures db.audits[ResultAudit(request)] == ResultIngested(|ObservationsOf(db, request)|)
  {
    IngestionAuditsAreThese(db, request);
    AuditsOfSize(ObservationsOf(db, request));
    assert ResultAudit(request) !in AuditsOf(ObservationsOf(db, request));
  }

  /** The observation identifiers a caller is told about. */
  function ReportedIds(outcome: IngestOutcome): set<ObservationId> {
    match outcome
    case Ingested(ids) => ids
    case AlreadyIngested(ids) => ids
    case _ => {}
  }

  predicate Accepted(outcome: IngestOutcome) {
    outcome.Ingested? || outcome.NoObservation? || outcome.AlreadyIngested?
  }

  /**
    Once a request is ingested, delivering it again, with any document whatsoever, changes no row;
    a well-formed replay reports the identifiers of the first delivery.
   */
  lemma ReplayedIngestionIsIdempotent(db: Db, first: Delivery, replay: Delivery)
    requires Provenance(db)
    requires replay.request == first.request
    requires Accepted(Ingest(db, first).outcome)
    ensures
      var after := Ingest(db, first);
      var again := Ingest(after.db, replay);
      && again.db == after.db
      && (replay.wellFormed ==>
            again.outcome.AlreadyIngested? && ReportedIds(again.outcome) == ReportedIds(after.outcome))
  {
    var r := first.request;
    var after := Ingest(db, first);
    if r !in db.results {
      FreshIngestion(db, first, after.db);
    }
  }

  // ------------------------------------------------------------------ a first delivery

  predicate NoRepeats(drafts: seq<ObservationKey>) {
    forall i, j :: 0 <= i < j < |drafts| ==> drafts[i] != drafts[j]
  }

  lemma {:induction false} DraftIdsAreTheDrafts(request: RequestId, drafts: seq<ObservationKey>)
    ensures forall o :: o in DraftIds(request, drafts) <==> o.request == request && o.key in drafts
  {
    if drafts != [] {
      var front, last := drafts[..|drafts| - 1], drafts[|drafts| - 1];
      DraftIdsAreTheDrafts(request, front);
      assert drafts == front + [last];
      assert forall o: ObservationId :: o == ObservationOf(request, last) <==> o.request == request && o.key == last;
    }
  }

  lemma DistinctStep(drafts: seq<ObservationKey>)
    requires drafts != []
    ensures NoRepeats(drafts) <==> NoRepeats(drafts[..|drafts| - 1]) && drafts[|drafts| - 1] !in drafts[..|drafts| - 1]
  {
    var n := |drafts| - 1;
    assert drafts[n] in drafts[..n] ==> exists i :: 0 <= i < n && drafts[i] == drafts[n];
    forall i | 0 <= i < n && NoRepeats(drafts) ensures drafts[..n][i] != drafts[n] {
      assert drafts[i] != drafts[n];
    }
    assert forall i :: 0 <= i < n ==> drafts[..n][i] == drafts[i];
  }

  /** Over tables with no row of the request, inserting the drafts' rows succeeds exactly when no draft repeats. */
  lemma {:induction false} DistinctDraftsInsert(table: Observations, request: RequestId, drafts: seq<ObservationKey>)
    requires forall o :: o in table ==> o.request != request
    ensures InsertObservations(table, request, drafts).Some? <==> NoRepeats(drafts)
  {
    if drafts != [] {
      var front := drafts[..|drafts| - 1];
      DistinctStep(drafts);
      DistinctDraftsInsert(table, request, front);
      if NoRepeats(front) {
        InsertedObservations(table, request, front, InsertObservations(table, request, front).value);
        DraftIdsAreTheDrafts(request, front);
      }
    }
  }

  lemma {:induction false} DistinctDraftsAudit(table: Audits, request: RequestId, drafts: seq<ObservationKey>)
    requires forall a :: a in table && a.ObservationAudit? ==> a.request != request
    ensures InsertObservationAudits(table, request, drafts).Some? <==> NoRepeats(drafts)
  {
    if drafts != [] {
      var front, last := drafts[..|drafts| - 1], drafts[|drafts| - 1];
      DistinctStep(drafts);
      DistinctDraftsAudit(table, request, front);
      if NoRepeats(front) {
        InsertedObservationAudits(table, request, front, InsertObservationAudits(table, request, front).value);
        DraftIdsAreTheDrafts(request, front);
        assert last in front <==> ObservationOf(request, last) in DraftIds(request, front);
        assert ObservationOf(request, last).key == last;
      }
    }
  }

  lemma FirstInsertions(db: Db, delivery: Delivery)
    requires Provenance(db) && delivery.request !in db.results
    ensures InsertObservations(db.observations, delivery.request, delivery.drafts).Some? <==> NoRepeats(delivery.drafts)
    ensures InsertAudits(db.audits, delivery.request, delivery.drafts).Some? <==> NoRepeats(delivery.drafts)
  {
    var r := delivery.request;
    forall o | o in db.observations ensures o.request != r {
      assert o.request in db.results;
    }
    DistinctDraftsInsert(db.observations, r, delivery.drafts);
    forall a | a in db.audits && a.ObservationAudit? ensures a.request != r {
      var o := ObservationOf(a.request, a.key);
      assert a == ObservationAudit(o.request, o.key);
      assert o in db.observations;
    }
    DistinctDraftsAudit(db.audits[ResultAudit(r) := ResultIngested(|delivery.drafts|)], r, delivery.drafts);
  }

  /**
    A first delivery is accepted if and only if it is well formed, carries the budget of its experiment and repeats no
    draft. A foreign budget or a missing experiment is rejected, a repeated draft raises, and neither writes a row.
   */
  lemma FirstIngestionExactly(db: Db, delivery: Delivery)
    requires Provenance(db) && delivery.request !in db.results
    ensures
      var outcome := Ingest(db, delivery).outcome;
      var own := delivery.experiment in db.experiments && db.experiments[delivery.experiment].budget == delivery.budget;
      && (outcome.RejectedInvalidInvocation? <==> !delivery.wellFormed || !own)
      && (outcome.Raised? <==> delivery.wellFormed && own && !NoRepeats(delivery.drafts))
      && (outcome.NoObservation? <==> delivery.wellFormed && own && delivery.drafts == [])
      && (outcome.Ingested? <==> delivery.wellFormed && own && NoRepeats(delivery.drafts) && delivery.drafts != [])
      && (!Accepted(outcome) ==> Ingest(db, delivery).db == db)
  {
    FirstInsertions(db, delivery);
    DraftIdsAreTheDrafts(delivery.request, delivery.drafts);
    if delivery.drafts != [] {
      assert ObservationOf(delivery.request, delivery.drafts[0]) in DraftIds(delivery.request, delivery.drafts);
    }
  }

  /** What an accepted first delivery leaves: its result, exactly its drafts' observations, and no other change but audits. */
  lemma FirstIngestionAdds(db: Db, delivery: Delivery)
    requires Provenance(db) && delivery.request !in db.results && Accepted(Ingest(db, delivery).outcome)
    ensures
      var after, r := Ingest(db, delivery), delivery.request;
      && after.db == db.(results := after.db.results, observations := after.db.observations, audits := after.db.audits)
      && after.db.results == db.results[r := WorkerResult(delivery.experiment, delivery.status)]
      && (forall o :: o in after.db.observations <==> o in db.observations || (o.request == r && o.key in delivery.drafts))
      && (forall o :: o in db.observations ==> after.db.observations[o] == db.observations[o])
      && (forall a :: a in db.audits ==> a in after.db.audits && after.db.audits[a] == db.audits[a])
      && ReportedIds(after.outcome) == ObservationsOf(after.db, r) && |ObservationsOf(after.db, r)| == |delivery.drafts|
  {
    var r, db' := delivery.request, Ingest(db, delivery).db;
    assert r in db'.results;
    InsertedObservations(db.observations, r, delivery.drafts, db'.observations);
    DraftIdsAreTheDrafts(r, delivery.drafts);
    FreshIngestion(db, delivery, db');
    InsertedObservationAudits(db.audits[ResultAudit(r) := ResultIngested(|delivery.drafts|)], r, delivery.drafts, db'.audits);
  }

  // ------------------------------------------------------------------ the use case

  /** The ingestion use case, writing its rows one at a time inside one unit of work. */
  class IngestCompletedWorkerInvocation {
    var db: Db

    constructor (db: Db)
      ensures this.db == db
    {
      this.db := db;
    }

    /** Inserts the observation rows in draft order; a taken identifier aborts. */
    method PersistObservations(request: RequestId, drafts: seq<ObservationKey>)
      returns (table: Option<Observations>, ids: set<ObservationId>)
      ensures table == InsertObservations(db.observations, request, drafts)
      ensures table.Some? ==> ids == DraftIds(request, drafts)
    {
      var rows := db.observations;
      ids := {};
      for i := 0 to |drafts|
        invariant InsertObservations(db.observations, request, drafts[..i]) == Some(rows)
        invariant ids == DraftIds(request, drafts[..i])
      {
        var id := ObservationOf(request, drafts[i]);
        assert drafts[..i + 1][..i] == drafts[..i];
        if id in rows {
          ObservationConflictAborts(db.observations, request, drafts, i + 1);
          return None, ids;
        }
        rows := rows[id := request];
        ids := ids + {id};
      }
      assert drafts[..|drafts|] == drafts;
      table := Some(rows);
    }

    /** Inserts the result audit, then one audit per observation; a taken identifier aborts. */
    method PersistAuditEvents(request: RequestId, drafts: seq<ObservationKey>) returns (table: Option<Audits>)
      ensures table == InsertAudits(db.audits, request, drafts)
    {
      if ResultAudit(request) in db.audits {
        return None;
      }
      var head := db.audits[ResultAudit(request) := ResultIngested(|drafts|)];
      var rows := head;
      for i := 0 to |drafts|
        invariant InsertObservationAudits(head, request, drafts[..i]) == Some(rows)
      {
        var id := ObservationAudit(request, drafts[i]);
        assert drafts[..i + 1][..i] == drafts[..i];
        if id in rows {
          AuditConflictAborts(head, request, drafts, i + 1);
          return None;
        }
        rows := rows[id := ObservationAdmitted(ObservationOf(request, drafts[i]))];
      }
      assert drafts[..|drafts|] == drafts;
      table := Some(rows);
    }

    method Execute(delivery: Delivery) returns (outcome: IngestOutcome)
      modifies this
      ensures IngestResult(db, outcome) == Ingest(old(db), delivery)
      ensures Provenance(old(db)) ==> Provenance(db)
    {
      ghost var before := db;
      if Provenance(before) {
        IngestKeepsProvenance(before, delivery);
      }
      if !delivery.wellFormed {
        return RejectedInvalidInvocation;
      }
      var r := delivery.request;
      if r in db.results {
        return AlreadyIngested(ObservationsOf(db, r));
      }
      if delivery.experiment !in db.experiments {
        return RejectedInvalidInvocation;
      }
      if db.experiments[delivery.experiment].budget != delivery.budget {
        return RejectedInvalidInvocation;
      }
      var observations, ids := PersistObservations(r, delivery.drafts);
      if observations.None? {
        return Raised;
      }
      var audits := PersistAuditEvents(r, delivery.drafts);
      if audits.None? {
        return Raised;
      }
      db := db.(results := db.results[r := WorkerResult(delivery.experiment, delivery.status)],
      observations := observations.value,
      audits := audits.value);
      return if ids == {} then NoObservation else Ingested(ids);
    }
  }

  lemma {:induction false} ObservationConflictAborts(table: Observations, request: RequestId, drafts: seq<ObservationKey>, n: nat)
    requires n <= |drafts|
    requires InsertObservations(table, request, drafts[..n]).None?
    ensures InsertObservations(table, request, drafts).None?
    decreases |drafts|
  {
    if n < |drafts| {
      assert drafts[..|drafts| - 1][..n] == drafts[..n];
      ObservationConflictAborts(table, request, drafts[..|drafts| - 1], n);
    } else {
      assert drafts[..n] == drafts;
    }
  }

  lemma {:induction false} AuditConflictAborts(table: Audits, request: RequestId, drafts: seq<ObservationKey>, n: nat)
    requires n <= |drafts|
    requires InsertObservationAudits(table, request, drafts[..n]).None?
    ensures InsertObservationAudits(table, request, drafts).None?
    decreases |drafts|
  {
    if n < |drafts| {
      assert drafts[..|drafts| - 1][..n] == drafts[..n];
      AuditConflictAborts(table, request, drafts[..|drafts| - 1], n);
    } else {
      assert drafts[..n] == drafts;
    }
  }
}
