/** Replay manifests and bundles: what two record stores that differ only in secrets publish about an experiment. */
module Replay {
  import opened Wrappers
  import opened Redaction

  // ------------------------------------------------------------------ secret keys

  const FRAGMENTS: seq<string> :=
    ["authorization", "bearer", "cookie", "credential", "csrf", "password", "secret", "session", "token"]

  function LowerChar(c: char): char {
    if 'A' <= c <= 'Z' then c + 32 as char else c
  }

  function Lower(s: string): (lowered: string)
    ensures |lowered| == |s|
  {
    seq(|s|, i requires 0 <= i < |s| => LowerChar(s[i]))
  }

  predicate FoundAt(s: string, fragment: string, i: nat) {
    i + |fragment| <= |s| && s[i..i + |fragment|] == fragment
  }

  predicate Contains(s: string, fragment: string) {
    exists i :: 0 <= i <= |s| && FoundAt(s, fragment, i)
  }

  predicate SensitiveKey(key: string) {
    exists k :: 0 <= k < |FRAGMENTS| && Contains(Lower(key), FRAGMENTS[k])
  }

  // ------------------------------------------------------------------ records

  /** Columns that are copied or compared as they are; `meta` stands for the ones nothing else looks at. */
  datatype Attempt = Attempt(request: nat, browser: bool, sideEffectLevel: nat, meta: string)

  datatype WorkerResult = WorkerResult(
    id: nat,
    request: nat,
    succeeded: bool,
    meta: string,
    raw: Option<Value>,
    diagnostics: Option<Value>,
    control: Option<Value>,
    artifacts: Option<Values>)

  datatype Observation = Observation(result: nat, meta: string, payload: Value)

  datatype Plan = Plan(meta: string, arguments: Value)

  /** Everything stored about one experiment, in the order the builders sort or list it. */
  datatype Records = Records(
    meta: string,
    plan: Option<Plan>,
    attempts: seq<Attempt>,
    results: seq<WorkerResult>,
    observations: seq<Observation>)

  // ------------------------------------------------------------------ documents

  datatype ResultDoc = ResultDoc(
    id: nat,
    succeeded: bool,
    meta: string,
    raw: Option<Doc>,
    diagnostics: Option<Doc>,
    control: Option<Doc>,
    artifacts: Option<Doc>,
    artifactCount: nat,
    redactions: nat)

  datatype ObservationDoc = ObservationDoc(meta: string, payload: Option<Doc>, redactions: nat)

  datatype AttemptDoc = AttemptDoc(attempt: Attempt, result: Option<ResultDoc>, observations: seq<ObservationDoc>)

  datatype ReplayClass = NotReplayable | HumanReviewRequired | EnvironmentSensitive | DeterministicReplay

  datatype ReasonCode =
    | WorkerResultMissing
    | NoExecutionAttempt
    | SideEffectRequiresApproval
    | WorkerResultNotSucceeded
    | BrowserStateSensitive
    | StatefulSideEffect
    | ManifestReady

  datatype Manifest = Manifest(meta: string, replayClass: ReplayClass, reasons: seq<ReasonCode>, attempts: seq<AttemptDoc>)

  function Length(items: Values): nat {
    if items.NoValue? then 0 else 1 + Length(items.tail)
  }

  function AsList(items: Option<Values>): Option<Value> {
    if items.None? then None else Some(Items(items.value, false))
  }

  function ResultDocument(result: WorkerResult, secret: KeyTest): ResultDoc {
    var raw := RedactedDigest(result.raw, secret);
    var diagnostics := RedactedDigest(result.diagnostics, secret);
    var control := RedactedDigest(result.control, secret);
    var artifacts := RedactedDigest(AsList(result.artifacts), secret);
    ResultDoc(
      result.id, result.succeeded, result.meta, raw.doc, diagnostics.doc, control.doc, artifacts.doc,
      if result.artifacts.None? then 0 else Length(result.artifacts.value),
      raw.count + diagnostics.count + control.count + artifacts.count)
  }

  function ObservationDocument(observation: Observation, secret: KeyTest): ObservationDoc {
    var digest := RedactedDigest(Some(observation.payload), secret);
    ObservationDoc(observation.meta, digest.doc, digest.count)
  }

  /** The result of a request: the last one listed under it. */
  function ResultOf(results: seq<WorkerResult>, request: nat): Option<WorkerResult> {
    if results == [] then None
    else if results[|results| - 1].request == request then Some(results[|results| - 1])
    else ResultOf(results[..|results| - 1], request)
  }

  /** Documents of the observations of one result, in listed order. */
  function ObservationDocuments(observations: seq<Observation>, result: nat, secret: KeyTest): seq<ObservationDoc> {
    if observations == [] then []
    else
      var front, last := observations[..|observations| - 1], observations[|observations| - 1];
      ObservationDocuments(front, result, secret)
      + if last.result == result then [ObservationDocument(last, secret)] else []
  }

  function AttemptDocument(records: Records, attempt: Attempt, secret: KeyTest): AttemptDoc {
    var result := ResultOf(records.results, attempt.request);
    if result.None? then AttemptDoc(attempt, None, [])
    else
      AttemptDoc(attempt, Some(ResultDocument(result.value, secret)),
                 ObservationDocuments(records.observations, result.value.id, secret))
  }

  function AttemptDocuments(records: Records, attempts: seq<Attempt>, secret: KeyTest): seq<AttemptDoc> {
    if attempts == [] then []
    else
      AttemptDocuments(records, attempts[..|attempts| - 1], secret)
      + [AttemptDocument(records, attempts[|attempts| - 1], secret)]
  }

  function MissingReasons(records: Records, attempts: seq<Attempt>): seq<ReasonCode> {
    if attempts == [] then []
    else
      MissingReasons(records, attempts[..|attempts| - 1])
      + if ResultOf(records.results, attempts[|attempts| - 1].request).None? then [WorkerResultMissing] else []
  }

  datatype Classified = Classified(replayClass: ReplayClass, reason: ReasonCode)

  function ClassifyReplay(records: Records): Classified {
    var attempts, results := records.attempts, records.results;
    if attempts == [] then Classified(NotReplayable, NoExecutionAttempt)
    else if exists i :: 0 <= i < |attempts| && attempts[i].sideEffectLevel > 1 then
      Classified(HumanReviewRequired, SideEffectRequiresApproval)
    else if exists i :: 0 <= i < |attempts| && ResultOf(results, attempts[i].request).None? then
      Classified(NotReplayable, WorkerResultMissing)
    else if exists i :: 0 <= i < |attempts| && !ResultOf(results, attempts[i].request).value.succeeded then
      Classified(EnvironmentSensitive, WorkerResultNotSucceeded)
    else if exists i :: 0 <= i < |attempts| && attempts[i].browser then
      Classified(EnvironmentSensitive, BrowserStateSensitive)
    else if exists i :: 0 <= i < |attempts| && attempts[i].sideEffectLevel > 0 then
      Classified(EnvironmentSensitive, StatefulSideEffect)
    else Classified(DeterministicReplay, ManifestReady)
  }

  /** First occurrences, in order. */
  function Unrepeated(reasons: seq<ReasonCode>): seq<ReasonCode> {
    if reasons == [] then []
    else
      var front, last := Unrepeated(reasons[..|reasons| - 1]), reasons[|reasons| - 1];
      if last in front then front else front + [last]
  }

  function BuildManifest(records: Records, secret: KeyTest): Manifest {
    var classified := ClassifyReplay(records);
    Manifest(
      records.meta, classified.replayClass,
      Unrepeated(
        MissingReasons(records, records.attempts) + [classified.reason]
        + if records.attempts == [] then [NoExecutionAttempt] else []),
      AttemptDocuments(records, records.attempts, secret))
  }

  // ------------------------------------------------------------------ the bundle

  datatype ArtifactKind = PublicKind(name: string) | OtherKind

  datatype ResponseDoc = ResponseDoc(
    id: nat, request: nat, succeeded: bool, raw: Option<Doc>, diagnostics: Option<Doc>, control: Option<Doc>)

  datatype ArtifactDoc = ArtifactDoc(result: nat, index: nat, kind: ArtifactKind, descriptor: Option<Doc>)

  datatype Template = PlanMissing | PlanBound(meta: string, arguments: Option<Doc>)

  datatype Counted<T> = Counted(docs: seq<T>, redactions: nat)

  datatype Bundle = Bundle(
    meta: string,
    manifest: Manifest,
    template: Template,
    responses: seq<ResponseDoc>,
    artifacts: seq<ArtifactDoc>,
    needsHumanReview: bool,
    templateRedactions: nat,
    responseRedactions: nat,
    artifactRedactions: nat)

  const PUBLIC_KINDS: set<string> := {"browser_trace", "har", "network_trace", "response", "screenshot", "trace"}

  const KIND_KEY: string := "kind"

  function PublicArtifactKind(descriptor: Value): ArtifactKind {
    if descriptor.Mapping? && Has(descriptor.entries, KIND_KEY) then NamedKind(Get(descriptor.entries, KIND_KEY)) else OtherKind
  }

  function NamedKind(kind: Value): ArtifactKind {
    match kind
    case Leaf(Text(name)) => if name in PUBLIC_KINDS then PublicKind(name) else OtherKind
    case _ => OtherKind
  }

  function ResponseDocuments(results: seq<WorkerResult>, secret: KeyTest): Counted<ResponseDoc> {
    if results == [] then Counted([], 0)
    else
      var front, last := ResponseDocuments(results[..|results| - 1], secret), results[|results| - 1];
      var raw, diagnostics, control :=
        RedactedDigest(last.raw, secret), RedactedDigest(last.diagnostics, secret), RedactedDigest(last.control, secret);
      Counted(front.docs + [ResponseDoc(last.id, last.request, last.succeeded, raw.doc, diagnostics.doc, control.doc)],
              front.redactions + raw.count + diagnostics.count + control.count)
  }

  /** Descriptor documents of one result, from position `index` on. */
  function DescriptorDocuments(result: nat, descriptors: Values, index: nat, secret: KeyTest): Counted<ArtifactDoc> {
    if descriptors.NoValue? then Counted([], 0)
    else
      var digest := RedactedDigest(Some(descriptors.head), secret);
      var rest := DescriptorDocuments(result, descriptors.tail, index + 1, secret);
      Counted([ArtifactDoc(result, index, PublicArtifactKind(descriptors.head), digest.doc)] + rest.docs,
              digest.count + rest.redactions)
  }

  function ArtifactDocuments(results: seq<WorkerResult>, secret: KeyTest): Counted<ArtifactDoc> {
    if results == [] then Counted([], 0)
    else
      var front, last := ArtifactDocuments(results[..|results| - 1], secret), results[|results| - 1];
      var own := if last.artifacts.None? then Counted([], 0) else DescriptorDocuments(last.id, last.artifacts.value, 0, secret);
      Counted(front.docs + own.docs, front.redactions + own.redactions)
  }

  function BuildBundle(records: Records, secret: KeyTest): Bundle {
    var manifest := BuildManifest(records, secret);
    var arguments := if records.plan.None? then Digest(None, 0) else RedactedDigest(Some(records.plan.value.arguments), secret);
    var responses, artifacts := ResponseDocuments(records.results, secret), ArtifactDocuments(records.results, secret);
    Bundle(
      records.meta, manifest,
      if records.plan.None? then PlanMissing else PlanBound(records.plan.value.meta, arguments.doc),
      responses.docs, artifacts.docs, manifest.replayClass.HumanReviewRequired?,
      arguments.count, responses.redactions, artifacts.redactions)
  }

  // ------------------------------------------------------------------ agreement of stores outside secrets

  predicate DescriptorsOk(descriptors: Values) {
    descriptors.More? ==> descriptors.head.Mapping? && DescriptorsOk(descriptors.tail)
  }

  predicate ResultOk(result: WorkerResult) {
    && OptionWellFormed(result.raw) && OptionWellFormed(result.diagnostics) && OptionWellFormed(result.control)
    && (result.artifacts.Some? ==> ValuesWellFormed(result.artifacts.value) && DescriptorsOk(result.artifacts.value))
  }

  predicate RecordsOk(records: Records) {
    && (records.plan.Some? ==> WellFormed(records.plan.value.arguments))
    && (forall i :: 0 <= i < |records.results| ==> ResultOk(records.results[i]))
    && (forall i :: 0 <= i < |records.observations| ==> WellFormed(records.observations[i].payload))
  }

  predicate SamePublic(r: WorkerResult, s: WorkerResult) {
    r.id == s.id && r.request == s.request && r.succeeded == s.succeeded && r.meta == s.meta
  }

  predicate LowEqualResults(r: WorkerResult, s: WorkerResult, secret: KeyTest) {
    && SamePublic(r, s)
    && LowEqualOption(r.raw, s.raw, secret) && LowEqualOption(r.diagnostics, s.diagnostics, secret)
    && LowEqualOption(r.control, s.control, secret) && LowEqualOption(AsList(r.artifacts), AsList(s.artifacts), secret)
  }

  predicate LowEqualObservations(o: Observation, p: Observation, secret: KeyTest) {
    o.result == p.result && o.meta == p.meta && LowEqual(o.payload, p.payload, secret)
  }

  predicate LowEqualPlans(p: Option<Plan>, q: Option<Plan>, secret: KeyTest) {
    p.Some? == q.Some? && (p.Some? ==> p.value.meta == q.value.meta && LowEqual(p.value.arguments, q.value.arguments, secret))
  }

  predicate LowEqualRecords(r: Records, s: Records, secret: KeyTest) {
    && r.meta == s.meta && r.attempts == s.attempts && LowEqualPlans(r.plan, s.plan, secret)
    && |r.results| == |s.results| && |r.observations| == |s.observations|
    && (forall i :: 0 <= i < |r.results| ==> LowEqualResults(r.results[i], s.results[i], secret))
    && (forall i :: 0 <= i < |r.observations| ==> LowEqualObservations(r.observations[i], s.observations[i], secret))
  }

  // ------------------------------------------------------------------ one record

  lemma {:induction false} LowEqualLength(v: Values, w: Values, secret: KeyTest)
    requires LowEqualValues(v, w, secret)
    ensures Length(v) == Length(w)
  {
    if v.More? {
      LowEqualLength(v.tail, w.tail, secret);
    }
  }

  /** The documents of two results are equal exactly when the results agree outside secrets. */
  lemma ResultDocumentsEqualExactly(r: WorkerResult, s: WorkerResult, secret: KeyTest)
    requires ResultOk(r) && ResultOk(s) && SamePublic(r, s)
    ensures ResultDocument(r, secret) == ResultDocument(s, secret) <==> LowEqualResults(r, s, secret)
  {
    DigestsEqualExactlyOutsideSecrets(r.raw, s.raw, secret);
    DigestsEqualExactlyOutsideSecrets(r.diagnostics, s.diagnostics, secret);
    DigestsEqualExactlyOutsideSecrets(r.control, s.control, secret);
    DigestsEqualExactlyOutsideSecrets(AsList(r.artifacts), AsList(s.artifacts), secret);
    if LowEqualResults(r, s, secret) && r.artifacts.Some? {
      LowEqualLength(r.artifacts.value, s.artifacts.value, secret);
    }
  }

  lemma ObservationDocumentsEqual(o: Observation, p: Observation, secret: KeyTest)
    requires WellFormed(o.payload) && WellFormed(p.payload) && LowEqualObservations(o, p, secret)
    ensures ObservationDocument(o, secret) == ObservationDocument(p, secret)
  {
    DigestsEqualExactlyOutsideSecrets(Some(o.payload), Some(p.payload), secret);
  }

  // ------------------------------------------------------------------ the manifest

  ghost predicate AllLowEqual(r: seq<WorkerResult>, s: seq<WorkerResult>, secret: KeyTest) {
    && |r| == |s|
    && forall i :: 0 <= i < |r| ==> ResultOk(r[i]) && ResultOk(s[i]) && LowEqualResults(r[i], s[i], secret)
  }

  lemma {:induction false} SameResultOf(r: seq<WorkerResult>, s: seq<WorkerResult>, request: nat, secret: KeyTest)
    requires AllLowEqual(r, s, secret)
    ensures ResultOf(r, request).Some? == ResultOf(s, request).Some?
    ensures ResultOf(r, request).Some? ==>
              && ResultOk(ResultOf(r, request).value) && ResultOk(ResultOf(s, request).value)
              && LowEqualResults(ResultOf(r, request).value, ResultOf(s, request).value, secret)
  {
    if r != [] && r[|r| - 1].request != request {
      SameResultOf(r[..|r| - 1], s[..|s| - 1], request, secret);
    }
  }

  lemma {:induction false} SameObservationDocuments(o: seq<Observation>, p: seq<Observation>, result: nat, secret: KeyTest)
    requires |o| == |p|
    requires forall i :: 0 <= i < |o| ==>
               WellFormed(o[i].payload) && WellFormed(p[i].payload) && LowEqualObservations(o[i], p[i], secret)
    ensures ObservationDocuments(o, result, secret) == ObservationDocuments(p, result, secret)
  {
    if o != [] {
      SameObservationDocuments(o[..|o| - 1], p[..|p| - 1], result, secret);
      ObservationDocumentsEqual(o[|o| - 1], p[|p| - 1], secret);
    }
  }

  lemma SameAttemptDocument(r: Records, s: Records, attempt: Attempt, secret: KeyTest)
    requires RecordsOk(r) && RecordsOk(s) && LowEqualRecords(r, s, secret)
    ensures AttemptDocument(r, attempt, secret) == AttemptDocument(s, attempt, secret)
  {
    SameResultOf(r.results, s.results, attempt.request, secret);
    var result := ResultOf(r.results, attempt.request);
    if result.Some? {
      ResultDocumentsEqualExactly(result.value, ResultOf(s.results, attempt.request).value, secret);
      SameObservationDocuments(r.observations, s.observations, result.value.id, secret);
    }
  }

  lemma {:induction false} SameAttemptDocuments(r: Records, s: Records, attempts: seq<Attempt>, secret: KeyTest)
    requires RecordsOk(r) && RecordsOk(s) && LowEqualRecords(r, s, secret)
    ensures AttemptDocuments(r, attempts, secret) == AttemptDocuments(s, attempts, secret)
    ensures MissingReasons(r, attempts) == MissingReasons(s, attempts)
  {
    if attempts != [] {
      SameAttemptDocuments(r, s, attempts[..|attempts| - 1], secret);
      SameAttemptDocument(r, s, attempts[|attempts| - 1], secret);
      SameResultOf(r.results, s.results, attempts[|attempts| - 1].request, secret);
    }
  }

  lemma SameClass(r: Records, s: Records, secret: KeyTest)
    requires RecordsOk(r) && RecordsOk(s) && LowEqualRecords(r, s, secret)
    ensures ClassifyReplay(r) == ClassifyReplay(s)
  {
    forall i | 0 <= i < |r.attempts|
      ensures ResultOf(r.results, r.attempts[i].request).Some? == ResultOf(s.results, s.attempts[i].request).Some?
      ensures ResultOf(r.results, r.attempts[i].request).Some? ==>
                ResultOf(r.results, r.attempts[i].request).value.succeeded
                == ResultOf(s.results, s.attempts[i].request).value.succeeded
    {
      SameResultOf(r.results, s.results, r.attempts[i].request, secret);
    }
  }

  /** Stores that differ only in secrets yield the same manifest, redaction counts included. */
  lemma ManifestHidesSecrets(r: Records, s: Records, secret: KeyTest)
    requires RecordsOk(r) && RecordsOk(s) && LowEqualRecords(r, s, secret)
    ensures BuildManifest(r, secret) == BuildManifest(s, secret)
  {
    SameClass(r, s, secret);
    SameAttemptDocuments(r, s, r.attempts, secret);
  }

  // ------------------------------------------------------------------ the bundle

  lemma {:induction false} SameResponses(r: seq<WorkerResult>, s: seq<WorkerResult>, secret: KeyTest)
    requires AllLowEqual(r, s, secret)
    ensures ResponseDocuments(r, secret) == ResponseDocuments(s, secret)
  {
    if r != [] {
      SameResponses(r[..|r| - 1], s[..|s| - 1], secret);
      var last, last' := r[|r| - 1], s[|s| - 1];
      DigestsEqualExactlyOutsideSecrets(last.raw, last'.raw, secret);
      DigestsEqualExactlyOutsideSecrets(last.diagnostics, last'.diagnostics, secret);
      DigestsEqualExactlyOutsideSecrets(last.control, last'.control, secret);
    }
  }

  lemma {:induction false} LowEqualGet(e: Entries, f: Entries, key: string, secret: KeyTest)
    requires LowEqualEntries(e, f, secret) && !secret(key)
    ensures Has(e, key) <==> Has(f, key)
    ensures Has(e, key) ==> LowEqual(Get(e, key), Get(f, key), secret)
    decreases e
  {
    if e.Entry? && e.key != key {
      LowEqualGet(e.rest, Remove(f, e.key), key, secret);
      RemoveOther(f, e.key, key);
    }
  }

  lemma {:induction false} RemoveOther(entries: Entries, gone: string, key: string)
    requires gone != key
    ensures Has(Remove(entries, gone), key) <==> Has(entries, key)
    ensures Has(entries, key) ==> Get(Remove(entries, gone), key) == Get(entries, key)
  {
    if entries.Entry? && entries.key != gone {
      RemoveOther(entries.rest, gone, key);
    }
  }

  lemma SameKind(v: Value, w: Value, secret: KeyTest)
    requires v.Mapping? && w.Mapping? && LowEqual(v, w, secret) && !secret(KIND_KEY)
    ensures PublicArtifactKind(v) == PublicArtifactKind(w)
  {
    LowEqualGet(v.entries, w.entries, KIND_KEY, secret);
    if Has(v.entries, KIND_KEY) {
      SameNamedKind(Get(v.entries, KIND_KEY), Get(w.entries, KIND_KEY), secret);
    }
  }

  /** No date reads like a public kind. */
  lemma DatesAreNoKinds(iso: IsoText)
    ensures iso !in PUBLIC_KINDS
  {
    assert "browser_trace"[4] == 's' && "network_trace"[4] == 'o' && "response"[4] == 'o';
    assert "screenshot"[4] == 'e' && |"trace"| < 10 && |"har"| < 10;
  }

  lemma SameNamedKind(v: Value, w: Value, secret: KeyTest)
    requires LowEqual(v, w, secret)
    ensures NamedKind(v) == NamedKind(w)
  {
    if v.Leaf? && v.atom.Moment? {
      DatesAreNoKinds(v.atom.iso);
    }
    if w.Leaf? && w.atom.Moment? {
      DatesAreNoKinds(w.atom.iso);
    }
  }

  lemma {:induction false} SameDescriptors(result: nat, v: Values, w: Values, index: nat, secret: KeyTest)
    requires LowEqualValues(v, w, secret) && !secret(KIND_KEY)
    requires ValuesWellFormed(v) && ValuesWellFormed(w) && DescriptorsOk(v) && DescriptorsOk(w)
    ensures DescriptorDocuments(result, v, index, secret) == DescriptorDocuments(result, w, index, secret)
  {
    if v.More? {
      DigestsEqualExactlyOutsideSecrets(Some(v.head), Some(w.head), secret);
      SameKind(v.head, w.head, secret);
      SameDescriptors(result, v.tail, w.tail, index + 1, secret);
    }
  }

  lemma {:induction false} SameArtifacts(r: seq<WorkerResult>, s: seq<WorkerResult>, secret: KeyTest)
    requires AllLowEqual(r, s, secret) && !secret(KIND_KEY)
    ensures ArtifactDocuments(r, secret) == ArtifactDocuments(s, secret)
  {
    if r != [] {
      var last, last' := r[|r| - 1], s[|s| - 1];
      SameArtifacts(r[..|r| - 1], s[..|s| - 1], secret);
      if last.artifacts.Some? {
        SameDescriptors(last.id, last.artifacts.value, last'.artifacts.value, 0, secret);
      }
    }
  }

  /** Stores that differ only in secrets yield the same bundle, for every test of secret keys that leaves `kind` public. */
  lemma BundleHidesSecrets(r: Records, s: Records, secret: KeyTest)
    requires RecordsOk(r) && RecordsOk(s) && LowEqualRecords(r, s, secret) && !secret(KIND_KEY)
    ensures BuildBundle(r, secret) == BuildBundle(s, secret)
  {
    ManifestHidesSecrets(r, s, secret);
    SameResponses(r.results, s.results, secret);
    SameArtifacts(r.results, s.results, secret);
    if r.plan.Some? {
      DigestsEqualExactlyOutsideSecrets(Some(r.plan.value.arguments), Some(s.plan.value.arguments), secret);
    }
  }

  /** No fragment of a secret key occurs in `kind`. */
  lemma KindIsPublic()
    ensures !SensitiveKey(KIND_KEY)
  {
    var lowered := Lower(KIND_KEY);
    forall k | 0 <= k < |FRAGMENTS| ensures !Contains(lowered, FRAGMENTS[k]) {
      assert |FRAGMENTS[k]| > 4 || FRAGMENTS[k] == "csrf";
      forall i: nat | i <= |lowered| ensures !FoundAt(lowered, FRAGMENTS[k], i) {
        if |FRAGMENTS[k]| == 4 {
          assert lowered[0] == 'k' && FRAGMENTS[k][0] == 'c';
        }
      }
    }
  }

  /** The documents as the builders compute them, with the fixed list of fragments. */
  lemma ReplayDocumentsHideSecrets(r: Records, s: Records)
    requires RecordsOk(r) && RecordsOk(s) && LowEqualRecords(r, s, SensitiveKey)
    ensures BuildManifest(r, SensitiveKey) == BuildManifest(s, SensitiveKey)
    ensures BuildBundle(r, SensitiveKey) == BuildBundle(s, SensitiveKey)
  {
    KindIsPublic();
    ManifestHidesSecrets(r, s, SensitiveKey);
    BundleHidesSecrets(r, s, SensitiveKey);
  }

  // ------------------------------------------------------------------ the builders' loops

  /** The manifest builder: one document per attempt, reasons collected on the way. */
  method CollectAttempts(records: Records, secret: KeyTest) returns (docs: seq<AttemptDoc>, reasons: seq<ReasonCode>)
    ensures docs == AttemptDocuments(records, records.attempts, secret)
    ensures reasons == MissingReasons(records, records.attempts)
  {
    docs, reasons := [], [];
    for i := 0 to |records.attempts|
      invariant docs == AttemptDocuments(records, records.attempts[..i], secret)
      invariant reasons == MissingReasons(records, records.attempts[..i])
    {
      var attempt := records.attempts[i];
      assert records.attempts[..i + 1][..i] == records.attempts[..i];
      if ResultOf(records.results, attempt.request).None? {
        reasons := reasons + [WorkerResultMissing];
      }
      docs := docs + [AttemptDocument(records, attempt, secret)];
    }
    assert records.attempts[..|records.attempts|] == records.attempts;
  }

  /** The bundle builder's response loop. */
  method CollectResponses(results: seq<WorkerResult>, secret: KeyTest) returns (docs: seq<ResponseDoc>, redactions: nat)
    ensures Counted(docs, redactions) == ResponseDocuments(results, secret)
  {
    docs, redactions := [], 0;
    for i := 0 to |results|
      invariant Counted(docs, redactions) == ResponseDocuments(results[..i], secret)
    {
      var result := results[i];
      assert results[..i + 1][..i] == results[..i];
      var raw, diagnostics, control :=
        RedactedDigest(result.raw, secret), RedactedDigest(result.diagnostics, secret), RedactedDigest(result.control, secret);
      docs := docs + [ResponseDoc(result.id, result.request, result.succeeded, raw.doc, diagnostics.doc, control.doc)];
      redactions := redactions + raw.count + diagnostics.count + control.count;
    }
    assert results[..|results|] == results;
  }

  // ------------------------------------------------------------------ what the documents say

  /** The result of a request is the last one listed under it, and there is one whenever any is listed. */
  lemma {:induction false} ResultIsLast(results: seq<WorkerResult>, request: nat)
    ensures ResultOf(results, request).Some? <==> exists k :: 0 <= k < |results| && results[k].request == request
    ensures ResultOf(results, request).Some? ==>
              exists k :: 0 <= k < |results| && results[k].request == request && ResultOf(results, request).value == results[k]
                          && forall j :: k < j < |results| ==> results[j].request != request
  {
    if results != [] {
      var n := |results| - 1;
      ResultIsLast(results[..n], request);
      if results[n].request != request {
        if k :| 0 <= k < |results| && results[k].request == request {
          assert results[..n][k].request == request;
        }
        if ResultOf(results[..n], request).Some? {
          var k :| 0 <= k < n && results[..n][k].request == request && ResultOf(results[..n], request).value == results[..n][k]
                   && forall j :: k < j < n ==> results[..n][j].request != request;
          forall j | k < j < |results| ensures results[j].request != request {
            assert j < n ==> results[j] == results[..n][j];
          }
          assert results[k].request == request;
        }
      }
    }
  }

  ghost predicate SomeAttempt(records: Records, holds: Attempt -> bool) {
    exists i :: 0 <= i < |records.attempts| && holds(records.attempts[i])
  }

  ghost predicate WithoutResult(records: Records, attempt: Attempt) {
    forall k :: 0 <= k < |records.results| ==> records.results[k].request != attempt.request
  }

  /** An attempt whose last listed result did not succeed. */
  ghost predicate Unsuccessful(records: Records, attempt: Attempt) {
    exists k :: 0 <= k < |records.results| && records.results[k].request == attempt.request && !records.results[k].succeeded
                && forall j :: k < j < |records.results| ==> records.results[j].request != attempt.request
  }

  lemma ResultStanding(records: Records, attempt: Attempt)
    ensures ResultOf(records.results, attempt.request).None? <==> WithoutResult(records, attempt)
    ensures ResultOf(records.results, attempt.request).Some? ==>
              (Unsuccessful(records, attempt) <==> !ResultOf(records.results, attempt.request).value.succeeded)
  {
    ResultIsLast(records.results, attempt.request);
  }

  /** The replay class: each class stands for its own kind of attempts and results. */
  lemma {:induction false} ClassExactly(records: Records)
    ensures
      var verdict := ClassifyReplay(records).replayClass;
      var risky := SomeAttempt(records, (a: Attempt) => a.sideEffectLevel > 1);
      var missing := exists i :: 0 <= i < |records.attempts| && WithoutResult(records, records.attempts[i]);
      var failed := exists i :: 0 <= i < |records.attempts| && Unsuccessful(records, records.attempts[i]);
      var stateful := SomeAttempt(records, (a: Attempt) => a.browser || a.sideEffectLevel > 0);
      && (verdict.HumanReviewRequired? <==> risky)
      && (verdict.NotReplayable? <==> !risky && (records.attempts == [] || missing))
      && (verdict.EnvironmentSensitive? <==> !risky && !missing && (failed || stateful))
      && (verdict.DeterministicReplay? <==> records.attempts != [] && !missing && !failed && !stateful)
  {
    forall i | 0 <= i < |records.attempts|
      ensures ResultOf(records.results, records.attempts[i].request).None? <==> WithoutResult(records, records.attempts[i])
      ensures ResultOf(records.results, records.attempts[i].request).Some? ==>
                (Unsuccessful(records, records.attempts[i])
                 <==> !ResultOf(records.results, records.attempts[i].request).value.succeeded)
    {
      ResultStanding(records, records.attempts[i]);
    }
  }

  lemma {:induction false} UnrepeatedKeeps(reasons: seq<ReasonCode>)
    ensures forall r :: r in Unrepeated(reasons) <==> r in reasons
    ensures forall i, j :: 0 <= i < j < |Unrepeated(reasons)| ==> Unrepeated(reasons)[i] != Unrepeated(reasons)[j]
  {
    if reasons != [] {
      UnrepeatedKeeps(reasons[..|reasons| - 1]);
      assert reasons == reasons[..|reasons| - 1] + [reasons[|reasons| - 1]];
    }
  }

  lemma {:induction false} MissingExactly(records: Records, attempts: seq<Attempt>)
    ensures forall r :: r in MissingReasons(records, attempts) ==> r == WorkerResultMissing
    ensures MissingReasons(records, attempts) != [] <==>
            exists i :: 0 <= i < |attempts| && ResultOf(records.results, attempts[i].request).None?
  {
    if attempts != [] {
      var n := |attempts| - 1;
      MissingExactly(records, attempts[..n]);
      assert forall i :: 0 <= i < n ==> attempts[..n][i] == attempts[i];
      if i :| 0 <= i < |attempts| && ResultOf(records.results, attempts[i].request).None? {
        assert i < n ==> ResultOf(records.results, attempts[..n][i].request).None?;
      }
    }
  }

  lemma ClassReasons(records: Records)
    ensures
      var verdict := ClassifyReplay(records);
      && (verdict.reason.NoExecutionAttempt? <==> records.attempts == [])
      && (verdict.reason.SideEffectRequiresApproval? <==> verdict.replayClass.HumanReviewRequired?)
      && (verdict.reason.ManifestReady? <==> verdict.replayClass.DeterministicReplay?)
      && (verdict.reason.WorkerResultMissing? ==>
            exists i :: 0 <= i < |records.attempts| && ResultOf(records.results, records.attempts[i].request).None?)
  {
  }

  /** The reasons of a manifest, none twice: a missing result and a missing attempt are always named. */
  lemma {:induction false} ReasonsExactly(records: Records, secret: KeyTest)
    ensures
      var manifest := BuildManifest(records, secret);
      && (forall i, j :: 0 <= i < j < |manifest.reasons| ==> manifest.reasons[i] != manifest.reasons[j])
      && (NoExecutionAttempt in manifest.reasons <==> records.attempts == [])
      && (SideEffectRequiresApproval in manifest.reasons <==> manifest.replayClass.HumanReviewRequired?)
      && (ManifestReady in manifest.reasons <==> manifest.replayClass.DeterministicReplay?)
      && (WorkerResultMissing in manifest.reasons <==>
            exists i :: 0 <= i < |records.attempts| && ResultOf(records.results, records.attempts[i].request).None?)
  {
    var missing := MissingReasons(records, records.attempts);
    var named := [ClassifyReplay(records).reason];
    var none: seq<ReasonCode> := if records.attempts == [] then [NoExecutionAttempt] else [];
    ClassReasons(records);
    MissingExactly(records, records.attempts);
    UnrepeatedKeeps(missing + named + none);
    assert BuildManifest(records, secret).reasons == Unrepeated(missing + named + none);
    assert missing != [] ==> missing[0] in missing;
  }

  /** One document per attempt, in order, each of its own attempt. */
  lemma {:induction false} AttemptDocumentAt(records: Records, attempts: seq<Attempt>, secret: KeyTest, i: nat)
    requires i < |attempts|
    ensures |AttemptDocuments(records, attempts, secret)| == |attempts|
    ensures
      var document := AttemptDocuments(records, attempts, secret)[i];
      var result := ResultOf(records.results, attempts[i].request);
      && document.attempt == attempts[i] && document.result.Some? == result.Some?
      && (result.Some? ==> document.result.value == ResultDocument(result.value, secret))
      && (result.None? ==> document.observations == [])
    decreases |attempts|
  {
    var n := |attempts| - 1;
    if n > 0 {
      AttemptDocumentAt(records, attempts[..n], secret, if i < n then i else 0);
    }
  }

  /** An attempt's observations are those of its result and no others. */
  lemma {:induction false} ObservationDocumentsExactly(observations: seq<Observation>, result: nat, secret: KeyTest)
    ensures forall d :: d in ObservationDocuments(observations, result, secret) <==>
                        exists o :: o in observations && o.result == result && d == ObservationDocument(o, secret)
  {
    if observations != [] {
      var front, last := observations[..|observations| - 1], observations[|observations| - 1];
      ObservationDocumentsExactly(front, result, secret);
      assert observations == front + [last];
    }
  }

  /** One response per result, in order, and a kind is published only when it is one of the six. */
  lemma {:induction false} ResponseAt(results: seq<WorkerResult>, secret: KeyTest, i: nat)
    requires i < |results|
    ensures |ResponseDocuments(results, secret).docs| == |results|
    ensures
      var document := ResponseDocuments(results, secret).docs[i];
      && document.id == results[i].id && document.request == results[i].request && document.succeeded == results[i].succeeded
      && document.raw == RedactedDigest(results[i].raw, secret).doc
      && document.diagnostics == RedactedDigest(results[i].diagnostics, secret).doc
      && document.control == RedactedDigest(results[i].control, secret).doc
    decreases |results|
  {
    var n := |results| - 1;
    if n > 0 {
      ResponseAt(results[..n], secret, if i < n then i else 0);
    }
  }

  lemma {:induction false} DescriptorAt(result: nat, descriptors: Values, index: nat, secret: KeyTest, i: nat)
    requires i < Length(descriptors)
    ensures |DescriptorDocuments(result, descriptors, index, secret).docs| == Length(descriptors)
    ensures
      var document := DescriptorDocuments(result, descriptors, index, secret).docs[i];
      document.result == result && document.index == index + i
  {
    if descriptors.More? && descriptors.tail.More? {
      DescriptorAt(result, descriptors.tail, index + 1, secret, if i > 0 then i - 1 else 0);
    }
  }

  lemma PublishedKinds(descriptor: Value, name: string)
    ensures PublicArtifactKind(descriptor) == PublicKind(name) <==>
            && name in {"browser_trace", "har", "network_trace", "response", "screenshot", "trace"}
            && descriptor.Mapping? && Has(descriptor.entries, "kind") && Get(descriptor.entries, "kind") == Leaf(Text(name))
  {
  }

  /** A human must look at a bundle exactly when some attempt had side effects above level one. */
  lemma BundleAsksForReview(records: Records, secret: KeyTest)
    ensures
      var bundle := BuildBundle(records, secret);
      && (bundle.needsHumanReview <==> exists i :: 0 <= i < |records.attempts| && records.attempts[i].sideEffectLevel > 1)
      && (bundle.template.PlanMissing? <==> records.plan.None?)
      && (records.plan.Some? ==>
            bundle.template == PlanBound(records.plan.value.meta, RedactedDigest(Some(records.plan.value.arguments), secret).doc)
            && bundle.templateRedactions == SecretEntries(records.plan.value.arguments, secret))
      && bundle.manifest == BuildManifest(records, secret) && bundle.meta == records.meta
  {
    ClassExactly(records);
    if records.plan.Some? {
      CountIsSecretEntries(records.plan.value.arguments, secret);
    }
  }

  function ArtifactSecrets(artifacts: Option<Values>, secret: KeyTest): nat {
    if artifacts.Some? then SecretsInside(artifacts.value, secret) else 0
  }

  function ValueSecrets(value: Option<Value>, secret: KeyTest): nat {
    if value.Some? then SecretEntries(value.value, secret) else 0
  }

  lemma DigestSays(value: Option<Value>, secret: KeyTest)
    requires OptionWellFormed(value)
    ensures RedactedDigest(value, secret).count == ValueSecrets(value, secret)
    ensures RedactedDigest(value, secret).doc == if value.Some? then Some(Masked(value.value, secret)) else None
  {
    if value.Some? {
      CountIsSecretEntries(value.value, secret);
      RedactedIsMasked(value.value, secret);
    }
  }

  /** A result's document: its columns as they are, each payload masked, and how many artifacts and secrets there were. */
  lemma ResultDocumentSays(result: WorkerResult, secret: KeyTest)
    requires ResultOk(result)
    ensures
      var document := ResultDocument(result, secret);
      && document.id == result.id && document.succeeded == result.succeeded && document.meta == result.meta
      && (document.raw == if result.raw.Some? then Some(Masked(result.raw.value, secret)) else None)
      && (document.diagnostics == if result.diagnostics.Some? then Some(Masked(result.diagnostics.value, secret)) else None)
      && (document.control == if result.control.Some? then Some(Masked(result.control.value, secret)) else None)
      && (document.artifacts == if result.artifacts.Some? then Some(ListDoc(MaskedValues(result.artifacts.value, secret))) else None)
      && (document.artifacts.Some? ==> document.artifactCount == |document.artifacts.value.items|)
      && (document.artifacts.None? ==> document.artifactCount == 0)
      && document.redactions == ValueSecrets(result.raw, secret) + ValueSecrets(result.diagnostics, secret)
                                + ValueSecrets(result.control, secret) + ArtifactSecrets(result.artifacts, secret)
  {
    DigestSays(result.raw, secret);
    DigestSays(result.diagnostics, secret);
    DigestSays(result.control, secret);
    DigestSays(AsList(result.artifacts), secret);
    if result.artifacts.Some? {
      MaskedLength(result.artifacts.value, secret);
    }
  }

  lemma {:induction false} MaskedLength(items: Values, secret: KeyTest)
    ensures |MaskedValues(items, secret)| == Length(items)
  {
    if items.More? {
      MaskedLength(items.tail, secret);
    }
  }

  /** A fragment at a place of a key, capitals read as small letters. */
  predicate SpeltAt(key: string, fragment: string, i: nat) {
    i + |fragment| <= |key|
    && forall k :: 0 <= k < |fragment| ==>
         if 'A' <= key[i + k] <= 'Z' then fragment[k] as int == key[i + k] as int + 32 else fragment[k] == key[i + k]
  }

  lemma SpelledIsFound(key: string, fragment: string, i: nat)
    ensures SpeltAt(key, fragment, i) <==> FoundAt(Lower(key), fragment, i)
  {
    if i + |fragment| <= |key| {
      var part := Lower(key)[i..i + |fragment|];
      assert forall k :: 0 <= k < |fragment| ==> part[k] == LowerChar(key[i + k]);
      if SpeltAt(key, fragment, i) {
        assert part == fragment;
      }
      if part == fragment {
        assert forall k :: 0 <= k < |fragment| ==> fragment[k] == LowerChar(key[i + k]);
      }
    }
  }

  /** A key is secret exactly when one of the nine fragments is spelt somewhere in it. */
  lemma SensitiveExactly(key: string)
    ensures SensitiveKey(key) <==> exists k, i :: 0 <= k < |FRAGMENTS| && 0 <= i <= |key| && SpeltAt(key, FRAGMENTS[k], i)
    ensures |FRAGMENTS| == 9
    ensures FRAGMENTS[..5] == ["authorization", "bearer", "cookie", "credential", "csrf"]
    ensures FRAGMENTS[5..] == ["password", "secret", "session", "token"]
  {
    if SensitiveKey(key) {
      var k :| 0 <= k < |FRAGMENTS| && Contains(Lower(key), FRAGMENTS[k]);
      var i :| 0 <= i <= |Lower(key)| && FoundAt(Lower(key), FRAGMENTS[k], i);
      SpelledIsFound(key, FRAGMENTS[k], i);
    }
    if k, i :| 0 <= k < |FRAGMENTS| && 0 <= i <= |key| && SpeltAt(key, FRAGMENTS[k], i) {
      SpelledIsFound(key, FRAGMENTS[k], i);
      assert Contains(Lower(key), FRAGMENTS[k]);
    }
  }
}
