/** The bounded context an observer provider sees, the deterministic brief, and the validator of untrusted briefs. */
module ObserverBrief {
  import opened Wrappers
  import opened Whitespace

  datatype Status = Fault | Waiting | Active | IdleStatus | UnknownStatus

  datatype Part = Headline | What | Why

  /**
    A value of an untrusted mapping, as far as the validator looks at it. In a field that is compared with the observer's
    fixed words, and for its fixed sentences, the string is represented by name; any other string by its text.
   */
  datatype Value =
    | SchemaWord
    | StatusWord(status: Status)
    | AttentionWord(required: bool)
    | ReviewWord
    | Sentence(about: Status, part: Part)
    | Str(text: string)
    | List(items: seq<Value>)
    | Null
    | Opaque

  datatype Field =
    | SchemaField
    | StatusField
    | HeadlineField
    | WhatField
    | WhyField
    | ConfirmedFacts
    | Unknowns
    | OperatorAttention
    | SourceEventIds
    | GeneratedAt
    | ProviderField
    | ModelField
    | OtherField(name: string)

  type Payload = map<Field, Value>

  const MAX_HEADLINE: nat := 180
  const MAX_NARRATIVE: nat := 500
  const MAX_FACTS: nat := 8
  const MAX_FACT_LENGTH: nat := 240
  const MAX_SOURCE_IDS: nat := 50
  const MAX_ID_LENGTH: nat := 160

  // ------------------------------------------------------------------ bounded text

  /** The first word of a text and what follows it. */
  function TakeWord(s: string): (word: string)
    ensures word <= s
    ensures forall i :: 0 <= i < |word| ==> !White(word[i])
    ensures s != "" && !White(s[0]) ==> word != "" && word[0] == s[0]
  {
    if s == "" || White(s[0]) then "" else [s[0]] + TakeWord(s[1..])
  }

  function Words(s: string): seq<string> {
    if s == "" then []
    else if White(s[0]) then Words(s[1..])
    else
      var word := TakeWord(s);
      [word] + Words(s[|word|..])
  }

  function Join(words: seq<string>): string {
    if words == [] then "" else if |words| == 1 then words[0] else words[0] + " " + Join(words[1..])
  }

  /** Whitespace runs collapsed, ends trimmed, then cut at the limit. */
  function Text(value: Value, limit: nat): string {
    if !value.Str? then ""
    else
      var collapsed := Join(Words(value.text));
      if |collapsed| <= limit then collapsed else collapsed[..limit]
  }

  lemma {:induction false} WordsStartDark(s: string)
    ensures Words(s) != [] ==> Words(s)[0] != "" && !White(Words(s)[0][0])
    ensures Words(s) == [] ==> Blank(s)
  {
    if s != "" && White(s[0]) {
      WordsStartDark(s[1..]);
      assert Words(s) == [] ==> forall i :: 1 <= i < |s| ==> s[i] == s[1..][i - 1];
    }
  }

  /** A bounded text is within its limit, and blank only when it is empty. */
  lemma TextIsBounded(value: Value, limit: nat)
    requires limit > 0
    ensures |Text(value, limit)| <= limit
    ensures Text(value, limit) != "" ==> !Blank(Text(value, limit))
    ensures value.Str? && !Blank(value.text) ==> Text(value, limit) != ""
  {
    if value.Str? {
      var words := Words(value.text);
      WordsStartDark(value.text);
      if words != [] {
        var collapsed := Join(words);
        assert collapsed[0] == words[0][0];
        assert !White(Text(value, limit)[0]);
      }
    }
  }

  function Or(text: string, fallback: string): string {
    if text == "" then fallback else text
  }

  function Id(value: Value): Option<string> {
    var text := Text(value, MAX_ID_LENGTH);
    if text == "" then None else Some(text)
  }

  // ------------------------------------------------------------------ context

  /** The fields of the read model the context builder looks at; `items` holds the activity ids of mapping items. */
  datatype Analysis = Analysis(
    runId: Value,
    effective: Value,
    persisted: Value,
    phase: Value,
    liveness: Value,
    attention: bool,
    items: seq<Option<Value>>)

  /** Effective states the observer tells apart. */
  datatype OperationalState = Faulty | NeedsDecision | Working | Resting | OtherState(text: string)

  function Named(text: string): OperationalState {
    if text == "RUNTIME_FAULT" || text == "FAILED_OPERATIONAL" || text == "FAILED" then Faulty
    else if text == "WAITING_HUMAN" || text == "BLOCKED" || text == "RECONCILIATION_REQUIRED" then NeedsDecision
    else if text == "RUNNING" || text == "READY" || text == "ACTIVE" || text == "EXECUTING" then Working
    else if text == "IDLE" || text == "CREATED" || text == "COMPLETED" || text == "CANCELLED" then Resting
    else OtherState(text)
  }

  datatype Context = Context(
    runId: string,
    effective: OperationalState,
    persisted: string,
    phase: string,
    liveness: string,
    attention: bool,
    confirmedFacts: seq<string>,
    unknowns: seq<string>,
    sourceIds: seq<string>)

  /** Distinct identifiers in order of first appearance. */
  function SourceIds(items: seq<Option<Value>>): seq<string> {
    if items == [] then []
    else
      var ids := SourceIds(items[..|items| - 1]);
      var last := items[|items| - 1];
      if last.None? || Id(last.value).None? || Id(last.value).value in ids then ids
      else ids + [Id(last.value).value]
  }

  function Bounded(texts: seq<string>): (bounded: seq<string>)
    ensures |bounded| == |texts|
    ensures forall i :: 0 <= i < |texts| ==> bounded[i] == Text(Str(texts[i]), MAX_FACT_LENGTH)
  {
    seq(|texts|, i requires 0 <= i < |texts| => Text(Str(texts[i]), MAX_FACT_LENGTH))
  }

  function UnknownTexts(liveness: string, phase: string, ids: seq<string>): seq<string> {
    (if liveness == "UNKNOWN" then ["Runtime liveness" + " is UNKNOWN in the authoritative projection."] else [])
    + (if phase == "UNKNOWN" then ["Current phase" + " is UNKNOWN in the authoritative projection."] else [])
    + (if ids == [] then ["No persisted semantic activity" + " is available as an event reference."] else [])
  }

  function FactTexts(persisted: string, effective: string, liveness: string, phase: string): seq<string> {
    ["Persisted lifecycle state is " + persisted + ".",
     "Effective operational state is " + effective + ".",
     "Runtime liveness is " + liveness + ".",
     "Current phase is " + phase + "."]
  }

  function BuildContext(analysis: Analysis): Context {
    var effective := Or(Text(analysis.effective, 80), "UNKNOWN");
    var persisted := Or(Text(analysis.persisted, 80), "UNKNOWN");
    var phase := Or(Text(analysis.phase, 120), "UNKNOWN");
    var liveness := Or(Text(analysis.liveness, 80), "UNKNOWN");
    var ids := SourceIds(if |analysis.items| <= MAX_SOURCE_IDS then analysis.items else analysis.items[..MAX_SOURCE_IDS]);
    Context(
      if Id(analysis.runId).Some? then Id(analysis.runId).value else "UNKNOWN",
      Named(effective), persisted, phase, liveness, analysis.attention,
      Bounded(FactTexts(persisted, effective, liveness, phase)),
      Bounded(UnknownTexts(liveness, phase, ids)),
      ids)
  }

  // ------------------------------------------------------------------ status, fallback, validator

  function ObserverStatus(context: Context): Status {
    if context.effective.Faulty? then Fault
    else if context.attention || context.effective.NeedsDecision? then Waiting
    else if context.effective.Working? then Active
    else if context.effective.Resting? then IdleStatus
    else UnknownStatus
  }

  /** Lengths of the fixed sentences. */
  function SentenceLength(about: Status, part: Part): nat {
    match (about, part)
    case (Fault, Headline) => 33
    case (Fault, What) => 70
    case (Fault, Why) => 58
    case (Waiting, Headline) => 44
    case (Waiting, What) => 68
    case (Waiting, Why) => 70
    case (Active, Headline) => 13
    case (Active, What) => 76
    case (Active, Why) => 76
    case (IdleStatus, Headline) => 31
    case (IdleStatus, What) => 63
    case (IdleStatus, Why) => 74
    case (UnknownStatus, Headline) => 28
    case (UnknownStatus, What) => 77
    case (UnknownStatus, Why) => 72
  }

  /** Length of a value that is a string. */
  function Length(value: Value): Option<nat> {
    match value
    case SchemaWord => Some(22)
    case StatusWord(status) => Some(match status case Fault => 5 case Waiting => 7 case Active => 6 case IdleStatus => 4 case UnknownStatus => 7)
    case AttentionWord(required) => Some(if required then 8 else 4)
    case ReviewWord => Some(6)
    case Sentence(about, part) => Some(SentenceLength(about, part))
    case Str(text) => Some(|text|)
    case _ => None
  }

  function Strings(texts: seq<string>): (values: seq<Value>)
    ensures |values| == |texts| && forall i :: 0 <= i < |texts| ==> values[i] == Str(texts[i])
  {
    seq(|texts|, i requires 0 <= i < |texts| => Str(texts[i]))
  }

  function FallbackBrief(context: Context, generatedAt: string): Payload {
    var status := ObserverStatus(context);
    map[
      SchemaField := SchemaWord,
      StatusField := StatusWord(status),
      HeadlineField := Sentence(status, Headline),
      WhatField := Sentence(status, What),
      WhyField := Sentence(status, Why),
      ConfirmedFacts := List(Strings(context.confirmedFacts)),
      Unknowns := List(Strings(context.unknowns)),
      OperatorAttention := AttentionWord(context.attention),
      SourceEventIds := List(Strings(context.sourceIds)),
      GeneratedAt := Str(generatedAt),
      ProviderField := Str("none"),
      ModelField := Null]
  }

  const REQUIRED_FIELDS: set<Field> :=
    {SchemaField, StatusField, HeadlineField, WhatField, WhyField, ConfirmedFacts, Unknowns, OperatorAttention,
     SourceEventIds, GeneratedAt, ProviderField, ModelField}

  predicate ShortText(value: Value, limit: nat) {
    Length(value).Some? && Length(value).value <= limit
  }

  predicate SupportedFact(value: Value, allowed: seq<string>) {
    value.Str? && !Blank(value.text) && |value.text| <= MAX_FACT_LENGTH && value.text in allowed
  }

  predicate SupportedFacts(value: Value, allowed: seq<string>) {
    value.List? && |value.items| <= MAX_FACTS
    && forall i :: 0 <= i < |value.items| ==> SupportedFact(value.items[i], allowed)
  }

  predicate KnownIds(value: Value, known: seq<string>) {
    value.List? && |value.items| <= MAX_SOURCE_IDS
    && forall i :: 0 <= i < |value.items| ==>
      value.items[i].Str? && |value.items[i].text| <= MAX_ID_LENGTH && value.items[i].text in known
  }

  /** What the validator lets through for a context; everything else raises. */
  predicate ValidBrief(payload: Payload, context: Context) {
    && payload.Keys == REQUIRED_FIELDS
    && payload[SchemaField].SchemaWord?
    && payload[StatusField] == StatusWord(ObserverStatus(context))
    && payload[OperatorAttention] == AttentionWord(context.attention)
    && ShortText(payload[HeadlineField], MAX_HEADLINE)
    && ShortText(payload[WhatField], MAX_NARRATIVE) && ShortText(payload[WhyField], MAX_NARRATIVE)
    && ShortText(payload[GeneratedAt], 80) && ShortText(payload[ProviderField], 120)
    && (payload[ModelField].Null? || ShortText(payload[ModelField], 120))
    && SupportedFacts(payload[ConfirmedFacts], context.confirmedFacts)
    && SupportedFacts(payload[Unknowns], context.unknowns)
    && KnownIds(payload[SourceEventIds], context.sourceIds)
  }

  // ------------------------------------------------------------------ the fallback is a valid brief

  /** What the builder guarantees about a context, for any analysis. */
  predicate BoundedContext(context: Context) {
    && SupportedFacts(List(Strings(context.confirmedFacts)), context.confirmedFacts)
    && SupportedFacts(List(Strings(context.unknowns)), context.unknowns)
    && KnownIds(List(Strings(context.sourceIds)), context.sourceIds)
  }

  lemma DarkTextsAreSupported(texts: seq<string>)
    requires |texts| <= MAX_FACTS
    requires forall i :: 0 <= i < |texts| ==> !Blank(texts[i])
    ensures SupportedFacts(List(Strings(Bounded(texts))), Bounded(texts))
  {
    forall i | 0 <= i < |texts| ensures SupportedFact(Strings(Bounded(texts))[i], Bounded(texts)) {
      TextIsBounded(Str(texts[i]), MAX_FACT_LENGTH);
      assert Bounded(texts)[i] in Bounded(texts);
    }
  }

  lemma StartsDark(start: string, rest: string)
    requires start != "" && !White(start[0])
    ensures !Blank(start + rest)
  {
    assert (start + rest)[0] == start[0];
  }

  lemma FactTextsAreDark(persisted: string, effective: string, liveness: string, phase: string)
    ensures forall i :: 0 <= i < 4 ==> !Blank(FactTexts(persisted, effective, liveness, phase)[i])
  {
    StartsDark("Persisted lifecycle state is " + persisted, ".");
    StartsDark("Effective operational state is " + effective, ".");
    StartsDark("Runtime liveness is " + liveness, ".");
    StartsDark("Current phase is " + phase, ".");
  }

  lemma UnknownTextsAreDark(liveness: string, phase: string, ids: seq<string>)
    ensures |UnknownTexts(liveness, phase, ids)| <= 3
    ensures forall i :: 0 <= i < |UnknownTexts(liveness, phase, ids)| ==> !Blank(UnknownTexts(liveness, phase, ids)[i])
  {
    StartsDark("Runtime liveness", " is UNKNOWN in the authoritative projection.");
    StartsDark("Current phase", " is UNKNOWN in the authoritative projection.");
    StartsDark("No persisted semantic activity", " is available as an event reference.");
  }

  lemma {:induction false} SourceIdsAreBounded(items: seq<Option<Value>>)
    ensures |SourceIds(items)| <= |items|
    ensures forall i :: 0 <= i < |SourceIds(items)| ==> 0 < |SourceIds(items)[i]| <= MAX_ID_LENGTH
    ensures forall i, j :: 0 <= i < j < |SourceIds(items)| ==> SourceIds(items)[i] != SourceIds(items)[j]
  {
    if items != [] {
      SourceIdsAreBounded(items[..|items| - 1]);
      if items[|items| - 1].Some? {
        TextIsBounded(items[|items| - 1].value, MAX_ID_LENGTH);
      }
    }
  }

  lemma BuiltContextIsBounded(analysis: Analysis)
    ensures BoundedContext(BuildContext(analysis))
  {
    var effective := Or(Text(analysis.effective, 80), "UNKNOWN");
    var context := BuildContext(analysis);
    FactTextsAreDark(context.persisted, effective, context.liveness, context.phase);
    DarkTextsAreSupported(FactTexts(context.persisted, effective, context.liveness, context.phase));
    UnknownTextsAreDark(context.liveness, context.phase, context.sourceIds);
    DarkTextsAreSupported(UnknownTexts(context.liveness, context.phase, context.sourceIds));
    SourceIdsAreBounded(if |analysis.items| <= MAX_SOURCE_IDS then analysis.items else analysis.items[..MAX_SOURCE_IDS]);
  }

  lemma BoundedContextHasFallback(context: Context, generatedAt: string)
    requires BoundedContext(context) && |generatedAt| <= 80
    ensures ValidBrief(FallbackBrief(context, generatedAt), context)
  {
  }

  /** For every analysis, the deterministic brief of the built context passes the validator of provider briefs. */
  lemma {:induction false} FallbackIsValid(analysis: Analysis, generatedAt: string)
    requires |generatedAt| <= 80
    ensures ValidBrief(FallbackBrief(BuildContext(analysis), generatedAt), BuildContext(analysis))
  {
    BuiltContextIsBounded(analysis);
    BoundedContextHasFallback(BuildContext(analysis), generatedAt);
  }

  predicate AmongItems(value: Value, others: Value) {
    value.List? && others.List? && forall v :: v in value.items ==> v in others.items
  }

  /** A provider's brief can differ from the deterministic one only in wording and in leaving facts out. */
  lemma {:induction false} ValidBriefAddsNothing(payload: Payload, context: Context, fallback: Payload)
    requires ValidBrief(payload, context)
    requires exists generatedAt :: fallback == FallbackBrief(context, generatedAt)
    ensures payload.Keys == fallback.Keys
    ensures payload[StatusField] == fallback[StatusField] && payload[OperatorAttention] == fallback[OperatorAttention]
    ensures AmongItems(payload[ConfirmedFacts], fallback[ConfirmedFacts])
    ensures AmongItems(payload[Unknowns], fallback[Unknowns])
    ensures AmongItems(payload[SourceEventIds], fallback[SourceEventIds])
  {
    AllowedAreStrings(payload[ConfirmedFacts], context.confirmedFacts);
    AllowedAreStrings(payload[Unknowns], context.unknowns);
    KnownAreStrings(payload[SourceEventIds], context.sourceIds);
  }

  lemma KnownAreStrings(value: Value, known: seq<string>)
    requires KnownIds(value, known)
    ensures forall v :: v in value.items ==> v in Strings(known)
  {
    forall v | v in value.items ensures v in Strings(known) {
      var i :| 0 <= i < |known| && known[i] == v.text;
      assert Strings(known)[i] == v;
    }
  }

  lemma AllowedAreStrings(value: Value, allowed: seq<string>)
    requires SupportedFacts(value, allowed)
    ensures forall v :: v in value.items ==> v in Strings(allowed)
  {
    forall v | v in value.items ensures v in Strings(allowed) {
      var k :| 0 <= k < |value.items| && value.items[k] == v;
      assert SupportedFact(value.items[k], allowed);
      var i :| 0 <= i < |allowed| && allowed[i] == v.text;
      assert Strings(allowed)[i] == v;
    }
  }

  // ------------------------------------------------------------------ what texts and contexts keep

  /** A word of a text: not empty and without whitespace. */
  predicate IsWord(word: string) {
    word != "" && forall i :: 0 <= i < |word| ==> !White(word[i])
  }

  lemma {:induction false} TakenWord(word: string, rest: string)
    requires forall i :: 0 <= i < |word| ==> !White(word[i])
    requires rest == "" || White(rest[0])
    ensures TakeWord(word + rest) == word
  {
    if word == "" {
      assert word + rest == rest;
    } else {
      assert (word + rest)[1..] == word[1..] + rest;
      TakenWord(word[1..], rest);
    }
  }

  lemma {:induction false} WordsOfJoined(words: seq<string>)
    requires forall i :: 0 <= i < |words| ==> IsWord(words[i])
    ensures Words(Join(words)) == words
  {
    if words != [] {
      var word := words[0];
      var rest := if |words| == 1 then "" else " " + Join(words[1..]);
      var joined := Join(words);
      assert joined == word + rest;
      TakenWord(word, rest);
      assert joined[0] == word[0] && joined[|word|..] == rest;
      if |words| > 1 {
        WordsOfJoined(words[1..]);
        assert rest[1..] == Join(words[1..]);
      }
    }
  }

  lemma {:induction false} WordsAreWords(s: string)
    ensures forall i :: 0 <= i < |Words(s)| ==> IsWord(Words(s)[i])
  {
    if s != "" {
      if White(s[0]) {
        WordsAreWords(s[1..]);
      } else {
        WordsAreWords(s[|TakeWord(s)|..]);
      }
    }
  }

  /** Collapsing whitespace keeps the words of a text, and a text within the limit is not cut. */
  lemma {:induction false} CollapsingKeepsWords(s: string, limit: nat)
    ensures |Join(Words(s))| <= limit ==> Words(Text(Str(s), limit)) == Words(s)
    ensures |Join(Words(s))| > limit ==> Text(Str(s), limit) < Join(Words(s)) && |Text(Str(s), limit)| == limit
  {
    WordsAreWords(s);
    WordsOfJoined(Words(s));
  }

  predicate SaysFault(text: string) { text in {"RUNTIME_FAULT", "FAILED_OPERATIONAL", "FAILED"} }
  predicate SaysWaiting(text: string) { text in {"WAITING_HUMAN", "BLOCKED", "RECONCILIATION_REQUIRED"} }
  predicate SaysActive(text: string) { text in {"RUNNING", "READY", "ACTIVE", "EXECUTING"} }
  predicate SaysIdle(text: string) { text in {"IDLE", "CREATED", "COMPLETED", "CANCELLED"} }

  lemma NamedExactly(text: string)
    ensures Named(text).Faulty? <==> SaysFault(text)
    ensures Named(text).NeedsDecision? <==> SaysWaiting(text)
    ensures Named(text).Working? <==> SaysActive(text)
    ensures Named(text).Resting? <==> SaysIdle(text)
  {
  }

  lemma UnknownSaysNothing()
    ensures !SaysFault("UNKNOWN") && !SaysWaiting("UNKNOWN") && !SaysActive("UNKNOWN") && !SaysIdle("UNKNOWN")
    ensures !SaysFault("") && !SaysWaiting("") && !SaysActive("") && !SaysIdle("")
  {
  }

  /** The status shown for an analysis: a fault, else a decision asked for, else what its effective state says. */
  lemma StatusExactly(analysis: Analysis)
    ensures
      var status, text := ObserverStatus(BuildContext(analysis)), Text(analysis.effective, 80);
      var waiting := analysis.attention || SaysWaiting(text);
      && (status.Fault? <==> SaysFault(text)) && (status.Waiting? <==> !SaysFault(text) && waiting)
      && (status.Active? <==> !waiting && SaysActive(text)) && (status.IdleStatus? <==> !waiting && SaysIdle(text))
  {
    var text := Text(analysis.effective, 80);
    NamedExactly(text);
    NamedExactly("UNKNOWN");
    UnknownSaysNothing();
    assert BuildContext(analysis).effective == if text == "" then Named("UNKNOWN") else Named(text);
  }

  lemma {:induction false} SourceIdsExactly(items: seq<Option<Value>>)
    ensures forall id :: id in SourceIds(items) <==> exists i :: 0 <= i < |items| && items[i].Some? && Id(items[i].value) == Some(id)
  {
    if items != [] {
      var n := |items| - 1;
      SourceIdsExactly(items[..n]);
      forall id
        ensures id in SourceIds(items) <==> exists i :: 0 <= i < |items| && items[i].Some? && Id(items[i].value) == Some(id)
      {
        if id in SourceIds(items[..n]) {
          var i :| 0 <= i < n && items[..n][i].Some? && Id(items[..n][i].value) == Some(id);
          assert items[i].Some? && Id(items[i].value) == Some(id);
        }
        if i :| 0 <= i < |items| && items[i].Some? && Id(items[i].value) == Some(id) {
          if i < n {
            assert items[..n][i].Some? && Id(items[..n][i].value) == Some(id);
          }
        }
      }
    }
  }

  /** What a context is built from: the bounded columns, a fact for each of four, the ids of the first 50 items. */
  lemma {:induction false} ContextExactly(analysis: Analysis)
    ensures
      var c := BuildContext(analysis);
      && c.attention == analysis.attention
      && c.persisted == Or(Text(analysis.persisted, 80), "UNKNOWN")
      && c.phase == Or(Text(analysis.phase, 120), "UNKNOWN") && c.liveness == Or(Text(analysis.liveness, 80), "UNKNOWN")
      && |c.confirmedFacts| == 4
      && |c.unknowns| == (if c.liveness == "UNKNOWN" then 1 else 0) + (if c.phase == "UNKNOWN" then 1 else 0)
                         + (if c.sourceIds == [] then 1 else 0)
      && forall id :: id in c.sourceIds <==>
           exists i :: 0 <= i < |analysis.items| && i < 50 && analysis.items[i].Some? && Id(analysis.items[i].value) == Some(id)
  {
    var first := if |analysis.items| <= MAX_SOURCE_IDS then analysis.items else analysis.items[..MAX_SOURCE_IDS];
    SourceIdsExactly(first);
    assert forall i :: 0 <= i < |first| ==> first[i] == analysis.items[i];
  }

  /** No part of a valid brief exceeds its limit, and none of the twelve fields is missing. */
  lemma ValidBriefIsBounded(payload: Payload, context: Context)
    requires ValidBrief(payload, context)
    ensures |payload| == 12 && payload[SchemaField] == SchemaWord
    ensures Length(payload[HeadlineField]).value <= 180
    ensures Length(payload[WhatField]).value <= 500 && Length(payload[WhyField]).value <= 500
    ensures Length(payload[GeneratedAt]).value <= 80 && Length(payload[ProviderField]).value <= 120
    ensures payload[ModelField] == Null || Length(payload[ModelField]).value <= 120
    ensures |payload[ConfirmedFacts].items| <= 8 && |payload[Unknowns].items| <= 8 && |payload[SourceEventIds].items| <= 50
    ensures forall v :: v in payload[ConfirmedFacts].items + payload[Unknowns].items ==> v.Str? && 0 < |v.text| <= 240
    ensures forall v :: v in payload[SourceEventIds].items ==> v.Str? && |v.text| <= 160
  {
    assert |REQUIRED_FIELDS| == 12;
    assert |payload| == |payload.Keys|;
    forall v | v in payload[ConfirmedFacts].items + payload[Unknowns].items ensures v.Str? && 0 < |v.text| <= 240 {
      assert SupportedFact(v, context.confirmedFacts) || SupportedFact(v, context.unknowns);
    }
  }
}
