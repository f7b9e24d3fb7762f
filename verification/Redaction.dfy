/** Redaction of recorded values and the canonical digests taken of them. */
module Redaction {
  import opened Wrappers

  // ------------------------------------------------------------------ values

  datatype Atom =
    | Text(text: string)
    | Number(number: int)
      /** A floating-point number, by its JSON text. */
    | Float(json: string)
    | Truth(truth: bool)
    | Nothing
      /** A timestamp, by its ISO text. */
    | Moment(iso: IsoText)

  /** A four-digit year, a dash and the rest of an ISO date. */
  type IsoText = iso: string | |iso| >= 10 && iso[4] == '-' witness "2000-01-01"

  /** A recorded value: lists and tuples are kept apart, mappings list their entries in insertion order. */
  datatype Value =
    | Leaf(atom: Atom)
    | Mapping(entries: Entries)
    | Items(items: Values, tuple: bool)

  datatype Entries = NoEntry | Entry(key: string, value: Value, rest: Entries)

  datatype Values = NoValue | More(head: Value, tail: Values)

  /** Which keys hold secrets; every law below holds for any such test. */
  type KeyTest = string -> bool

  predicate Has(entries: Entries, key: string) {
    entries.Entry? && (entries.key == key || Has(entries.rest, key))
  }

  function Get(entries: Entries, key: string): Value
    requires Has(entries, key)
  {
    if entries.key == key then entries.value else Get(entries.rest, key)
  }

  function Remove(entries: Entries, key: string): Entries {
    if entries.NoEntry? then NoEntry
    else if entries.key == key then entries.rest
    else Entry(entries.key, entries.value, Remove(entries.rest, key))
  }

  /** No mapping inside the value repeats a key. */
  predicate WellFormed(value: Value) {
    match value
    case Leaf(_) => true
    case Mapping(entries) => EntriesWellFormed(entries)
    case Items(items, _) => ValuesWellFormed(items)
  }

  predicate EntriesWellFormed(entries: Entries) {
    entries.Entry? ==> !Has(entries.rest, entries.key) && WellFormed(entries.value) && EntriesWellFormed(entries.rest)
  }

  predicate ValuesWellFormed(items: Values) {
    items.More? ==> WellFormed(items.head) && ValuesWellFormed(items.tail)
  }

  // ------------------------------------------------------------------ key order

  predicate Leq(a: string, b: string) {
    a == "" || (b != "" && (a[0] < b[0] || (a[0] == b[0] && Leq(a[1..], b[1..]))))
  }

  lemma {:induction false} LeqIsTotal(a: string, b: string)
    ensures Leq(a, b) || Leq(b, a)
  {
    if a != "" && b != "" && a[0] == b[0] {
      LeqIsTotal(a[1..], b[1..]);
    }
  }

  function Insert(key: string, value: Value, entries: Entries): Entries {
    if entries.NoEntry? || Leq(key, entries.key) then Entry(key, value, entries)
    else Entry(entries.key, entries.value, Insert(key, value, entries.rest))
  }

  function SortEntries(entries: Entries): Entries {
    if entries.NoEntry? then NoEntry else Insert(entries.key, entries.value, SortEntries(entries.rest))
  }

  // ------------------------------------------------------------------ redaction

  const REDACTED: Value := Leaf(Text("<redacted>"))

  datatype Result = Result(value: Value, count: nat)
  datatype EntriesResult = EntriesResult(entries: Entries, count: nat)
  datatype ValuesResult = ValuesResult(items: Values, count: nat)

  /** Mappings come out in key order, lists and tuples as tuples; every secret counts once. */
  function Redact(value: Value, secret: KeyTest): Result {
    match value
    case Leaf(_) => Result(value, 0)
    case Mapping(entries) =>
      var output := RedactEntries(entries, secret);
      Result(Mapping(SortEntries(output.entries)), output.count)
    case Items(items, _) =>
      var output := RedactValues(items, secret);
      Result(Items(output.items, true), output.count)
  }

  function RedactEntries(entries: Entries, secret: KeyTest): EntriesResult {
    if entries.NoEntry? then EntriesResult(NoEntry, 0)
    else
      var rest := RedactEntries(entries.rest, secret);
      if secret(entries.key) then EntriesResult(Entry(entries.key, REDACTED, rest.entries), rest.count + 1)
      else
        var child := Redact(entries.value, secret);
        EntriesResult(Entry(entries.key, child.value, rest.entries), child.count + rest.count)
  }

  function RedactValues(items: Values, secret: KeyTest): ValuesResult {
    if items.NoValue? then ValuesResult(NoValue, 0)
    else
      var head, rest := Redact(items.head, secret), RedactValues(items.tail, secret);
      ValuesResult(More(head.value, rest.items), head.count + rest.count)
  }

  // ------------------------------------------------------------------ canonical documents

  /** What the canonical JSON text of a value determines, and what a digest therefore stands for. */
  datatype Doc = AtomDoc(atom: Atom) | MapDoc(fields: map<string, Doc>) | ListDoc(items: seq<Doc>)

  function JsonAtom(atom: Atom): Atom {
    if atom.Moment? then Text(atom.iso) else atom
  }

  function Canonical(value: Value): Doc {
    match value
    case Leaf(atom) => AtomDoc(JsonAtom(atom))
    case Mapping(entries) => MapDoc(CanonicalEntries(entries))
    case Items(items, _) => ListDoc(CanonicalValues(items))
  }

  function CanonicalEntries(entries: Entries): map<string, Doc> {
    if entries.NoEntry? then map[] else CanonicalEntries(entries.rest)[entries.key := Canonical(entries.value)]
  }

  function CanonicalValues(items: Values): seq<Doc> {
    if items.NoValue? then [] else [Canonical(items.head)] + CanonicalValues(items.tail)
  }

  /** The digest of a nullable value with secrets taken out, and how many there were. */
  datatype Digest = Digest(doc: Option<Doc>, count: nat)

  function RedactedDigest(value: Option<Value>, secret: KeyTest): Digest {
    if value.None? then Digest(None, 0)
    else
      var redacted := Redact(value.value, secret);
      Digest(Some(Canonical(redacted.value)), redacted.count)
  }

  // ------------------------------------------------------------------ agreement outside secrets

  /** Equal up to values under secret keys, key order, list or tuple, and timestamp or its text. */
  predicate LowEqual(v: Value, w: Value, secret: KeyTest) {
    match v
    case Leaf(atom) => w.Leaf? && JsonAtom(atom) == JsonAtom(w.atom)
    case Mapping(entries) => w.Mapping? && LowEqualEntries(entries, w.entries, secret)
    case Items(items, _) => w.Items? && LowEqualValues(items, w.items, secret)
  }

  predicate LowEqualEntries(e: Entries, f: Entries, secret: KeyTest)
    decreases e
  {
    match e
    case NoEntry => f.NoEntry?
    case Entry(key, value, rest) =>
      && Has(f, key) && (secret(key) || LowEqual(value, Get(f, key), secret))
      && LowEqualEntries(rest, Remove(f, key), secret)
  }

  predicate LowEqualValues(v: Values, w: Values, secret: KeyTest) {
    match v
    case NoValue => w.NoValue?
    case More(head, tail) => w.More? && LowEqual(head, w.head, secret) && LowEqualValues(tail, w.tail, secret)
  }

  // ------------------------------------------------------------------ sorting does not show in a document

  lemma {:induction false} InsertedEntry(key: string, value: Value, entries: Entries)
    requires !Has(entries, key) && EntriesUnique(entries)
    ensures CanonicalEntries(Insert(key, value, entries)) == CanonicalEntries(entries)[key := Canonical(value)]
    ensures EntriesUnique(Insert(key, value, entries))
    ensures forall k :: Has(Insert(key, value, entries), k) <==> k == key || Has(entries, k)
  {
    if entries.Entry? && !Leq(key, entries.key) {
      InsertedEntry(key, value, entries.rest);
      assert CanonicalEntries(Insert(key, value, entries))
          == CanonicalEntries(entries.rest)[key := Canonical(value)][entries.key := Canonical(entries.value)];
    }
  }

  predicate EntriesUnique(entries: Entries) {
    entries.Entry? ==> !Has(entries.rest, entries.key) && EntriesUnique(entries.rest)
  }

  lemma {:induction false} SortedEntries(entries: Entries)
    requires EntriesUnique(entries)
    ensures CanonicalEntries(SortEntries(entries)) == CanonicalEntries(entries)
    ensures EntriesUnique(SortEntries(entries))
    ensures forall k :: Has(SortEntries(entries), k) <==> Has(entries, k)
  {
    if entries.Entry? {
      SortedEntries(entries.rest);
      InsertedEntry(entries.key, entries.value, SortEntries(entries.rest));
    }
  }

  // ------------------------------------------------------------------ the document of a redacted value, without sorting

  function Masked(value: Value, secret: KeyTest): Doc
    decreases value, 0
  {
    match value
    case Leaf(atom) => AtomDoc(JsonAtom(atom))
    case Mapping(entries) => MapDoc(MaskedEntries(entries, secret))
    case Items(items, _) => ListDoc(MaskedValues(items, secret))
  }

  function MaskedAt(key: string, value: Value, secret: KeyTest): Doc
    decreases value, 1
  {
    if secret(key) then Canonical(REDACTED) else Masked(value, secret)
  }

  function MaskedEntries(entries: Entries, secret: KeyTest): map<string, Doc>
    decreases entries, 0
  {
    if entries.NoEntry? then map[]
    else
      MaskedEntries(entries.rest, secret)[entries.key := MaskedAt(entries.key, entries.value, secret)]
  }

  function MaskedValues(items: Values, secret: KeyTest): seq<Doc>
    decreases items, 0
  {
    if items.NoValue? then [] else [Masked(items.head, secret)] + MaskedValues(items.tail, secret)
  }

  lemma {:induction false} RedactedIsMasked(value: Value, secret: KeyTest)
    requires WellFormed(value)
    ensures Canonical(Redact(value, secret).value) == Masked(value, secret)
    decreases value
  {
    match value
    case Leaf(_) =>
    case Mapping(entries) =>
      RedactedEntriesAreMasked(entries, secret);
      SortedEntries(RedactEntries(entries, secret).entries);
    case Items(items, _) => RedactedValuesAreMasked(items, secret);
  }

  lemma {:induction false} RedactedEntriesAreMasked(entries: Entries, secret: KeyTest)
    requires EntriesWellFormed(entries)
    ensures CanonicalEntries(RedactEntries(entries, secret).entries) == MaskedEntries(entries, secret)
    ensures EntriesUnique(RedactEntries(entries, secret).entries)
    ensures forall k :: Has(RedactEntries(entries, secret).entries, k) <==> Has(entries, k)
    decreases entries
  {
    if entries.Entry? {
      RedactedEntriesAreMasked(entries.rest, secret);
      if !secret(entries.key) {
        RedactedIsMasked(entries.value, secret);
      }
    }
  }

  lemma {:induction false} RedactedValuesAreMasked(items: Values, secret: KeyTest)
    requires ValuesWellFormed(items)
    ensures CanonicalValues(RedactValues(items, secret).items) == MaskedValues(items, secret)
    decreases items
  {
    if items.More? {
      RedactedIsMasked(items.head, secret);
      RedactedValuesAreMasked(items.tail, secret);
    }
  }

  // ------------------------------------------------------------------ taking one key out of a mapping

  lemma {:induction false} RemovedKey(entries: Entries, key: string, secret: KeyTest)
    requires EntriesWellFormed(entries) && Has(entries, key)
    ensures EntriesWellFormed(Remove(entries, key)) && WellFormed(Get(entries, key))
    ensures !Has(Remove(entries, key), key)
    ensures forall k :: k != key ==> (Has(Remove(entries, key), k) <==> Has(entries, k))
    ensures MaskedEntries(entries, secret)
         == MaskedEntries(Remove(entries, key), secret)[key := MaskedAt(key, Get(entries, key), secret)]
  {
    if entries.key != key {
      RemovedKey(entries.rest, key, secret);
      var inner := MaskedEntries(Remove(entries.rest, key), secret);
      assert inner[key := MaskedAt(key, Get(entries, key), secret)][entries.key := MaskedAt(entries.key, entries.value, secret)]
          == inner[entries.key := MaskedAt(entries.key, entries.value, secret)][key := MaskedAt(key, Get(entries, key), secret)];
    }
  }

  lemma {:induction false} MaskedKeys(entries: Entries, secret: KeyTest)
    ensures forall k :: k in MaskedEntries(entries, secret) <==> Has(entries, k)
  {
    if entries.Entry? {
      MaskedKeys(entries.rest, secret);
    }
  }

  lemma {:induction false} RemovedCount(entries: Entries, key: string, secret: KeyTest)
    requires Has(entries, key)
    ensures RedactEntries(entries, secret).count
         == RedactEntries(Remove(entries, key), secret).count
            + (if secret(key) then 1 else Redact(Get(entries, key), secret).count)
  {
    if entries.key != key {
      RemovedCount(entries.rest, key, secret);
    }
  }

  // ------------------------------------------------------------------ non-interference, both directions

  /** Two values have the same redacted document exactly when they agree outside secrets. */
  lemma {:induction false} MaskedEqualExactly(v: Value, w: Value, secret: KeyTest)
    requires WellFormed(v) && WellFormed(w)
    ensures Masked(v, secret) == Masked(w, secret) <==> LowEqual(v, w, secret)
    decreases v
  {
    match v
    case Leaf(_) =>
    case Mapping(entries) =>
      if w.Mapping? {
        MaskedEntriesEqualExactly(entries, w.entries, secret);
      }
    case Items(items, _) =>
      if w.Items? {
        MaskedValuesEqualExactly(items, w.items, secret);
      }
  }

  lemma {:induction false} MaskedEntriesEqualExactly(e: Entries, f: Entries, secret: KeyTest)
    requires EntriesWellFormed(e) && EntriesWellFormed(f)
    ensures MaskedEntries(e, secret) == MaskedEntries(f, secret) <==> LowEqualEntries(e, f, secret)
    decreases e
  {
    MaskedKeys(e, secret);
    MaskedKeys(f, secret);
    match e
    case NoEntry =>
      assert f.Entry? ==> f.key in MaskedEntries(f, secret);
    case Entry(key, value, rest) =>
      if Has(f, key) {
        var others := Remove(f, key);
        RemovedKey(f, key, secret);
        MaskedEntriesEqualExactly(rest, others, secret);
        MaskedEqualExactly(value, Get(f, key), secret);
        MaskedKeys(rest, secret);
        MaskedKeys(others, secret);
        UpdatesEqualExactly(MaskedEntries(rest, secret), MaskedEntries(others, secret), key,
                            MaskedAt(key, value, secret), MaskedAt(key, Get(f, key), secret));
      } else {
        assert key in MaskedEntries(e, secret) && key !in MaskedEntries(f, secret);
      }
  }

  lemma {:induction false} MaskedValuesEqualExactly(v: Values, w: Values, secret: KeyTest)
    requires ValuesWellFormed(v) && ValuesWellFormed(w)
    ensures MaskedValues(v, secret) == MaskedValues(w, secret) <==> LowEqualValues(v, w, secret)
    decreases v
  {
    if v.More? && w.More? {
      MaskedEqualExactly(v.head, w.head, secret);
      MaskedValuesEqualExactly(v.tail, w.tail, secret);
      var left, right := MaskedValues(v, secret), MaskedValues(w, secret);
      assert left[0] == Masked(v.head, secret) && right[0] == Masked(w.head, secret);
      assert left[1..] == MaskedValues(v.tail, secret) && right[1..] == MaskedValues(w.tail, secret);
    }
  }

  lemma {:induction false} LowEqualCounts(v: Value, w: Value, secret: KeyTest)
    requires LowEqual(v, w, secret)
    ensures Redact(v, secret).count == Redact(w, secret).count
    decreases v
  {
    match v
    case Leaf(_) =>
    case Mapping(entries) => LowEqualEntriesCounts(entries, w.entries, secret);
    case Items(items, _) => LowEqualValuesCounts(items, w.items, secret);
  }

  lemma {:induction false} LowEqualEntriesCounts(e: Entries, f: Entries, secret: KeyTest)
    requires LowEqualEntries(e, f, secret)
    ensures RedactEntries(e, secret).count == RedactEntries(f, secret).count
    decreases e
  {
    if e.Entry? {
      RemovedCount(f, e.key, secret);
      LowEqualEntriesCounts(e.rest, Remove(f, e.key), secret);
      if !secret(e.key) {
        LowEqualCounts(e.value, Get(f, e.key), secret);
      }
    }
  }

  lemma {:induction false} LowEqualValuesCounts(v: Values, w: Values, secret: KeyTest)
    requires LowEqualValues(v, w, secret)
    ensures RedactValues(v, secret).count == RedactValues(w, secret).count
    decreases v
  {
    if v.More? {
      LowEqualCounts(v.head, w.head, secret);
      LowEqualValuesCounts(v.tail, w.tail, secret);
    }
  }

  /** Nullable values: both absent, or both present and equal outside secrets. */
  predicate LowEqualOption(v: Option<Value>, w: Option<Value>, secret: KeyTest) {
    v.Some? == w.Some? && (v.Some? ==> LowEqual(v.value, w.value, secret))
  }

  predicate OptionWellFormed(v: Option<Value>) {
    v.Some? ==> WellFormed(v.value)
  }

  /**
    Two runs: redacted digests and their counts are equal exactly when the values agree outside secrets. Key order and
    the list or tuple distinction never show; any other difference outside secrets always does.
   */
  lemma DigestsEqualExactlyOutsideSecrets(v: Option<Value>, w: Option<Value>, secret: KeyTest)
    requires OptionWellFormed(v) && OptionWellFormed(w)
    ensures RedactedDigest(v, secret).doc == RedactedDigest(w, secret).doc <==> LowEqualOption(v, w, secret)
    ensures LowEqualOption(v, w, secret) ==> RedactedDigest(v, secret) == RedactedDigest(w, secret)
  {
    if v.Some? && w.Some? {
      RedactedIsMasked(v.value, secret);
      RedactedIsMasked(w.value, secret);
      MaskedEqualExactly(v.value, w.value, secret);
      if LowEqual(v.value, w.value, secret) {
        LowEqualCounts(v.value, w.value, secret);
      }
    }
  }

  // ------------------------------------------------------------------ idempotence

  predicate AllSorted(entries: Entries) {
    entries.Entry? ==> (entries.rest.Entry? ==> Leq(entries.key, entries.rest.key)) && AllSorted(entries.rest)
  }

  lemma {:induction false} InsertKeepsSorted(key: string, value: Value, entries: Entries)
    requires AllSorted(entries)
    ensures AllSorted(Insert(key, value, entries))
  {
    if entries.Entry? && !Leq(key, entries.key) {
      LeqIsTotal(key, entries.key);
      InsertKeepsSorted(key, value, entries.rest);
    }
  }

  lemma {:induction false} SortSorts(entries: Entries)
    ensures AllSorted(SortEntries(entries))
  {
    if entries.Entry? {
      SortSorts(entries.rest);
      InsertKeepsSorted(entries.key, entries.value, SortEntries(entries.rest));
    }
  }

  lemma {:induction false} SortOfSorted(entries: Entries)
    requires AllSorted(entries)
    ensures SortEntries(entries) == entries
  {
    if entries.Entry? {
      SortOfSorted(entries.rest);
    }
  }

  /** Every entry of a redacted mapping redacts to itself. */
  predicate FixedEntries(entries: Entries, secret: KeyTest) {
    entries.Entry? ==>
      && (if secret(entries.key) then entries.value == REDACTED else Redact(entries.value, secret).value == entries.value)
      && FixedEntries(entries.rest, secret)
  }

  lemma {:induction false} InsertKeepsFixed(key: string, value: Value, entries: Entries, secret: KeyTest)
    requires FixedEntries(entries, secret)
    requires if secret(key) then value == REDACTED else Redact(value, secret).value == value
    ensures FixedEntries(Insert(key, value, entries), secret)
  {
    if entries.Entry? && !Leq(key, entries.key) {
      InsertKeepsFixed(key, value, entries.rest, secret);
    }
  }

  lemma {:induction false} SortKeepsFixed(entries: Entries, secret: KeyTest)
    requires FixedEntries(entries, secret)
    ensures FixedEntries(SortEntries(entries), secret)
  {
    if entries.Entry? {
      SortKeepsFixed(entries.rest, secret);
      InsertKeepsFixed(entries.key, entries.value, SortEntries(entries.rest), secret);
    }
  }

  lemma {:induction false} FixedAreUnchanged(entries: Entries, secret: KeyTest)
    requires FixedEntries(entries, secret)
    ensures RedactEntries(entries, secret).entries == entries
  {
    if entries.Entry? {
      FixedAreUnchanged(entries.rest, secret);
    }
  }

  /** Redacting a redacted value changes nothing. */
  lemma {:induction false} RedactIsIdempotent(value: Value, secret: KeyTest)
    ensures Redact(Redact(value, secret).value, secret).value == Redact(value, secret).value
    decreases value
  {
    match value
    case Leaf(_) =>
    case Mapping(entries) =>
      var output := RedactEntries(entries, secret).entries;
      RedactedEntriesAreFixed(entries, secret);
      SortKeepsFixed(output, secret);
      FixedAreUnchanged(SortEntries(output), secret);
      SortSorts(output);
      SortOfSorted(SortEntries(output));
    case Items(items, _) => RedactedValuesAreFixed(items, secret);
  }

  lemma {:induction false} RedactedEntriesAreFixed(entries: Entries, secret: KeyTest)
    ensures FixedEntries(RedactEntries(entries, secret).entries, secret)
    decreases entries
  {
    if entries.Entry? {
      RedactedEntriesAreFixed(entries.rest, secret);
      if !secret(entries.key) {
        RedactIsIdempotent(entries.value, secret);
      }
    }
  }

  lemma {:induction false} RedactedValuesAreFixed(items: Values, secret: KeyTest)
    ensures RedactValues(RedactValues(items, secret).items, secret).items == RedactValues(items, secret).items
    decreases items
  {
    if items.More? {
      RedactIsIdempotent(items.head, secret);
      RedactedValuesAreFixed(items.tail, secret);
    }
  }

  // ------------------------------------------------------------------ what is counted

  /** The entries under secret keys, those inside a secret not counted again. */
  function SecretEntries(value: Value, secret: KeyTest): nat {
    match value
    case Leaf(_) => 0
    case Mapping(entries) => SecretsAmong(entries, secret)
    case Items(items, _) => SecretsInside(items, secret)
  }

  function SecretsAmong(entries: Entries, secret: KeyTest): nat {
    if entries.NoEntry? then 0
    else (if secret(entries.key) then 1 else SecretEntries(entries.value, secret)) + SecretsAmong(entries.rest, secret)
  }

  function SecretsInside(items: Values, secret: KeyTest): nat {
    if items.NoValue? then 0 else SecretEntries(items.head, secret) + SecretsInside(items.tail, secret)
  }

  /** The count of a redaction is the number of entries under secret keys; what is redacted has as many as before. */
  lemma {:induction false} CountIsSecretEntries(value: Value, secret: KeyTest)
    ensures Redact(value, secret).count == SecretEntries(value, secret)
    ensures SecretEntries(Redact(value, secret).value, secret) == SecretEntries(value, secret)
    decreases value
  {
    match value
    case Leaf(_) =>
    case Mapping(entries) =>
      CountIsSecretsAmong(entries, secret);
      SortKeepsSecrets(RedactEntries(entries, secret).entries, secret);
    case Items(items, _) => CountIsSecretsInside(items, secret);
  }

  lemma {:induction false} CountIsSecretsAmong(entries: Entries, secret: KeyTest)
    ensures RedactEntries(entries, secret).count == SecretsAmong(entries, secret)
    ensures SecretsAmong(RedactEntries(entries, secret).entries, secret) == SecretsAmong(entries, secret)
    decreases entries
  {
    if entries.Entry? {
      CountIsSecretsAmong(entries.rest, secret);
      if !secret(entries.key) {
        CountIsSecretEntries(entries.value, secret);
      }
    }
  }

  lemma {:induction false} CountIsSecretsInside(items: Values, secret: KeyTest)
    ensures RedactValues(items, secret).count == SecretsInside(items, secret)
    ensures SecretsInside(RedactValues(items, secret).items, secret) == SecretsInside(items, secret)
    decreases items
  {
    if items.More? {
      CountIsSecretEntries(items.head, secret);
      CountIsSecretsInside(items.tail, secret);
    }
  }

  lemma {:induction false} SortKeepsSecrets(entries: Entries, secret: KeyTest)
    ensures SecretsAmong(SortEntries(entries), secret) == SecretsAmong(entries, secret)
  {
    if entries.Entry? {
      SortKeepsSecrets(entries.rest, secret);
      InsertAddsSecrets(entries.key, entries.value, SortEntries(entries.rest), secret);
    }
  }

  lemma {:induction false} InsertAddsSecrets(key: string, value: Value, entries: Entries, secret: KeyTest)
    ensures SecretsAmong(Insert(key, value, entries), secret)
         == SecretsAmong(entries, secret) + (if secret(key) then 1 else SecretEntries(value, secret))
  {
    if entries.Entry? && !Leq(key, entries.key) {
      InsertAddsSecrets(key, value, entries.rest, secret);
    }
  }
}
