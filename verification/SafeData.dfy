/** The shared secret walk: listing, rejecting and redacting values under secret keys. */
module SafeData {
  import opened Wrappers
  import opened Whitespace

  /** A safe reference is an opaque handle; it is kept even under a secret key. */
  datatype Value =
    | Leaf(text: string)
    | Reference(handle: string)
    | Mapping(entries: Entries)
    | Items(items: Values, tuple: bool)

  datatype Entries = NoEntry | Entry(key: string, value: Value, rest: Entries)

  datatype Values = NoValue | More(head: Value, tail: Values)

  type KeyTest = string -> bool

  datatype Part = Key(key: string) | Index(index: nat)

  type Path = seq<Part>

  const REDACTED: Value := Leaf("[REDACTED]")

  // ------------------------------------------------------------------ secret keys

  const SENSITIVE_KEYS: set<string> :=
    {"authorization", "proxy_authorization", "api_key", "apikey", "access_token", "refresh_token", "token", "secret",
     "password", "cookie", "set_cookie", "session", "client_secret", "session_token", "raw_secret", "secret_value",
     "credential", "openai_api_key", "anthropic_api_key"}

  function Trim(s: string): string {
    if s == "" then ""
    else if White(s[0]) then Trim(s[1..])
    else if White(s[|s| - 1]) then Trim(s[..|s| - 1])
    else s
  }

  function Fold(c: char): char {
    if 'A' <= c <= 'Z' then c + 32 as char else if c == '-' then '_' else c
  }

  function NormalizeKey(key: string): string {
    var trimmed := Trim(key);
    seq(|trimmed|, i requires 0 <= i < |trimmed| => Fold(trimmed[i]))
  }

  predicate SensitiveKey(key: string) {
    NormalizeKey(key) in SENSITIVE_KEYS
  }

  // ------------------------------------------------------------------ the walk

  predicate Masks(key: string, value: Value, secret: KeyTest) {
    secret(key) && !value.Reference?
  }

  /** Paths of the secrets, in walking order. */
  function Paths(value: Value, path: Path, secret: KeyTest): seq<Path> {
    match value
    case Mapping(entries) => EntryPaths(entries, path, secret)
    case Items(items, _) => ItemPaths(items, path, 0, secret)
    case _ => []
  }

  function EntryPaths(entries: Entries, path: Path, secret: KeyTest): seq<Path> {
    if entries.NoEntry? then []
    else
      var child := path + [Key(entries.key)];
      (if Masks(entries.key, entries.value, secret) then [child] else Paths(entries.value, child, secret))
      + EntryPaths(entries.rest, path, secret)
  }

  function ItemPaths(items: Values, path: Path, index: nat, secret: KeyTest): seq<Path> {
    if items.NoValue? then []
    else Paths(items.head, path + [Index(index)], secret) + ItemPaths(items.tail, path, index + 1, secret)
  }

  /** The structure the walk rebuilds: secrets replaced when redacting, left out otherwise. */
  function Clean(value: Value, redact: bool, secret: KeyTest): Value {
    match value
    case Mapping(entries) => Mapping(CleanEntries(entries, redact, secret))
    case Items(items, tuple) => Items(CleanItems(items, redact, secret), tuple)
    case _ => value
  }

  function CleanEntries(entries: Entries, redact: bool, secret: KeyTest): Entries {
    if entries.NoEntry? then NoEntry
    else
      var rest := CleanEntries(entries.rest, redact, secret);
      if !Masks(entries.key, entries.value, secret) then Entry(entries.key, Clean(entries.value, redact, secret), rest)
      else if redact then Entry(entries.key, REDACTED, rest)
      else rest
  }

  function CleanItems(items: Values, redact: bool, secret: KeyTest): Values {
    if items.NoValue? then NoValue else More(Clean(items.head, redact, secret), CleanItems(items.tail, redact, secret))
  }

  /** One walk over a payload: it rebuilds the value and appends to a shared list of paths. */
  class Collector {
    const secret: KeyTest
    const redact: bool
    var found: seq<Path>

    constructor (secret: KeyTest, redact: bool)
      ensures this.secret == secret && this.redact == redact && found == []
    {
      this.secret := secret;
      this.redact := redact;
      this.found := [];
    }

    method Collect(value: Value, path: Path) returns (cleaned: Value)
      modifies this`found
      ensures found == old(found) + Paths(value, path, secret)
      ensures cleaned == Clean(value, redact, secret)
      decreases value
    {
      match value {
        case Mapping(entries) =>
          var output := CollectEntries(entries, path);
          cleaned := Mapping(output);
        case Items(items, tuple) =>
          var output := CollectItems(items, path, 0);
          cleaned := Items(output, tuple);
        case _ => cleaned := value;
      }
    }

    method CollectEntries(entries: Entries, path: Path) returns (cleaned: Entries)
      modifies this`found
      ensures found == old(found) + EntryPaths(entries, path, secret)
      ensures cleaned == CleanEntries(entries, redact, secret)
      decreases entries
    {
      if entries.NoEntry? {
        return NoEntry;
      }
      var child := path + [Key(entries.key)];
      if Masks(entries.key, entries.value, secret) {
        found := found + [child];
        var rest := CollectEntries(entries.rest, path);
        return if redact then Entry(entries.key, REDACTED, rest) else rest;
      }
      var value := Collect(entries.value, child);
      var rest := CollectEntries(entries.rest, path);
      return Entry(entries.key, value, rest);
    }

    method CollectItems(items: Values, path: Path, index: nat) returns (cleaned: Values)
      modifies this`found
      ensures found == old(found) + ItemPaths(items, path, index, secret)
      ensures cleaned == CleanItems(items, redact, secret)
      decreases items
    {
      if items.NoValue? {
        return NoValue;
      }
      var head := Collect(items.head, path + [Index(index)]);
      var tail := CollectItems(items.tail, path, index + 1);
      return More(head, tail);
    }
  }

  // ------------------------------------------------------------------ entry points

  datatype Rejection = Accepted(value: Value) | SecretMaterial(paths: seq<Path>)

  /** Rejects exactly when a secret is found, and otherwise returns the payload unchanged. */
  method RejectSecretKeys(payload: Value, secret: KeyTest) returns (result: Rejection)
    ensures result == if Paths(payload, [], secret) == [] then Accepted(payload) else SecretMaterial(Paths(payload, [], secret))
  {
    var collector := new Collector(secret, false);
    var cleaned := collector.Collect(payload, []);
    if collector.found != [] {
      return SecretMaterial(collector.found);
    }
    CleanKeepsExactlyTheClean(payload, [], secret);
    return Accepted(cleaned);
  }

  /** Redacts; a second pass would change nothing and would still find every secret where it was. */
  method RedactSecretKeys(payload: Value, secret: KeyTest) returns (redacted: Value)
    ensures redacted == Clean(payload, true, secret)
    ensures Clean(redacted, true, secret) == redacted && Paths(redacted, [], secret) == Paths(payload, [], secret)
  {
    var collector := new Collector(secret, true);
    redacted := collector.Collect(payload, []);
    RedactionIsStable(payload, [], secret);
  }

  /** A payload that must be a mapping, checked with the fixed key list. */
  method RequireMappingWithoutSecrets(payload: Value) returns (result: Option<Rejection>)
    ensures result.None? <==> !payload.Mapping?
    ensures result.Some? && result.value.Accepted? <==> payload.Mapping? && Paths(payload, [], SensitiveKey) == []
    ensures result.Some? && result.value.Accepted? ==> result.value.value == payload
  {
    if !payload.Mapping? {
      return None;
    }
    var rejection := RejectSecretKeys(payload, SensitiveKey);
    return Some(rejection);
  }

  // ------------------------------------------------------------------ laws

  /** Redaction is idempotent and keeps the list of secret paths. */
  lemma {:induction false} RedactionIsStable(value: Value, path: Path, secret: KeyTest)
    ensures Clean(Clean(value, true, secret), true, secret) == Clean(value, true, secret)
    ensures Paths(Clean(value, true, secret), path, secret) == Paths(value, path, secret)
    decreases value
  {
    match value
    case Mapping(entries) => EntryRedactionIsStable(entries, path, secret);
    case Items(items, _) => ItemRedactionIsStable(items, path, 0, secret);
    case _ =>
  }

  lemma {:induction false} EntryRedactionIsStable(entries: Entries, path: Path, secret: KeyTest)
    ensures CleanEntries(CleanEntries(entries, true, secret), true, secret) == CleanEntries(entries, true, secret)
    ensures EntryPaths(CleanEntries(entries, true, secret), path, secret) == EntryPaths(entries, path, secret)
    decreases entries
  {
    if entries.Entry? {
      EntryRedactionIsStable(entries.rest, path, secret);
      if !Masks(entries.key, entries.value, secret) {
        RedactionIsStable(entries.value, path + [Key(entries.key)], secret);
      }
    }
  }

  lemma {:induction false} ItemRedactionIsStable(items: Values, path: Path, index: nat, secret: KeyTest)
    ensures CleanItems(CleanItems(items, true, secret), true, secret) == CleanItems(items, true, secret)
    ensures ItemPaths(CleanItems(items, true, secret), path, index, secret) == ItemPaths(items, path, index, secret)
    decreases items
  {
    if items.More? {
      RedactionIsStable(items.head, path + [Index(index)], secret);
      ItemRedactionIsStable(items.tail, path, index + 1, secret);
    }
  }

  /** Equal up to non-reference values under secret keys. */
  predicate LowEqual(v: Value, w: Value, secret: KeyTest) {
    match v
    case Mapping(entries) => w.Mapping? && LowEqualEntries(entries, w.entries, secret)
    case Items(items, tuple) => w.Items? && w.tuple == tuple && LowEqualItems(items, w.items, secret)
    case _ => v == w
  }

  predicate LowEqualEntries(e: Entries, f: Entries, secret: KeyTest) {
    match e
    case NoEntry => f.NoEntry?
    case Entry(key, value, rest) =>
      && f.Entry? && f.key == key
      && (if Masks(key, value, secret) then Masks(key, f.value, secret)
          else !Masks(key, f.value, secret) && LowEqual(value, f.value, secret))
      && LowEqualEntries(rest, f.rest, secret)
  }

  predicate LowEqualItems(v: Values, w: Values, secret: KeyTest) {
    match v
    case NoValue => w.NoValue?
    case More(head, tail) => w.More? && LowEqual(head, w.head, secret) && LowEqualItems(tail, w.tail, secret)
  }

  /** Two payloads redact to the same result exactly when they differ at most in secrets; then they list the same paths. */
  lemma {:induction false} RedactedEqualExactly(v: Value, w: Value, path: Path, secret: KeyTest)
    ensures Clean(v, true, secret) == Clean(w, true, secret) <==> LowEqual(v, w, secret)
    ensures LowEqual(v, w, secret) ==> Paths(v, path, secret) == Paths(w, path, secret)
    decreases v
  {
    match v
    case Mapping(entries) =>
      if w.Mapping? {
        RedactedEntriesEqualExactly(entries, w.entries, path, secret);
      }
    case Items(items, _) =>
      if w.Items? {
        RedactedItemsEqualExactly(items, w.items, path, 0, secret);
      }
    case _ =>
  }

  lemma {:induction false} RedactedEntriesEqualExactly(e: Entries, f: Entries, path: Path, secret: KeyTest)
    ensures CleanEntries(e, true, secret) == CleanEntries(f, true, secret) <==> LowEqualEntries(e, f, secret)
    ensures LowEqualEntries(e, f, secret) ==> EntryPaths(e, path, secret) == EntryPaths(f, path, secret)
    decreases e
  {
    if e.Entry? && f.Entry? {
      RedactedEntriesEqualExactly(e.rest, f.rest, path, secret);
      RedactedEqualExactly(e.value, f.value, path + [Key(e.key)], secret);
    }
  }

  lemma {:induction false} RedactedItemsEqualExactly(v: Values, w: Values, path: Path, index: nat, secret: KeyTest)
    ensures CleanItems(v, true, secret) == CleanItems(w, true, secret) <==> LowEqualItems(v, w, secret)
    ensures LowEqualItems(v, w, secret) ==> ItemPaths(v, path, index, secret) == ItemPaths(w, path, index, secret)
    decreases v
  {
    if v.More? && w.More? {
      RedactedEqualExactly(v.head, w.head, path + [Index(index)], secret);
      RedactedItemsEqualExactly(v.tail, w.tail, path, index + 1, secret);
    }
  }

  // ------------------------------------------------------------------ equality of dictionaries

  /** What Python's `==` compares: dictionaries without their order, lists and tuples apart. */
  datatype Doc = LeafDoc(text: string) | ReferenceDoc(handle: string) | MapDoc(fields: map<string, Doc>) | ListDoc(items: seq<Doc>, tuple: bool)

  function Canonical(value: Value): Doc {
    match value
    case Leaf(text) => LeafDoc(text)
    case Reference(handle) => ReferenceDoc(handle)
    case Mapping(entries) => MapDoc(CanonicalEntries(entries))
    case Items(items, tuple) => ListDoc(CanonicalItems(items), tuple)
  }

  function CanonicalEntries(entries: Entries): map<string, Doc> {
    if entries.NoEntry? then map[] else CanonicalEntries(entries.rest)[entries.key := Canonical(entries.value)]
  }

  function CanonicalItems(items: Values): seq<Doc> {
    if items.NoValue? then [] else [Canonical(items.head)] + CanonicalItems(items.tail)
  }

  predicate Has(entries: Entries, key: string) {
    entries.Entry? && (entries.key == key || Has(entries.rest, key))
  }

  function Get(entries: Entries, key: string): Value
    requires Has(entries, key)
  {
    if entries.key == key then entries.value else Get(entries.rest, key)
  }

  function Remove(entries: Entries, key: string): Entries {
    if entries.NoEntry? then NoEntry
    else if entries.key == key then entries.rest
    else Entry(entries.key, entries.value, Remove(entries.rest, key))
  }

  /** No mapping inside the value repeats a key. */
  predicate WellFormed(value: Value) {
    match value
    case Mapping(entries) => EntriesWellFormed(entries)
    case Items(items, _) => ItemsWellFormed(items)
    case _ => true
  }

  predicate EntriesWellFormed(entries: Entries) {
    entries.Entry? ==> !Has(entries.rest, entries.key) && WellFormed(entries.value) && EntriesWellFormed(entries.rest)
  }

  predicate ItemsWellFormed(items: Values) {
    items.More? ==> WellFormed(items.head) && ItemsWellFormed(items.tail)
  }

  /** Equal up to key order and to non-reference values under secret keys. */
  predicate SameOutside(v: Value, w: Value, secret: KeyTest) {
    match v
    case Mapping(entries) => w.Mapping? && SameEntries(entries, w.entries, secret)
    case Items(items, tuple) => w.Items? && w.tuple == tuple && SameItems(items, w.items, secret)
    case _ => v == w
  }

  predicate SameEntries(e: Entries, f: Entries, secret: KeyTest)
    decreases e
  {
    match e
    case NoEntry => f.NoEntry?
    case Entry(key, value, rest) =>
      && Has(f, key)
      && (if Masks(key, value, secret) then Masks(key, Get(f, key), secret)
          else !Masks(key, Get(f, key), secret) && SameOutside(value, Get(f, key), secret))
      && SameEntries(rest, Remove(f, key), secret)
  }

  predicate SameItems(v: Values, w: Values, secret: KeyTest) {
    match v
    case NoValue => w.NoValue?
    case More(head, tail) => w.More? && SameOutside(head, w.head, secret) && SameItems(tail, w.tail, secret)
  }

  function CleanDoc(entries: Entries, secret: KeyTest): map<string, Doc> {
    CanonicalEntries(CleanEntries(entries, true, secret))
  }

  function CleanAt(key: string, value: Value, secret: KeyTest): Doc {
    Canonical(if Masks(key, value, secret) then REDACTED else Clean(value, true, secret))
  }

  lemma {:induction false} CleanDocKeys(entries: Entries, secret: KeyTest)
    ensures forall k :: k in CleanDoc(entries, secret) <==> Has(entries, k)
  {
    if entries.Entry? {
      CleanDocKeys(entries.rest, secret);
    }
  }

  lemma {:induction false} TakenOut(entries: Entries, key: string, secret: KeyTest)
    requires EntriesWellFormed(entries) && Has(entries, key)
    ensures EntriesWellFormed(Remove(entries, key)) && WellFormed(Get(entries, key)) && !Has(Remove(entries, key), key)
    ensures forall k :: k != key ==> (Has(Remove(entries, key), k) <==> Has(entries, k))
    ensures CleanDoc(entries, secret) == CleanDoc(Remove(entries, key), secret)[key := CleanAt(key, Get(entries, key), secret)]
  {
    if entries.key != key {
      TakenOut(entries.rest, key, secret);
      var inner := CleanDoc(Remove(entries.rest, key), secret);
      var here, there := CleanAt(entries.key, entries.value, secret), CleanAt(key, Get(entries, key), secret);
      assert inner[key := there][entries.key := here] == inner[entries.key := here][key := there];
    }
  }

  /** A cleaned field equals another exactly when both are masked, or neither is and they are the same outside secrets. */
  lemma FieldsEqualExactly(key: string, v: Value, w: Value, secret: KeyTest)
    requires Canonical(Clean(v, true, secret)) == Canonical(Clean(w, true, secret)) <==> SameOutside(v, w, secret)
    requires !(secret(key) && (v.Reference? != w.Reference?))
    ensures CleanAt(key, v, secret) == CleanAt(key, w, secret) <==>
            if Masks(key, v, secret) then Masks(key, w, secret) else !Masks(key, w, secret) && SameOutside(v, w, secret)
  {
  }

  lemma ReferenceIsNotRedacted(key: string, v: Value, w: Value, secret: KeyTest)
    requires secret(key) && v.Reference? != w.Reference?
    ensures CleanAt(key, v, secret) != CleanAt(key, w, secret)
  {
  }

  /** Two payloads redact to equal structures exactly when they are equal outside secrets, whatever their key order. */
  lemma {:induction false} RedactedSameExactly(v: Value, w: Value, secret: KeyTest)
    requires WellFormed(v) && WellFormed(w)
    ensures Canonical(Clean(v, true, secret)) == Canonical(Clean(w, true, secret)) <==> SameOutside(v, w, secret)
    decreases v
  {
    match v
    case Mapping(entries) =>
      if w.Mapping? {
        RedactedSameEntries(entries, w.entries, secret);
      }
    case Items(items, _) =>
      if w.Items? {
        RedactedSameItems(items, w.items, secret);
      }
    case _ =>
  }

  lemma {:induction false} RedactedSameEntries(e: Entries, f: Entries, secret: KeyTest)
    requires EntriesWellFormed(e) && EntriesWellFormed(f)
    ensures CleanDoc(e, secret) == CleanDoc(f, secret) <==> SameEntries(e, f, secret)
    decreases e
  {
    CleanDocKeys(e, secret);
    CleanDocKeys(f, secret);
    match e
    case NoEntry =>
      assert f.Entry? ==> f.key in CleanDoc(f, secret);
    case Entry(key, value, rest) =>
      if Has(f, key) {
        var others, other := Remove(f, key), Get(f, key);
        TakenOut(f, key, secret);
        RedactedSameEntries(rest, others, secret);
        RedactedSameExactly(value, other, secret);
        CleanDocKeys(rest, secret);
        CleanDocKeys(others, secret);
        if secret(key) && value.Reference? != other.Reference? {
          ReferenceIsNotRedacted(key, value, other, secret);
        } else {
          FieldsEqualExactly(key, value, other, secret);
        }
        UpdatesEqualExactly(CleanDoc(rest, secret), CleanDoc(others, secret), key,
                            CleanAt(key, value, secret), CleanAt(key, other, secret));
      } else {
        assert key in CleanDoc(e, secret) && key !in CleanDoc(f, secret);
      }
  }

  lemma {:induction false} RedactedSameItems(v: Values, w: Values, secret: KeyTest)
    requires ItemsWellFormed(v) && ItemsWellFormed(w)
    ensures CanonicalItems(CleanItems(v, true, secret)) == CanonicalItems(CleanItems(w, true, secret)) <==> SameItems(v, w, secret)
    decreases v
  {
    if v.More? && w.More? {
      RedactedSameExactly(v.head, w.head, secret);
      RedactedSameItems(v.tail, w.tail, secret);
      var left, right := CanonicalItems(CleanItems(v, true, secret)), CanonicalItems(CleanItems(w, true, secret));
      assert left[0] == Canonical(Clean(v.head, true, secret)) && right[0] == Canonical(Clean(w.head, true, secret));
      assert left[1..] == CanonicalItems(CleanItems(v.tail, true, secret));
      assert right[1..] == CanonicalItems(CleanItems(w.tail, true, secret));
    }
  }

  // ------------------------------------------------------------------ rejecting

  function Size(value: Value): nat {
    match value
    case Mapping(entries) => 1 + EntrySize(entries)
    case Items(items, _) => 1 + ItemSize(items)
    case _ => 1
  }

  function EntrySize(entries: Entries): nat {
    if entries.NoEntry? then 0 else Size(entries.value) + EntrySize(entries.rest)
  }

  function ItemSize(items: Values): nat {
    if items.NoValue? then 0 else Size(items.head) + ItemSize(items.tail)
  }

  /** Leaving secrets out returns an equal structure exactly when the walk finds none. */
  lemma {:induction false} CleanKeepsExactlyTheClean(value: Value, path: Path, secret: KeyTest)
    ensures Clean(value, false, secret) == value <==> Paths(value, path, secret) == []
    ensures Size(Clean(value, false, secret)) <= Size(value)
    decreases value
  {
    match value
    case Mapping(entries) => CleanEntriesKeepExactly(entries, path, secret);
    case Items(items, _) => CleanItemsKeepExactly(items, path, 0, secret);
    case _ =>
  }

  lemma {:induction false} CleanEntriesKeepExactly(entries: Entries, path: Path, secret: KeyTest)
    ensures CleanEntries(entries, false, secret) == entries <==> EntryPaths(entries, path, secret) == []
    ensures EntrySize(CleanEntries(entries, false, secret)) <= EntrySize(entries)
    decreases entries
  {
    if entries.Entry? {
      CleanEntriesKeepExactly(entries.rest, path, secret);
      CleanKeepsExactlyTheClean(entries.value, path + [Key(entries.key)], secret);
      if Masks(entries.key, entries.value, secret) {
        assert Size(entries.value) > 0;
        assert EntrySize(CleanEntries(entries, false, secret)) < EntrySize(entries);
      }
    }
  }

  lemma {:induction false} CleanItemsKeepExactly(items: Values, path: Path, index: nat, secret: KeyTest)
    ensures CleanItems(items, false, secret) == items <==> ItemPaths(items, path, index, secret) == []
    ensures ItemSize(CleanItems(items, false, secret)) <= ItemSize(items)
    decreases items
  {
    if items.More? {
      CleanKeepsExactlyTheClean(items.head, path + [Index(index)], secret);
      CleanItemsKeepExactly(items.tail, path, index + 1, secret);
    }
  }

  // ------------------------------------------------------------------ where the paths lead

  /** Following the path, one meets no masked value before the end, and one at the end. */
  predicate LeadsToSecret(value: Value, path: Path, secret: KeyTest)
    decreases value
  {
    match value
    case Mapping(entries) => path != [] && path[0].Key? && LeadsFromEntries(entries, path, secret)
    case Items(items, _) => path != [] && path[0].Index? && LeadsFromItem(items, path[0].index, path[1..], secret)
    case _ => false
  }

  predicate LeadsFromEntries(entries: Entries, path: Path, secret: KeyTest)
    requires path != [] && path[0].Key?
    decreases entries
  {
    entries.Entry?
    && ((entries.key == path[0].key
         && (if Masks(entries.key, entries.value, secret) then |path| == 1 else LeadsToSecret(entries.value, path[1..], secret)))
        || LeadsFromEntries(entries.rest, path, secret))
  }

  /** From the item `n` places on. */
  predicate LeadsFromItem(items: Values, n: nat, path: Path, secret: KeyTest)
    decreases items
  {
    items.More? && (if n == 0 then LeadsToSecret(items.head, path, secret) else LeadsFromItem(items.tail, n - 1, path, secret))
  }

  /** The walk lists exactly the paths that lead to a secret, each after the path it was started with. */
  lemma {:induction false} PathsLeadToSecrets(value: Value, start: Path, path: Path, secret: KeyTest)
    ensures start + path in Paths(value, start, secret) <==> LeadsToSecret(value, path, secret)
    ensures forall p :: p in Paths(value, start, secret) ==> start <= p
    decreases value
  {
    match value
    case Mapping(entries) => EntryPathsLead(entries, start, path, secret);
    case Items(items, _) => ItemPathsLead(items, start, 0, path, secret);
    case _ =>
  }

  lemma {:induction false} EntryPathsLead(entries: Entries, start: Path, path: Path, secret: KeyTest)
    ensures start + path in EntryPaths(entries, start, secret) <==>
            path != [] && path[0].Key? && LeadsFromEntries(entries, path, secret)
    ensures forall p: Path :: p in EntryPaths(entries, start, secret) ==> start <= p && |p| > |start| && p[|start|].Key?
    decreases entries
  {
    if entries.Entry? {
      EntryPathsLead(entries.rest, start, path, secret);
      FirstEntryLeads(entries, start, path, secret);
    }
  }

  /** The paths of one entry: its own, or those through its value. */
  lemma {:induction false} FirstEntryLeads(entries: Entries, start: Path, path: Path, secret: KeyTest)
    requires entries.Entry?
    ensures
      var child := start + [Key(entries.key)];
      var own := if Masks(entries.key, entries.value, secret) then [child] else Paths(entries.value, child, secret);
      && (start + path in own <==>
            path != [] && path[0] == Key(entries.key)
            && (if Masks(entries.key, entries.value, secret) then |path| == 1 else LeadsToSecret(entries.value, path[1..], secret)))
      && forall p :: p in own ==> child <= p
    decreases entries, 0
  {
    var child := start + [Key(entries.key)];
    if path != [] {
      assert start + path == start + [path[0]] + path[1..];
      PathsLeadToSecrets(entries.value, child, path[1..], secret);
      assert (start + path)[|start|] == path[0] && child[|start|] == Key(entries.key);
      if Masks(entries.key, entries.value, secret) && path[0] == Key(entries.key) {
        assert |path| == 1 ==> path == [path[0]];
        assert |start + path| == |start| + |path|;
      }
    } else {
      PathsLeadToSecrets(entries.value, child, [], secret);
      assert |start + path| < |child|;
    }
  }

  lemma {:induction false} ItemPathsLead(items: Values, start: Path, index: nat, path: Path, secret: KeyTest)
    ensures start + path in ItemPaths(items, start, index, secret) <==>
            path != [] && path[0].Index? && path[0].index >= index
            && LeadsFromItem(items, path[0].index - index, path[1..], secret)
    ensures forall p: Path :: p in ItemPaths(items, start, index, secret) ==>
                          start <= p && |p| > |start| && p[|start|].Index? && p[|start|].index >= index
    decreases items
  {
    if items.More? {
      var child := start + [Index(index)];
      ItemPathsLead(items.tail, start, index + 1, path, secret);
      if path != [] {
        assert start + path == start + [path[0]] + path[1..];
        PathsLeadToSecrets(items.head, child, path[1..], secret);
        assert (start + path)[|start|] == path[0] && child[|start|] == Index(index);
      } else {
        PathsLeadToSecrets(items.head, child, [], secret);
        assert |start + path| < |child|;
      }
    }
  }

  // ------------------------------------------------------------------ which keys are secret

  ghost predicate Within(s: string, inner: string, before: string, after: string) {
    s == before + inner + after && Blank(before) && Blank(after)
  }

  lemma WithinFront(s: string, inner: string, before: string, after: string)
    requires s != "" && White(s[0]) && Within(s[1..], inner, before, after)
    ensures Within(s, inner, [s[0]] + before, after)
  {
    assert s == [s[0]] + s[1..];
    assert [s[0]] + (before + inner + after) == [s[0]] + before + inner + after;
  }

  lemma WithinBack(s: string, inner: string, before: string, after: string)
    requires s != "" && White(s[|s| - 1]) && Within(s[..|s| - 1], inner, before, after)
    ensures Within(s, inner, before, after + [s[|s| - 1]])
  {
    assert s == s[..|s| - 1] + [s[|s| - 1]];
    assert before + inner + after + [s[|s| - 1]] == before + inner + (after + [s[|s| - 1]]);
  }

  /** Trimming takes off whitespace at the ends and nothing else. */
  lemma {:induction false} TrimTakesOffWhitespace(s: string)
    ensures exists before, after :: Within(s, Trim(s), before, after)
    ensures Trim(s) != "" ==> !White(Trim(s)[0]) && !White(Trim(s)[|Trim(s)| - 1])
    decreases |s|
  {
    if s != "" && White(s[0]) {
      TrimTakesOffWhitespace(s[1..]);
      var before, after :| Within(s[1..], Trim(s[1..]), before, after);
      WithinFront(s, Trim(s), before, after);
    } else if s != "" && White(s[|s| - 1]) {
      var n := |s| - 1;
      TrimTakesOffWhitespace(s[..n]);
      var before, after :| Within(s[..n], Trim(s[..n]), before, after);
      WithinBack(s, Trim(s), before, after);
    } else {
      assert Within(s, Trim(s), "", "");
    }
  }

  /** A key reads as a listed one: same length, capitals in lower case and dashes as underscores. */
  predicate ReadsAs(key: string, listed: string) {
    |key| == |listed|
    && forall i :: 0 <= i < |key| ==>
         if 'A' <= key[i] <= 'Z' then listed[i] as int == key[i] as int + 32
         else if key[i] == '-' then listed[i] == '_' else listed[i] == key[i]
  }

  /** A key is secret exactly when, without the whitespace around it, it reads as a listed one. */
  lemma SensitiveExactly(key: string)
    ensures SensitiveKey(key) <==> exists listed :: listed in SENSITIVE_KEYS && ReadsAs(Trim(key), listed)
  {
    var trimmed, normal := Trim(key), NormalizeKey(key);
    assert ReadsAs(trimmed, normal);
    forall listed | ReadsAs(trimmed, listed) ensures listed == normal {
      assert forall i :: 0 <= i < |trimmed| ==> listed[i] == normal[i];
    }
  }
}
