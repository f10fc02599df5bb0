/** Canonical JSON values, SHA-256 text digests and domain-separated content digests
    (canonical.py).  SHA-256 and the RFC 8785 printer are parameters: nothing is known about
    them beyond what a lemma states as a hypothesis. */
module Canonical {
  import opened Common

  type byte = b: int | 0 <= b < 256

  predicate IsHexDigit(c: char) {
    '0' <= c <= '9' || 'a' <= c <= 'f'
  }

  predicate IsHex64(s: string) {
    |s| == 64 && forall i :: 0 <= i < |s| ==> IsHexDigit(s[i])
  }

  /** A SHA-256 value as the source carries it: 64 lower-case hexadecimal digits. */
  type Digest = s: string | IsHex64(s) witness seq(64, _ => '0')

  /** The key set of a JSON object: one of those this model prints, in the order the members are
      given, or any other set, in code-point order. */
  datatype Schema =
    | AuthorityEventKeys
    | ExecutionBindingKeys
    | ObservationBindingKeys
    | OutcomeBindingKeys
    | ReviewBindingKeys
    | ReviewDecisionKeys
    | ProtectedHeaderKeys
    | KeyTransitionKeys
    | PublicJwkKeys
    | EvidenceIndexKeys
    | UnversionedEvidenceIndexKeys
    | EvidenceIndexEntryKeys
    | OtherKeys(names: seq<string>)

  function KeysOf(schema: Schema): seq<string> {
    match schema
    case AuthorityEventKeys =>
      ["event_id", "run_id", "tenant_id", "sequence", "recorded_at", "event_type", "outcome", "actor_subject",
       "actor_role", "channel", "workflow_id", "epoch_before", "epoch_after", "state_before", "state_after",
       "capabilities_before", "capabilities_after", "object_type", "object_id", "object_digest", "reason_code",
       "display_summary", "policy_version", "build_sha", "previous_event_hash"]
    case ExecutionBindingKeys => ["execution", "proposal"]
    case ObservationBindingKeys => ["execution", "observation", "policy_verdict"]
    case OutcomeBindingKeys => ["assessment", "memory", "observation", "policy_verdict"]
    case ReviewBindingKeys => ["disposition", "memory", "review"]
    case ReviewDecisionKeys =>
      ["decision", "generation", "memory", "note", "reason_code", "reviewer", "run_id", "workflow_id"]
    case ProtectedHeaderKeys => ["alg", "kid", "typ", "v"]
    case KeyTransitionKeys => ["from_kid", "to_jwk_digest", "to_kid", "transition_version"]
    case PublicJwkKeys => ["crv", "kty", "x"]
    case EvidenceIndexKeys => ["entries", "index_version"]
    case UnversionedEvidenceIndexKeys => ["entries"]
    case EvidenceIndexEntryKeys => ["path", "sha256", "size"]
    case OtherKeys(names) => names
  }

  function Arity(schema: Schema): (n: nat)
    ensures n == |KeysOf(schema)|
  {
    match schema
    case AuthorityEventKeys => 25
    case ExecutionBindingKeys => 2
    case ObservationBindingKeys => 3
    case OutcomeBindingKeys => 4
    case ReviewBindingKeys => 3
    case ReviewDecisionKeys => 8
    case ProtectedHeaderKeys => 4
    case KeyTransitionKeys => 4
    case PublicJwkKeys => 3
    case EvidenceIndexKeys => 2
    case UnversionedEvidenceIndexKeys => 1
    case EvidenceIndexEntryKeys => 3
    case OtherKeys(names) => |names|
  }

  /** Code-point order, decided at the first difference or by the shorter text. */
  predicate LessAt(a: string, b: string, k: nat) {
    k <= |a| && k < |b| && a[..k] == b[..k] && (k == |a| || a[k] < b[k])
  }

  ghost predicate Less(a: string, b: string) {
    exists k: nat :: LessAt(a, b, k)
  }

  /** Every key set has one schema. */
  ghost predicate IsKeySet(schema: Schema) {
    schema.OtherKeys? ==>
      && StrictlySorted(schema.names)
      && (forall s: Schema :: !s.OtherKeys? ==> !SameKeys(KeysOf(s), schema.names))
  }

  lemma LessTransitive(a: string, b: string, c: string)
    requires Less(a, b) && Less(b, c)
    ensures Less(a, c)
  {
    var j: nat :| LessAt(a, b, j);
    var k: nat :| LessAt(b, c, k);
    var m := if j < k then j else k;
    assert a[..m] == a[..j][..m] && b[..m] == b[..j][..m] == b[..k][..m] && c[..m] == c[..k][..m];
    assert j < k ==> b[..k][j] == b[j] && c[..k][j] == c[j];
    assert k < j ==> a[..j][k] == a[k] && b[..j][k] == b[k];
    assert LessAt(a, c, m);
  }

  lemma LessIsStrict(a: string, b: string)
    requires Less(a, b)
    ensures !Less(b, a) && a != b
  {
    if Less(b, a) {
      LessTransitive(a, b, a);
    }
  }

  predicate SameKeys(a: seq<string>, b: seq<string>) {
    && |a| == |b|
    && (forall k :: 0 <= k < |a| ==> a[k] in b)
    && (forall k :: 0 <= k < |b| ==> b[k] in a)
  }

  ghost predicate StrictlySorted(texts: seq<string>) {
    forall i, j :: 0 <= i < j < |texts| ==> Less(texts[i], texts[j])
  }

  lemma SortedTail(a: seq<string>, text: string)
    requires StrictlySorted(a) && a != [] && text in a
    ensures text == a[0] || (text in a[1..] && Less(a[0], text))
  {
    var k :| 0 <= k < |a| && a[k] == text;
    assert k > 0 ==> a[1..][k - 1] == text;
  }

  /** Sorted lists with the same keys are the same list. */
  lemma {:induction false} SortedUnique(a: seq<string>, b: seq<string>)
    requires StrictlySorted(a) && StrictlySorted(b) && SameKeys(a, b)
    ensures a == b
    decreases |a|
  {
    if a != [] {
      SortedTail(b, a[0]);
      SortedTail(a, b[0]);
      if a[0] != b[0] {
        LessIsStrict(a[0], b[0]);
      }
      TailsHaveSameKeys(a, b);
      SortedUnique(a[1..], b[1..]);
      assert a == [a[0]] + a[1..] && b == [b[0]] + b[1..];
    }
  }

  lemma TailsHaveSameKeys(a: seq<string>, b: seq<string>)
    requires StrictlySorted(a) && StrictlySorted(b) && SameKeys(a, b) && a != [] && a[0] == b[0]
    ensures SameKeys(a[1..], b[1..])
  {
    forall k | 0 < k < |a|
      ensures a[k] in b[1..] && b[k] in a[1..]
    {
      LessIsStrict(a[0], a[k]);
      LessIsStrict(b[0], b[k]);
      SortedTail(b, a[k]);
      SortedTail(a, b[k]);
    }
  }

  lemma NamedKeySetsDiffer(a: Schema, b: Schema)
    requires !a.OtherKeys? && !b.OtherKeys? && a != b
    ensures !SameKeys(KeysOf(a), KeysOf(b))
  {
    if Arity(a) == Arity(b) {
      FirstKeyTellsApart(a, b);
    }
  }

  lemma FirstKeyTellsApart(a: Schema, b: Schema)
    requires !a.OtherKeys? && !b.OtherKeys? && a != b && Arity(a) == Arity(b)
    ensures |KeysOf(a)| > 0 && KeysOf(a)[0] !in KeysOf(b)
  {
    assert "disposition"[0] != "observation"[0];
  }

  /** Different schemas have different key sets, so an object has one representation. */
  lemma OneSchemaPerKeySet(a: Schema, b: Schema)
    requires IsKeySet(a) && IsKeySet(b) && a != b
    ensures !SameKeys(KeysOf(a), KeysOf(b))
  {
    if !a.OtherKeys? && !b.OtherKeys? {
      NamedKeySetsDiffer(a, b);
    } else if a.OtherKeys? && b.OtherKeys? && SameKeys(a.names, b.names) {
      SortedUnique(a.names, b.names);
    } else {
      assert SameKeys(KeysOf(a), KeysOf(b)) ==> SameKeys(KeysOf(b), KeysOf(a));
    }
  }

  /** The integers RFC 8785 prints: the ones a double holds exactly. */
  type exactint = n: int | -0x1F_FFFF_FFFF_FFFF <= n <= 0x1F_FFFF_FFFF_FFFF

  /** JSON values.  An object is its key set and the members in the order of those keys, so that
      equal objects are equal values whatever order their members were inserted in.  A value is
      JSON when every object has one member for each key. */
  datatype Json =
    | JNull
    | JBool(flag: bool)
    | JNum(number: exactint)
    | JStr(text: string)
    | JArr(items: seq<Json>)
    | JObj(schema: Schema, members: seq<Json>)

  /** What the source imports from other packages: SHA-256, the RFC 8785 printer, and the texts of
      UUIDs and timestamps, which JSON carries as strings. */
  datatype Primitives = Primitives(
    sha256: seq<byte> -> Digest,
    canonical: Json -> seq<byte>,
    uuidText: Uuid -> string,
    timeText: int -> string)

  ghost predicate IsJson(v: Json) {
    match v
    case JNull => true
    case JBool(_) => true
    case JNum(_) => true
    case JStr(_) => true
    case JArr(items) => forall i :: 0 <= i < |items| ==> IsJson(items[i])
    case JObj(schema, members) =>
      |members| == Arity(schema) && IsKeySet(schema) && forall i :: 0 <= i < |members| ==> IsJson(members[i])
  }

  type JsonValue = v: Json | IsJson(v) witness JNull

  /** RFC 8785 prints different values as different bytes. */
  ghost predicate CanonicalIsInjective(p: Primitives) {
    forall a: JsonValue, b: JsonValue :: p.canonical(a) == p.canonical(b) ==> a == b
  }

  /** An upper bound on what the braces, keys and colons of an object take: strings escape to at
      most six bytes a character, and the named key sets stay under 1024 bytes. */
  function KeysBound(schema: Schema): nat {
    if schema.OtherKeys? then 2 + TextsBound(schema.names) else 1024
  }

  function TextsBound(texts: seq<string>): nat {
    if texts == [] then 0 else 6 * |texts[0]| + 3 + TextsBound(texts[1..])
  }

  /** An upper bound on the printed length of a value. */
  function PrintBound(v: Json): nat {
    match v
    case JNull => 4
    case JBool(_) => 5
    case JNum(_) => 17
    case JStr(text) => 6 * |text| + 2
    case JArr(items) => 2 + PrintBounds(items)
    case JObj(schema, members) => KeysBound(schema) + PrintBounds(members)
  }

  function PrintBounds(vs: seq<Json>): nat {
    if vs == [] then 0 else PrintBound(vs[0]) + 1 + PrintBounds(vs[1..])
  }

  ghost predicate PrintsWithinBound(p: Primitives) {
    forall v: JsonValue :: |p.canonical(v)| <= PrintBound(v)
  }

  lemma {:induction false} PrintBoundsOfMany(vs: seq<Json>, each: nat)
    requires forall i :: 0 <= i < |vs| ==> PrintBound(vs[i]) <= each
    ensures PrintBounds(vs) <= |vs| * (each + 1)
  {
    if vs != [] {
      PrintBoundsOfMany(vs[1..], each);
      assert |vs| * (each + 1) == (each + 1) + |vs[1..]| * (each + 1);
    }
  }

  /** Different UUIDs, and different times, have different texts. */
  ghost predicate TextsAreInjective(p: Primitives) {
    && (forall a, b :: p.uuidText(a) == p.uuidText(b) ==> a == b)
    && (forall a, b :: p.timeText(a) == p.timeText(b) ==> a == b)
  }

  /** No two of the byte strings in `hashed` collide under SHA-256. */
  ghost predicate CollisionFree(p: Primitives, hashed: set<seq<byte>>) {
    forall a, b :: a in hashed && b in hashed && p.sha256(a) == p.sha256(b) ==> a == b
  }

  function Ascii(text: string): (bytes: seq<byte>)
    ensures |bytes| == |text|
  {
    seq(|text|, i requires 0 <= i < |text| => (text[i] as int) % 256)
  }

  function HexValue(c: char): byte
    requires IsHexDigit(c)
  {
    if c <= '9' then c as int - '0' as int else c as int - 'a' as int + 10
  }

  /** bytes.fromhex of a digest. */
  function Unhex(d: Digest): (bytes: seq<byte>)
    ensures |bytes| == 32
  {
    seq(32, i requires 0 <= i < 32 => 16 * HexValue(d[2 * i]) + HexValue(d[2 * i + 1]))
  }

  lemma UnhexInjective(a: Digest, b: Digest)
    requires Unhex(a) == Unhex(b)
    ensures a == b
  {
    forall i | 0 <= i < 32
      ensures a[2 * i] == b[2 * i] && a[2 * i + 1] == b[2 * i + 1]
    {
      assert Unhex(a)[i] == Unhex(b)[i];
    }
    forall k | 0 <= k < 64
      ensures a[k] == b[k]
    {
      var i := k / 2;
      assert 0 <= i < 32 && (k == 2 * i || k == 2 * i + 1);
    }
  }

  function ContentPreimage(p: Primitives, domain: string, value: Json): seq<byte> {
    Ascii(domain) + [0] + p.canonical(value)
  }

  function ContentDigest(p: Primitives, domain: string, value: Json): Digest {
    p.sha256(ContentPreimage(p, domain, value))
  }

  /** str(n) of a non-negative integer. */
  function Decimal(n: nat): string {
    if n < 10 then [DigitChar(n)] else Decimal(n / 10) + [DigitChar(n % 10)]
  }

  function DigitChar(n: nat): char
    requires n < 10
  {
    '0' + n as char
  }

  function DecimalValue(s: string): int {
    if |s| == 0 then 0
    else 10 * DecimalValue(s[..|s| - 1]) + (s[|s| - 1] as int - '0' as int)
  }

  lemma {:induction false} DecimalRoundTrip(n: nat)
    ensures DecimalValue(Decimal(n)) == n
  {
    if n >= 10 {
      DecimalRoundTrip(n / 10);
      assert Decimal(n)[..|Decimal(n)| - 1] == Decimal(n / 10);
    } else {
      assert Decimal(n)[..0] == "";
    }
  }
}
