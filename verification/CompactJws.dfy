/** Compact JWS verification under a frozen header (receipts.py), section 7.1 of RFC 7515: which texts
    are accepted per key, header, payload and signature. */
module CompactJws {
  import opened Common
  import opened Canonical
  import opened Base64Url

  /** Ed25519 verification and JSON parsing: uninterpreted, as the source imports them. */
  datatype Crypto = Crypto(
    p: Primitives,
    verify: (seq<byte>, seq<byte>, seq<byte>) -> bool,
    parse: seq<byte> -> Option<Json>)

  /** json.loads reads back what the canonical printer prints, which is never empty, and whatever
      it reads is JSON. */
  ghost predicate ParsesCanonical(c: Crypto) {
    && (forall v: JsonValue :: c.parse(c.p.canonical(v)) == Some(v) && c.p.canonical(v) != [])
    && (forall bytes :: c.parse(bytes).Some? ==> IsJson(c.parse(bytes).value))
  }

  // ----- segments -----

  function Split(s: string): (parts: seq<string>)
    ensures |parts| >= 1
  {
    if s == "" then [""]
    else if s[0] == '.' then [""] + Split(s[1..])
    else
      var rest := Split(s[1..]);
      [[s[0]] + rest[0]] + rest[1..]
  }

  predicate NoDot(s: string) {
    '.' !in s
  }

  lemma {:induction false} SplitFirst(a: string, rest: string)
    requires NoDot(a)
    ensures Split(a + "." + rest) == [a] + Split(rest)
    decreases |a|
  {
    var s := a + "." + rest;
    if a == "" {
      assert s[1..] == rest;
    } else {
      SplitFirst(a[1..], rest);
      assert s[1..] == a[1..] + "." + rest;
      assert a == [a[0]] + a[1..];
    }
  }

  lemma {:induction false} SplitWhole(a: string)
    requires NoDot(a)
    ensures Split(a) == [a]
    decreases |a|
  {
    if a != "" {
      SplitWhole(a[1..]);
      assert a == [a[0]] + a[1..];
    }
  }

  function Join(parts: seq<string>): string
    requires |parts| >= 1
  {
    if |parts| == 1 then parts[0] else parts[0] + "." + Join(parts[1..])
  }

  lemma PlusAssociates(a: string, b: string, c: string)
    ensures (a + b) + c == a + (b + c)
  {
  }

  lemma JoinPrepends(c: char, parts: seq<string>)
    requires |parts| >= 1
    ensures Join([[c] + parts[0]] + parts[1..]) == [c] + Join(parts)
  {
    var longer := [[c] + parts[0]] + parts[1..];
    assert |longer| == |parts| && longer[0] == [c] + parts[0];
    if |parts| > 1 {
      assert longer[1..] == parts[1..];
      PlusAssociates([c], parts[0], ".");
      PlusAssociates([c], parts[0] + ".", Join(parts[1..]));
    }
  }

  lemma {:induction false} SplitJoins(s: string)
    ensures Join(Split(s)) == s
    decreases |s|
  {
    if s != "" {
      var rest := Split(s[1..]);
      SplitJoins(s[1..]);
      assert s == [s[0]] + s[1..];
      if s[0] == '.' {
        assert ([""] + rest)[1..] == rest;
      } else {
        JoinPrepends(s[0], rest);
      }
    }
  }

  lemma ThreeSegments(a: string, b: string, d: string)
    requires NoDot(a) && NoDot(b) && NoDot(d)
    ensures Split(a + "." + b + "." + d) == [a, b, d]
  {
    assert a + "." + b + "." + d == a + "." + (b + "." + d);
    SplitFirst(a, b + "." + d);
    SplitFirst(b, d);
    SplitWhole(d);
  }

  lemma JoinsThree(s: string)
    requires |Split(s)| == 3
    ensures s == Split(s)[0] + "." + Split(s)[1] + "." + Split(s)[2]
  {
    var parts := Split(s);
    SplitJoins(s);
    assert Join(parts[1..]) == parts[1] + "." + Join(parts[1..][1..]);
    assert parts[1..][0] == parts[1] && parts[1..][1..] == [parts[2]];
    assert parts[0] + "." + (parts[1] + "." + parts[2]) == parts[0] + "." + parts[1] + "." + parts[2];
  }

  // ----- verification -----

  /** The frozen header, with its version spelled `v`. */
  function ProtectedHeader(kid: string, typ: string, v: Json): Json {
    JObj(ProtectedHeaderKeys, [JStr("Ed25519"), JStr(kid), JStr(typ), v])
  }

  /** The source compares dictionaries with Python's equality, under which True equals 1. */
  predicate IsOne(v: Json) {
    v == JNum(1) || v == JBool(true)
  }

  predicate IsProtectedHeader(value: Option<Json>, kid: string, typ: string) {
    && value.Some? && value.value.JObj? && |value.value.members| == 4
    && IsOne(value.value.members[3]) && value.value == ProtectedHeader(kid, typ, value.value.members[3])
  }

  /** parse_canonical_json: bytes that are their own canonical form. */
  function ParseCanonical(c: Crypto, data: seq<byte>): Option<Json> {
    var parsed := c.parse(data);
    if parsed.Some? && c.p.canonical(parsed.value) == data then parsed else None
  }

  function SigningInput(header: seq<byte>, payload: seq<byte>): seq<byte> {
    Ascii(Encode(header) + "." + Encode(payload))
  }

  function Compact(header: seq<byte>, payload: seq<byte>, signature: seq<byte>): string {
    Encode(header) + "." + Encode(payload) + "." + Encode(signature)
  }

  /** _verify_compact: the payload, when the text verifies under the key. */
  function VerifyCompact(c: Crypto, compact: string, key: seq<byte>, kid: string, typ: string): Option<Json> {
    var parts := Split(compact);
    if |parts| != 3 then None
    else
      var header, payload, signature := Decode(parts[0]), Decode(parts[1]), Decode(parts[2]);
      if header.None? || payload.None? || signature.None? then None
      else if !IsProtectedHeader(ParseCanonical(c, header.value), kid, typ) then None
      else if |signature.value| != 64 then None
      else if !c.verify(key, Ascii(parts[0] + "." + parts[1]), signature.value) then None
      else
        var value := ParseCanonical(c, payload.value);
        if value.Some? && value.value.JObj? then value else None
  }

  lemma {:induction false} EncodingHasNoDot(b: seq<byte>)
    ensures NoDot(Encode(b))
  {
    TextRoundTrip(Sextets(b));
  }

  /** The compact form of the frozen header, one value and a signature that verifies over both. */
  ghost predicate Signs(c: Crypto, compact: string, key: seq<byte>, kid: string, typ: string, v: Json, value: Json, signature: seq<byte>) {
    var header, payload := c.p.canonical(ProtectedHeader(kid, typ, v)), c.p.canonical(value);
    |signature| == 64 && compact == Compact(header, payload, signature)
    && c.verify(key, SigningInput(header, payload), signature)
  }

  ghost predicate SignedForm(c: Crypto, compact: string, key: seq<byte>, kid: string, typ: string, v: Json, value: Json) {
    exists signature :: Signs(c, compact, key, kid, typ, v, value, signature)
  }

  /** A text verifies exactly when it is the compact form of the frozen header, one JSON object and
      a 64-byte signature that verifies over them; the only freedom is that the header's version
      may be spelled 1 or true. */
  lemma AcceptsOnlyCompactForms(c: Crypto, compact: string, key: seq<byte>, kid: string, typ: string, value: Json)
    requires ParsesCanonical(c)
    ensures VerifyCompact(c, compact, key, kid, typ) == Some(value)
            <==> IsJson(value) && value.JObj? && (SignedForm(c, compact, key, kid, typ, JNum(1), value)
                                 || SignedForm(c, compact, key, kid, typ, JBool(true), value))
  {
    if VerifyCompact(c, compact, key, kid, typ) == Some(value) {
      var parts := Split(compact);
      var header, payload, signature := Decode(parts[0]).value, Decode(parts[1]).value, Decode(parts[2]).value;
      var v := ParseCanonical(c, header).value.members[3];
      JoinsThree(compact);
      DecodeAcceptsExactlyEncodings(parts[0], header);
      DecodeAcceptsExactlyEncodings(parts[1], payload);
      DecodeAcceptsExactlyEncodings(parts[2], signature);
      assert Signs(c, compact, key, kid, typ, v, value, signature);
    }
    forall v, signature | IsOne(v) && IsJson(value) && value.JObj? && Signs(c, compact, key, kid, typ, v, value, signature)
      ensures VerifyCompact(c, compact, key, kid, typ) == Some(value)
    {
      CompactVerifies(c, compact, key, kid, typ, v, value, signature);
    }
    assert IsOne(JNum(1)) && IsOne(JBool(true));
  }

  lemma HeaderIsJson(kid: string, typ: string, v: Json)
    requires IsOne(v)
    ensures IsJson(ProtectedHeader(kid, typ, v))
  {
  }

  lemma CompactVerifies(c: Crypto, compact: string, key: seq<byte>, kid: string, typ: string, v: Json, value: Json, signature: seq<byte>)
    requires ParsesCanonical(c)
    requires IsOne(v) && IsJson(value) && value.JObj? && Signs(c, compact, key, kid, typ, v, value, signature)
    ensures VerifyCompact(c, compact, key, kid, typ) == Some(value)
  {
    var header, payload := c.p.canonical(ProtectedHeader(kid, typ, v)), c.p.canonical(value);
    HeaderIsJson(kid, typ, v);
    EncodingHasNoDot(header);
    EncodingHasNoDot(payload);
    EncodingHasNoDot(signature);
    ThreeSegments(Encode(header), Encode(payload), Encode(signature));
    DecodeUndoesEncode(header);
    DecodeUndoesEncode(payload);
    DecodeUndoesEncode(signature);
  }

  /** The two spellings are different texts, and both verify when both are signed. */
  lemma TwoHeaderSpellings(c: Crypto, key: seq<byte>, kid: string, typ: string, value: Json, s: seq<byte>, t: seq<byte>)
    requires ParsesCanonical(c) && IsJson(value) && value.JObj? && |s| == |t| == 64
    requires c.verify(key, SigningInput(c.p.canonical(ProtectedHeader(kid, typ, JNum(1))), c.p.canonical(value)), s)
    requires c.verify(key, SigningInput(c.p.canonical(ProtectedHeader(kid, typ, JBool(true))), c.p.canonical(value)), t)
    ensures var plain := Compact(c.p.canonical(ProtectedHeader(kid, typ, JNum(1))), c.p.canonical(value), s);
            var odd := Compact(c.p.canonical(ProtectedHeader(kid, typ, JBool(true))), c.p.canonical(value), t);
            && plain != odd
            && VerifyCompact(c, plain, key, kid, typ) == VerifyCompact(c, odd, key, kid, typ) == Some(value)
  {
    var h, g := c.p.canonical(ProtectedHeader(kid, typ, JNum(1))), c.p.canonical(ProtectedHeader(kid, typ, JBool(true)));
    HeaderIsJson(kid, typ, JNum(1));
    HeaderIsJson(kid, typ, JBool(true));
    assert c.parse(h) != c.parse(g);
    CompactVerifies(c, Compact(h, c.p.canonical(value), s), key, kid, typ, JNum(1), value, s);
    CompactVerifies(c, Compact(g, c.p.canonical(value), t), key, kid, typ, JBool(true), value, t);
    SegmentsOf(h, c.p.canonical(value), s);
    SegmentsOf(g, c.p.canonical(value), t);
  }

  lemma SegmentsOf(header: seq<byte>, payload: seq<byte>, signature: seq<byte>)
    requires header != []
    ensures |Split(Compact(header, payload, signature))| == 3
    ensures Decode(Split(Compact(header, payload, signature))[0]) == Some(header)
  {
    EncodingHasNoDot(header);
    EncodingHasNoDot(payload);
    EncodingHasNoDot(signature);
    ThreeSegments(Encode(header), Encode(payload), Encode(signature));
    DecodeUndoesEncode(header);
  }
}
