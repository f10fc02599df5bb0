/** Unpadded base64url as JWS uses it (receipts.py): section 5 of RFC 4648 with no padding, and a
    decoder that refuses every non-canonical spelling. */
module Base64Url {
  import opened Common
  import opened Canonical

  predicate IsAlphabet(c: char) {
    'A' <= c <= 'Z' || 'a' <= c <= 'z' || '0' <= c <= '9' || c == '-' || c == '_'
  }

  /** Table 2 of RFC 4648. */
  function Value(c: char): (n: nat)
    requires IsAlphabet(c)
    ensures n < 64
  {
    if 'A' <= c <= 'Z' then c as int - 'A' as int
    else if 'a' <= c <= 'z' then c as int - 'a' as int + 26
    else if '0' <= c <= '9' then c as int - '0' as int + 52
    else if c == '-' then 62
    else 63
  }

  function Char(n: nat): (c: char)
    requires n < 64
    ensures IsAlphabet(c) && Value(c) == n
  {
    if n < 26 then 'A' + n as char
    else if n < 52 then 'a' + (n - 26) as char
    else if n < 62 then '0' + (n - 52) as char
    else if n == 62 then '-'
    else '_'
  }

  type sextet = n: int | 0 <= n < 64

  predicate InAlphabet(v: string) {
    forall c :: c in v ==> IsAlphabet(c)
  }

  function Text(s: seq<sextet>): string {
    seq(|s|, i requires 0 <= i < |s| => Char(s[i]))
  }

  function Values(v: string): seq<sextet>
    requires InAlphabet(v)
  {
    seq(|v|, i requires 0 <= i < |v| => Value(v[i]))
  }

  lemma TextRoundTrip(s: seq<sextet>)
    ensures InAlphabet(Text(s)) && Values(Text(s)) == s
  {
  }

  lemma ValuesRoundTrip(v: string)
    requires InAlphabet(v)
    ensures Text(Values(v)) == v
  {
    forall i | 0 <= i < |v|
      ensures Text(Values(v))[i] == v[i]
    {
      CharValue(v[i]);
    }
  }

  lemma CharValue(c: char)
    requires IsAlphabet(c)
    ensures Char(Value(c)) == c
  {
  }

  /** Three bytes as four 6-bit groups; one or two left-over bytes as two or three. */
  function Sextets(b: seq<byte>): seq<sextet> {
    if |b| == 0 then []
    else if |b| == 1 then [b[0] / 4, b[0] % 4 * 16]
    else if |b| == 2 then [b[0] / 4, b[0] % 4 * 16 + b[1] / 16, b[1] % 16 * 4]
    else [b[0] / 4, b[0] % 4 * 16 + b[1] / 16, b[1] % 16 * 4 + b[2] / 64, b[2] % 64] + Sextets(b[3..])
  }

  /** The bytes of 6-bit groups: left-over bits of the last group are dropped. */
  function Octets(s: seq<sextet>): seq<byte> {
    if |s| < 2 then []
    else
      var x: int, y: int := s[0], s[1];
      if |s| == 2 then [x * 4 + y / 16]
      else
        var z: int := s[2];
        if |s| == 3 then [x * 4 + y / 16, y % 16 * 16 + z / 4]
        else
          var w: int := s[3];
          [x * 4 + y / 16, y % 16 * 16 + z / 4, z % 4 * 64 + w] + Octets(s[4..])
  }

  /** urlsafe_b64encode without its padding. */
  function Encode(b: seq<byte>): string {
    Text(Sextets(b))
  }

  /** b64decode of an alphabet string. */
  function Bits(v: string): seq<byte>
    requires InAlphabet(v)
  {
    Octets(Values(v))
  }

  /** _decode_b64url. */
  function Decode(v: string): Option<seq<byte>> {
    if v == "" || !InAlphabet(v) then None
    else if |v| % 4 == 1 then None
    else if Encode(Bits(v)) != v then None
    else Some(Bits(v))
  }

  /** The bits of the last character that encode nothing. */
  predicate TrailingBitsAreZero(v: string)
    requires InAlphabet(v)
  {
    && (|v| % 4 == 2 ==> Value(v[|v| - 1]) % 16 == 0)
    && (|v| % 4 == 3 ==> Value(v[|v| - 1]) % 4 == 0)
  }

  lemma {:induction false} SextetsAreWellFormed(b: seq<byte>)
    ensures |Sextets(b)| % 4 != 1 && (Sextets(b) == [] <==> b == [])
    decreases |b|
  {
    if |b| >= 3 {
      SextetsAreWellFormed(b[3..]);
    }
  }

  lemma BytesSurvive(a: byte, b: byte, c: byte)
    ensures a / 4 * 4 + (a % 4 * 16 + b / 16) / 16 == a
    ensures (a % 4 * 16 + b / 16) % 16 * 16 + (b % 16 * 4 + c / 64) / 4 == b
    ensures (b % 16 * 4 + c / 64) % 4 * 64 + c % 64 == c
  {
    assert (a % 4 * 16 + b / 16) / 16 == a % 4;
    assert (b % 16 * 4 + c / 64) / 4 == b % 16;
  }

  lemma {:induction false} OctetsOfSextets(b: seq<byte>)
    ensures Octets(Sextets(b)) == b
    decreases |b|
  {
    if |b| >= 3 {
      BytesSurvive(b[0], b[1], b[2]);
      OctetsOfSextets(b[3..]);
      assert Sextets(b)[4..] == Sextets(b[3..]);
      assert b == [b[0], b[1], b[2]] + b[3..];
    } else if |b| == 2 {
      BytesSurvive(b[0], b[1], 0);
    } else if |b| == 1 {
      BytesSurvive(b[0], 0, 0);
    }
  }

  lemma GroupsSurvive(x: int, y: int, z: int, w: int, a: int, b: int, c: int)
    requires 0 <= x < 64 && 0 <= y < 64 && 0 <= z < 64 && 0 <= w < 64
    requires a == x * 4 + y / 16 && b == y % 16 * 16 + z / 4 && c == z % 4 * 64 + w
    ensures a / 4 == x && a % 4 * 16 + b / 16 == y && b % 16 * 4 + c / 64 == z && c % 64 == w
  {
    assert a % 4 == y / 16 && b / 16 == y % 16 && b % 16 == z / 4 && c / 64 == z % 4;
  }

  predicate TailIsZero(s: seq<sextet>) {
    (|s| % 4 == 2 ==> s[|s| - 1] % 16 == 0) && (|s| % 4 == 3 ==> s[|s| - 1] % 4 == 0)
  }

  /** Three bytes split into these four groups. */
  predicate Splits(a: int, b: int, c: int, x: int, y: int, z: int, w: int) {
    a / 4 == x && a % 4 * 16 + b / 16 == y && b % 16 * 4 + c / 64 == z && c % 64 == w
  }

  lemma GroupOut(s: seq<sextet>) returns (t: seq<byte>)
    requires |s| >= 4
    ensures |t| == 3 && Octets(s) == t + Octets(s[4..])
    ensures Splits(t[0], t[1], t[2], s[0], s[1], s[2], s[3])
  {
    t := Octets(s)[..3];
    assert Octets(s) == t + Octets(s)[3..];
    GroupsSurvive(s[0], s[1], s[2], s[3], t[0], t[1], t[2]);
  }

  lemma TripleBack(t: seq<byte>, rest: seq<byte>, group: seq<sextet>)
    requires |t| == 3 && |group| == 4 && Splits(t[0], t[1], t[2], group[0], group[1], group[2], group[3])
    ensures Sextets(t + rest) == group + Sextets(rest)
  {
    assert (t + rest)[3..] == rest;
  }

  lemma FirstGroup(s: seq<sextet>)
    requires |s| >= 4
    ensures Sextets(Octets(s)) == s[..4] + Sextets(Octets(s[4..]))
  {
    var t := GroupOut(s);
    TripleBack(t, Octets(s[4..]), s[..4]);
  }

  lemma LastTwo(s: seq<sextet>)
    requires |s| == 2
    ensures Sextets(Octets(s)) == s <==> TailIsZero(s)
  {
    var x: int, y: int := s[0], s[1];
    var a: int := x * 4 + y / 16;
    assert a / 4 == x && a % 4 * 16 == y - y % 16;
    assert Octets(s) == [a];
    assert Sextets([a]) == [x, y - y % 16];
    assert s == [x, y];
  }

  lemma LastThreeOut(s: seq<sextet>) returns (t: seq<byte>)
    requires |s| == 3
    ensures |t| == 2 && Octets(s) == t
    ensures t[0] / 4 == s[0] && t[0] % 4 * 16 + t[1] / 16 == s[1] && t[1] % 16 * 4 == s[2] - s[2] % 4
  {
    t := Octets(s);
    GroupsSurvive(s[0], s[1], s[2], 0, t[0], t[1], s[2] as int % 4 * 64);
    assert t[1] % 16 == s[2] / 4;
  }

  lemma LastThreeBack(t: seq<byte>, s: seq<sextet>)
    requires |s| == 3 && |t| == 2
    requires t[0] / 4 == s[0] && t[0] % 4 * 16 + t[1] / 16 == s[1] && t[1] % 16 * 4 == s[2] - s[2] % 4
    ensures Sextets(t) == [s[0], s[1], s[2] - s[2] % 4]
  {
  }

  lemma LastThree(s: seq<sextet>)
    requires |s| == 3
    ensures Sextets(Octets(s)) == s <==> TailIsZero(s)
  {
    var t := LastThreeOut(s);
    LastThreeBack(t, s);
    assert s == [s[0], s[1], s[2]];
  }

  lemma SamePrefix(x: seq<sextet>, a: seq<sextet>, b: seq<sextet>)
    ensures x + a == x + b <==> a == b
  {
    assert (x + a)[|x|..] == a && (x + b)[|x|..] == b;
  }

  lemma TailOfRest(s: seq<sextet>)
    requires |s| >= 4 && |s| % 4 != 1
    ensures TailIsZero(s) <==> TailIsZero(s[4..])
  {
    assert |s| % 4 == |s[4..]| % 4;
  }

  lemma FirstGroupKeeps(s: seq<sextet>)
    requires |s| >= 4
    ensures Sextets(Octets(s)) == s <==> Sextets(Octets(s[4..])) == s[4..]
  {
    FirstGroup(s);
    SamePrefix(s[..4], Sextets(Octets(s[4..])), s[4..]);
    assert s == s[..4] + s[4..];
  }

  lemma {:induction false} SextetsOfOctets(s: seq<sextet>)
    requires |s| % 4 != 1
    ensures Sextets(Octets(s)) == s <==> TailIsZero(s)
    decreases |s|
  {
    if |s| >= 4 {
      FirstGroupKeeps(s);
      TailOfRest(s);
      SextetsOfOctets(s[4..]);
    } else if |s| == 3 {
      LastThree(s);
    } else if |s| == 2 {
      LastTwo(s);
    }
  }

  /** Decoding undoes encoding on non-empty bytes. */
  lemma DecodeUndoesEncode(b: seq<byte>)
    ensures Decode(Encode(b)) == if b == [] then None else Some(b)
  {
    SextetsAreWellFormed(b);
    TextRoundTrip(Sextets(b));
    OctetsOfSextets(b);
    assert Encode(b) == "" <==> Sextets(b) == [];
  }

  /** The decoder accepts exactly the encoder's outputs on non-empty bytes, each for its own bytes. */
  lemma DecodeAcceptsExactlyEncodings(v: string, b: seq<byte>)
    ensures Decode(v) == Some(b) <==> b != [] && Encode(b) == v
  {
    DecodeUndoesEncode(b);
    if Decode(v) == Some(b) {
      assert Sextets([]) == [];
    }
  }

  /** In terms of the text: alphabet only, no length that is 1 modulo 4, zero trailing bits. */
  lemma DecodeAcceptance(v: string)
    ensures Decode(v).Some? <==> v != "" && InAlphabet(v) && |v| % 4 != 1 && TrailingBitsAreZero(v)
  {
    if v != "" && InAlphabet(v) && |v| % 4 != 1 {
      ValuesRoundTrip(v);
      SextetsOfOctets(Values(v));
      TextRoundTrip(Sextets(Bits(v)));
      assert Encode(Bits(v)) == v <==> Sextets(Bits(v)) == Values(v);
    }
  }
}
