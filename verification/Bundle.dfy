/** The authority bundle's outer envelope (authority_bundle.py): the checksum file and its strict
    parser, building, and validation to one digest. */
module Bundle {
  import opened Common
  import opened Canonical
  import opened CompactJws

  // ----- the frozen layout -----

  predicate IsPathChar(c: char) {
    'A' <= c <= 'Z' || 'a' <= c <= 'z' || '0' <= c <= '9' || c == '.' || c == '_' || c == '/' || c == '-'
  }

  predicate IsPath(s: string) {
    s != "" && forall c :: c in s ==> IsPathChar(c)
  }

  /** The covered paths in sorted order, the checksum file that covers them, and the parts of the
      covered set: the auxiliary evidence, its index, and the signed and documentation files. */
  datatype Layout = Layout(
    covered: seq<string>, checksum: string, auxiliary: seq<string>, index: string,
    manifest: string, receipt: string, readme: string)

  predicate WellFormed(l: Layout) {
    && (forall i :: 0 <= i < |l.covered| ==> IsPath(l.covered[i]))
    && Distinct(l.covered) && l.checksum !in l.covered
  }

  predicate Distinct(paths: seq<string>) {
    forall i, j :: 0 <= i < j < |paths| ==> paths[i] != paths[j]
  }

  /** The parts make up the covered set, without overlap. */
  predicate Partitioned(l: Layout) {
    && (set path | path in l.covered) == (set path | path in l.auxiliary) + {l.index, l.manifest, l.receipt, l.readme}
    && Distinct(l.auxiliary + [l.index, l.manifest, l.receipt, l.readme])
  }

  const FROZEN := Layout(
    ["README.md", "claims.json", "evaluation/" + "case.json", "evaluation/" + "result.json", "events.ndjson",
     "evidence-index" + ".jcs.json", "manifest" + ".jcs.json", "policy/" + "capability-policy" + ".json",
     "policy/" + "receipt-policy" + ".json", "public.jwk" + ".json", "receipt.jws", "release.json"],
    "checksums.sha256",
    ["public.jwk" + ".json", "events.ndjson", "policy/" + "capability-policy" + ".json",
     "policy/" + "receipt-policy" + ".json", "evaluation/" + "case.json", "evaluation/" + "result.json",
     "release.json", "claims.json"],
    "evidence-index" + ".jcs.json", "manifest" + ".jcs.json", "receipt.jws", "README.md")

  function AllowedPaths(l: Layout): set<string> {
    (set path | path in l.covered) + {l.checksum}
  }

  // ----- printing -----

  datatype Entry = Entry(digest: Digest, path: string)

  function PrintLine(e: Entry): string {
    e.digest + "  " + e.path + "\n"
  }

  function Print(entries: seq<Entry>): string {
    if entries == [] then "" else PrintLine(entries[0]) + Print(entries[1..])
  }

  // ----- splitting lines as str.splitlines does on ASCII text -----

  predicate IsBreak(c: char) {
    c == '\n' || c == '\r' || c as int == 0x0b || c as int == 0x0c || 0x1c <= c as int <= 0x1e
  }

  /** The length of the first line, its terminator included. */
  function FirstLine(s: string): (n: nat)
    requires s != ""
    ensures 0 < n <= |s|
  {
    if s[0] == '\r' && |s| > 1 && s[1] == '\n' then 2
    else if IsBreak(s[0]) || |s| == 1 then 1
    else 1 + FirstLine(s[1..])
  }

  function SplitLines(s: string): seq<string> {
    if s == "" then [] else [s[..FirstLine(s)]] + SplitLines(s[FirstLine(s)..])
  }

  /** The line pattern: 64 hexadecimal digits, two spaces, a path, a newline. */
  function ParseLine(line: string): Option<Entry> {
    if |line| > 67 && IsHex64(line[..64]) && line[64..66] == "  "
       && IsPath(line[66..|line| - 1]) && line[|line| - 1] == '\n'
    then Some(Entry(line[..64], line[66..|line| - 1]))
    else None
  }

  lemma ParsePrintedLine(e: Entry)
    requires IsPath(e.path)
    ensures ParseLine(PrintLine(e)) == Some(e)
  {
    var line := PrintLine(e);
    assert line[..64] == e.digest;
    assert line[64..66] == "  ";
    assert line[66..|line| - 1] == e.path;
  }

  lemma PrintParsedLine(line: string)
    requires ParseLine(line).Some?
    ensures PrintLine(ParseLine(line).value) == line && IsPath(ParseLine(line).value.path)
  {
    assert line == line[..64] + line[64..66] + line[66..|line| - 1] + [line[|line| - 1]];
  }

  lemma {:induction false} FirstLineEndsAtNewline(body: string, rest: string)
    requires forall c :: c in body ==> !IsBreak(c)
    ensures FirstLine(body + "\n" + rest) == |body| + 1
    decreases |body|
  {
    var s := body + "\n" + rest;
    if body != "" {
      FirstLineEndsAtNewline(body[1..], rest);
      assert s[1..] == body[1..] + "\n" + rest;
      assert s[0] == body[0] && body[0] in body;
    }
  }

  lemma SplitPrintedLine(e: Entry, rest: string)
    requires IsPath(e.path)
    ensures SplitLines(PrintLine(e) + rest) == [PrintLine(e)] + SplitLines(rest)
  {
    var body := e.digest + "  " + e.path;
    assert PrintLine(e) + rest == body + "\n" + rest;
    forall c | c in body
      ensures !IsBreak(c)
    {
      assert c in e.digest || c in "  " || c in e.path;
    }
    FirstLineEndsAtNewline(body, rest);
    assert (body + "\n" + rest)[..|body| + 1] == PrintLine(e);
    assert (body + "\n" + rest)[|body| + 1..] == rest;
  }

  // ----- parsing -----

  predicate ParsesTo(lines: seq<string>, entries: seq<Entry>) {
    |lines| == |entries| && forall i :: 0 <= i < |lines| ==> ParseLine(lines[i]) == Some(entries[i])
  }

  lemma {:induction false} PrintedParses(entries: seq<Entry>)
    requires forall i :: 0 <= i < |entries| ==> IsPath(entries[i].path)
    ensures ParsesTo(SplitLines(Print(entries)), entries)
  {
    if entries != [] {
      PrintedParses(entries[1..]);
      SplitPrintedLine(entries[0], Print(entries[1..]));
      ParsePrintedLine(entries[0]);
    }
  }

  lemma {:induction false} ParsedPrints(text: string, entries: seq<Entry>)
    requires ParsesTo(SplitLines(text), entries)
    ensures Print(entries) == text
    decreases |text|
  {
    if text != "" {
      var n := FirstLine(text);
      var lines := SplitLines(text);
      assert lines == [text[..n]] + SplitLines(text[n..]);
      assert lines[1..] == SplitLines(text[n..]);
      assert ParseLine(lines[0]) == Some(entries[0]);
      PrintParsedLine(text[..n]);
      assert ParsesTo(lines[1..], entries[1..]);
      ParsedPrints(text[n..], entries[1..]);
      assert text == text[..n] + text[n..];
    } else {
      assert entries == [];
    }
  }

  predicate Covers(l: Layout, entries: seq<Entry>) {
    |entries| == |l.covered| && forall i :: 0 <= i < |entries| ==> entries[i].path == l.covered[i]
  }

  /** parse_checksums on ASCII text: one entry per covered path, in sorted order, nothing else. */
  method ParseChecksums(l: Layout, text: string) returns (r: Result<seq<Entry>>)
    requires WellFormed(l)
    ensures r.Ok? ==> Covers(l, r.value) && Print(r.value) == text
    ensures forall entries: seq<Entry> :: Covers(l, entries) && Print(entries) == text ==> r == Ok(entries)
  {
    var lines := SplitLines(text);
    var result: seq<Entry> := [];
    for i := 0 to |lines|
      invariant ParsesTo(lines[..i], result)
      invariant forall a, b :: 0 <= a < b < |result| ==> result[a].path != result[b].path
    {
      var e := ParseLine(lines[i]);
      if e.None? {
        RefusedLine(l, text, i);
        return Err("checksum file has invalid syntax");
      }
      if (exists a :: 0 <= a < |result| && result[a].path == e.value.path) || e.value.path == l.checksum
         || e.value.path !in AllowedPaths(l) {
        RefusedPath(l, text, result, i);
        return Err("checksum file has duplicate or forbidden path");
      }
      result := result + [e.value];
    }
    assert lines[..|lines|] == lines;
    ParsedPrints(text, result);
    if |result| != |l.covered| || exists i :: 0 <= i < |result| && result[i].path != l.covered[i] {
      OnlyItsOwnEntries(l, text, result);
      return Err("checksum file path set or ordering is invalid");
    }
    OnlyItsOwnEntries(l, text, result);
    r := Ok(result);
  }

  lemma CoveringPrintsParse(l: Layout, text: string, entries: seq<Entry>)
    requires WellFormed(l) && Covers(l, entries) && Print(entries) == text
    ensures ParsesTo(SplitLines(text), entries)
  {
    PrintedParses(entries);
  }

  lemma RefusedLine(l: Layout, text: string, i: nat)
    requires WellFormed(l) && i < |SplitLines(text)| && ParseLine(SplitLines(text)[i]).None?
    ensures forall entries: seq<Entry> :: Covers(l, entries) ==> Print(entries) != text
  {
    forall entries: seq<Entry> | Covers(l, entries)
      ensures Print(entries) != text
    {
      if Print(entries) == text {
        CoveringPrintsParse(l, text, entries);
      }
    }
  }

  lemma EntriesAgree(l: Layout, lines: seq<string>, entries: seq<Entry>, result: seq<Entry>, i: nat)
    requires WellFormed(l) && Covers(l, entries) && ParsesTo(lines, entries)
    requires i < |lines| && ParsesTo(lines[..i], result)
    ensures entries[..i] == result && ParseLine(lines[i]) == Some(entries[i]) && entries[i].path in l.covered
    ensures forall a :: 0 <= a < i ==> result[a].path != entries[i].path
  {
    forall a | 0 <= a < i
      ensures entries[a] == result[a]
    {
      assert lines[..i][a] == lines[a];
    }
  }

  lemma RefusedPath(l: Layout, text: string, result: seq<Entry>, i: nat)
    requires WellFormed(l) && i < |SplitLines(text)| && ParsesTo(SplitLines(text)[..i], result)
    requires ParseLine(SplitLines(text)[i]).Some?
    requires var path := ParseLine(SplitLines(text)[i]).value.path;
             (exists a :: 0 <= a < |result| && result[a].path == path) || path == l.checksum || path !in AllowedPaths(l)
    ensures forall entries: seq<Entry> :: Covers(l, entries) ==> Print(entries) != text
  {
    forall entries: seq<Entry> | Covers(l, entries)
      ensures Print(entries) != text
    {
      if Print(entries) == text {
        CoveringPrintsParse(l, text, entries);
        EntriesAgree(l, SplitLines(text), entries, result, i);
      }
    }
  }

  lemma OnlyItsOwnEntries(l: Layout, text: string, result: seq<Entry>)
    requires WellFormed(l) && ParsesTo(SplitLines(text), result)
    ensures forall entries: seq<Entry> :: Covers(l, entries) && Print(entries) == text ==> entries == result
  {
    forall entries: seq<Entry> | Covers(l, entries) && Print(entries) == text
      ensures entries == result
    {
      CoveringPrintsParse(l, text, entries);
      forall i | 0 <= i < |entries|
        ensures entries[i] == result[i]
      {
        assert ParseLine(SplitLines(text)[i]) == Some(entries[i]);
      }
    }
  }

  // ----- the checksum file of a file set -----

  function EntriesOf(p: Primitives, l: Layout, files: map<string, seq<byte>>): seq<Entry>
    requires forall i :: 0 <= i < |l.covered| ==> l.covered[i] in files
  {
    seq(|l.covered|, i requires 0 <= i < |l.covered| => Entry(p.sha256(files[l.covered[i]]), l.covered[i]))
  }

  /** _checksum_file. */
  function ChecksumFile(p: Primitives, l: Layout, files: map<string, seq<byte>>): seq<byte>
    requires forall i :: 0 <= i < |l.covered| ==> l.covered[i] in files
  {
    Ascii(Print(EntriesOf(p, l, files)))
  }

  predicate IsAsciiText(s: string) {
    forall c :: c in s ==> c as int < 128
  }

  /** bytes.decode("ascii"). */
  function DecodeAscii(b: seq<byte>): (r: Option<string>)
    ensures r.Some? ==> Ascii(r.value) == b
  {
    if forall i :: 0 <= i < |b| ==> b[i] < 128
    then Some(seq(|b|, i requires 0 <= i < |b| => b[i] as char))
    else None
  }

  lemma DecodeUndoesAscii(s: string)
    requires IsAsciiText(s)
    ensures DecodeAscii(Ascii(s)) == Some(s)
  {
    forall i | 0 <= i < |s|
      ensures s[i] as int < 128 && Ascii(s)[i] == s[i] as int
    {
      assert s[i] in s;
    }
    assert DecodeAscii(Ascii(s)).value == s;
  }

  lemma {:induction false} PrintIsAscii(entries: seq<Entry>)
    requires forall i :: 0 <= i < |entries| ==> IsPath(entries[i].path)
    ensures IsAsciiText(Print(entries))
  {
    if entries != [] {
      PrintIsAscii(entries[1..]);
      forall c | c in PrintLine(entries[0])
        ensures c as int < 128
      {
        assert c in entries[0].digest || c in "  " || c in entries[0].path || c == '\n';
      }
    }
  }

  // ----- the evidence index -----

  const MAX_FILE_BYTES := 2 * 1024 * 1024

  predicate SafeSize(content: seq<byte>) {
    1 <= |content| <= MAX_FILE_BYTES
  }

  predicate IsIndexEntry(v: Json, path: string) {
    && v.JObj? && v.schema == EvidenceIndexEntryKeys && |v.members| == 3
    && v.members[0] == JStr(path)
    && v.members[1].JStr? && IsHex64(v.members[1].text)
    && v.members[2].JNum? && 1 <= v.members[2].number <= MAX_FILE_BYTES
  }

  /** EvidenceIndex.model_validate: every auxiliary path, in frozen order.  The version has a
      default and may be absent. */
  predicate IsIndex(l: Layout, v: Json) {
    && v.JObj?
    && (|| (v.schema == EvidenceIndexKeys && |v.members| == 2 && v.members[1].JStr?)
        || (v.schema == UnversionedEvidenceIndexKeys && |v.members| == 1))
    && v.members[0].JArr? && |v.members[0].items| == |l.auxiliary|
    && forall i :: 0 <= i < |l.auxiliary| ==> IsIndexEntry(v.members[0].items[i], l.auxiliary[i])
  }

  predicate IndexVerifies(c: Crypto, l: Layout, bytes: seq<byte>) {
    var v := ParseCanonical(c, bytes);
    v.Some? && IsIndex(l, v.value)
  }

  function IndexEntry(p: Primitives, path: string, content: seq<byte>): Json
    requires SafeSize(content)
  {
    JObj(EvidenceIndexEntryKeys, [JStr(path), JStr(p.sha256(content)), JNum(|content|)])
  }

  /** Every auxiliary file is there and has a safe size. */
  predicate AuxiliaryComplete(l: Layout, auxiliary: map<string, seq<byte>>) {
    forall i :: 0 <= i < |l.auxiliary| ==> l.auxiliary[i] in auxiliary && SafeSize(auxiliary[l.auxiliary[i]])
  }

  /** prepare_evidence's index over the auxiliary files. */
  function IndexDocument(p: Primitives, l: Layout, auxiliary: map<string, seq<byte>>): Json
    requires AuxiliaryComplete(l, auxiliary)
  {
    JObj(EvidenceIndexKeys,
         [JArr(seq(|l.auxiliary|, i requires 0 <= i < |l.auxiliary| =>
             IndexEntry(p, l.auxiliary[i], auxiliary[l.auxiliary[i]]))),
          JStr("authority-bundle-v1")])
  }

  /** A layout of a few short paths. */
  predicate IsSmall(l: Layout) {
    |l.auxiliary| <= 64 && forall i :: 0 <= i < |l.auxiliary| ==> |l.auxiliary[i]| <= 256
  }

  lemma EntryIsShort(p: Primitives, path: string, content: seq<byte>)
    requires |path| <= 256 && SafeSize(content)
    ensures PrintBound(IndexEntry(p, path, content)) <= 6000
  {
    PrintBoundsOfMany(IndexEntry(p, path, content).members, 6 * 256 + 2);
  }

  lemma IndexIsJson(p: Primitives, l: Layout, auxiliary: map<string, seq<byte>>)
    requires AuxiliaryComplete(l, auxiliary)
    ensures IsJson(IndexDocument(p, l, auxiliary))
  {
    var index := IndexDocument(p, l, auxiliary);
    var entries := index.members[0].items;
    forall i | 0 <= i < |entries|
      ensures IsJson(entries[i])
    {
      EntryIsJson(p, l.auxiliary[i], auxiliary[l.auxiliary[i]]);
    }
    assert IsJson(index.members[0]) && IsJson(index.members[1]);
  }

  lemma EntryIsJson(p: Primitives, path: string, content: seq<byte>)
    requires SafeSize(content)
    ensures IsJson(IndexEntry(p, path, content))
  {
  }

  /** The index of a small layout fits the file limit. */
  lemma IndexFits(p: Primitives, l: Layout, auxiliary: map<string, seq<byte>>)
    requires PrintsWithinBound(p) && IsSmall(l) && AuxiliaryComplete(l, auxiliary)
    ensures |p.canonical(IndexDocument(p, l, auxiliary))| <= MAX_FILE_BYTES
  {
    var index := IndexDocument(p, l, auxiliary);
    var entries := index.members[0].items;
    forall i | 0 <= i < |entries|
      ensures PrintBound(entries[i]) <= 6000
    {
      EntryIsShort(p, l.auxiliary[i], auxiliary[l.auxiliary[i]]);
    }
    PrintBoundsOfMany(entries, 6000);
    assert PrintBound(index.members[0]) <= 2 + 64 * 6001;
    PrintBoundsOfMany(index.members, 2 + 64 * 6001);
    IndexIsJson(p, l, auxiliary);
  }

  // ----- validation -----

  function BundleDigest(p: Primitives, checksums: seq<byte>): Digest {
    p.sha256(ChecksumPreimage(checksums))
  }

  /** What a downloaded file set must be: its checksum file is byte for byte the one that would be
      printed for its other files. */
  ghost predicate Valid(c: Crypto, l: Layout, files: map<string, seq<byte>>) {
    && files.Keys == AllowedPaths(l)
    && (forall path :: path in files ==> SafeSize(files[path]))
    && (forall i :: 0 <= i < |l.covered| ==> l.covered[i] in files)
    && files[l.checksum] == ChecksumFile(c.p, l, files)
    && l.index in files && IndexVerifies(c, l, files[l.index])
  }

  lemma MatchingEntriesAreTheFiles(p: Primitives, l: Layout, files: map<string, seq<byte>>, entries: seq<Entry>)
    requires Covers(l, entries) && forall i :: 0 <= i < |l.covered| ==> l.covered[i] in files
    requires forall i :: 0 <= i < |entries| ==> p.sha256(files[entries[i].path]) == entries[i].digest
    ensures entries == EntriesOf(p, l, files)
  {
  }

  method SizesAreSafe(files: map<string, seq<byte>>) returns (safe: bool)
    ensures safe <==> forall path :: path in files ==> SafeSize(files[path])
  {
    var rest := files.Keys;
    while rest != {}
      invariant rest <= files.Keys
      invariant forall path :: path in files && path !in rest ==> SafeSize(files[path])
      decreases |rest|
    {
      var path :| path in rest;
      rest := rest - {path};
      if !SafeSize(files[path]) {
        return false;
      }
    }
    safe := true;
  }

  /** Parse the checksum file and compare every digest: exactly the printed form passes. */
  method ChecksumsHold(p: Primitives, l: Layout, files: map<string, seq<byte>>) returns (error: Option<string>)
    requires WellFormed(l) && l.checksum in files && forall i :: 0 <= i < |l.covered| ==> l.covered[i] in files
    ensures error.None? <==> files[l.checksum] == ChecksumFile(p, l, files)
  {
    OwnChecksumsParse(p, l, files);
    var text := DecodeAscii(files[l.checksum]);
    if text.None? {
      return Some("checksum file is not ASCII");
    }
    var parsed := ParseChecksums(l, text.value);
    if parsed.Err? {
      return Some(parsed.reason);
    }
    for i := 0 to |parsed.value|
      invariant forall k :: 0 <= k < i ==> p.sha256(files[parsed.value[k].path]) == parsed.value[k].digest
    {
      if p.sha256(files[parsed.value[i].path]) != parsed.value[i].digest {
        MismatchIsNotPrinted(p, l, files, parsed.value, i);
        return Some("checksum mismatch");
      }
    }
    MatchingEntriesAreTheFiles(p, l, files, parsed.value);
    error := None;
  }

  /** Two covering entry lists never print the same text. */
  lemma PrintIsInjective(l: Layout, a: seq<Entry>, b: seq<Entry>)
    requires WellFormed(l) && Covers(l, a) && Covers(l, b) && Print(a) == Print(b)
    ensures a == b
  {
    CoveringPrintsParse(l, Print(a), a);
    OnlyItsOwnEntries(l, Print(a), a);
  }

  lemma OwnDigest(p: Primitives, l: Layout, files: map<string, seq<byte>>, i: nat)
    requires i < |l.covered| && forall k :: 0 <= k < |l.covered| ==> l.covered[k] in files
    ensures EntriesOf(p, l, files)[i].digest == p.sha256(files[l.covered[i]])
    ensures Covers(l, EntriesOf(p, l, files))
  {
  }

  lemma MismatchIsNotPrinted(p: Primitives, l: Layout, files: map<string, seq<byte>>, entries: seq<Entry>, i: nat)
    requires WellFormed(l) && Covers(l, entries) && forall k :: 0 <= k < |l.covered| ==> l.covered[k] in files
    requires i < |entries| && p.sha256(files[entries[i].path]) != entries[i].digest
    ensures Print(entries) != Print(EntriesOf(p, l, files))
  {
    var own := EntriesOf(p, l, files);
    OwnDigest(p, l, files, i);
    if Print(entries) == Print(own) {
      PrintIsInjective(l, entries, own);
    }
  }

  /** validate_bundle_files accepts exactly the valid file sets and returns their digest. */
  method ValidateBundleFiles(c: Crypto, l: Layout, files: map<string, seq<byte>>) returns (r: Result<Digest>)
    requires WellFormed(l) && l.index in l.covered
    ensures r.Ok? <==> Valid(c, l, files)
    ensures r.Ok? ==> l.checksum in files && r.value == BundleDigest(c.p, files[l.checksum])
  {
    if files.Keys != AllowedPaths(l) {
      return Err("bundle file set differs from frozen layout");
    }
    var safe := SizesAreSafe(files);
    if !safe {
      return Err("bundle file has invalid size");
    }
    var problem := ChecksumsHold(c.p, l, files);
    if problem.Some? {
      return Err(problem.value);
    }
    if !IndexVerifies(c, l, files[l.index]) {
      return Err("evidence index is not strict canonical evidence");
    }
    r := Ok(BundleDigest(c.p, files[l.checksum]));
  }

  /** The file set's own checksum file decodes to its own printed entries. */
  lemma OwnChecksumsParse(p: Primitives, l: Layout, files: map<string, seq<byte>>)
    requires WellFormed(l) && forall i :: 0 <= i < |l.covered| ==> l.covered[i] in files
    ensures Covers(l, EntriesOf(p, l, files))
    ensures DecodeAscii(ChecksumFile(p, l, files)) == Some(Print(EntriesOf(p, l, files)))
  {
    PrintIsAscii(EntriesOf(p, l, files));
    DecodeUndoesAscii(Print(EntriesOf(p, l, files)));
  }

  // ----- one digest, one bundle -----

  function ChecksumPreimage(checksums: seq<byte>): seq<byte> {
    Ascii("recallops-authority-bundle-v1") + [0] + checksums
  }

  /** The bytes validation hashes. */
  ghost function HashedFiles(l: Layout, files: map<string, seq<byte>>): set<seq<byte>>
    requires l.checksum in files
  {
    {ChecksumPreimage(files[l.checksum])} + set path | path in files && path != l.checksum :: files[path]
  }

  lemma SameChecksumsSameDigests(p: Primitives, l: Layout, a: map<string, seq<byte>>, b: map<string, seq<byte>>)
    requires WellFormed(l) && forall i :: 0 <= i < |l.covered| ==> l.covered[i] in a && l.covered[i] in b
    requires ChecksumFile(p, l, a) == ChecksumFile(p, l, b)
    ensures forall i :: 0 <= i < |l.covered| ==> p.sha256(a[l.covered[i]]) == p.sha256(b[l.covered[i]])
  {
    OwnChecksumsParse(p, l, a);
    OwnChecksumsParse(p, l, b);
    var x, y := EntriesOf(p, l, a), EntriesOf(p, l, b);
    PrintIsInjective(l, x, y);
    forall i | 0 <= i < |l.covered|
      ensures p.sha256(a[l.covered[i]]) == p.sha256(b[l.covered[i]])
    {
      assert x[i].digest == y[i].digest;
    }
  }

  lemma SameDigestsSameFiles(p: Primitives, l: Layout, a: map<string, seq<byte>>, b: map<string, seq<byte>>)
    requires l.checksum in a && l.checksum in b && a.Keys == b.Keys == AllowedPaths(l) && l.checksum !in l.covered
    requires CollisionFree(p, HashedFiles(l, a) + HashedFiles(l, b))
    requires a[l.checksum] == b[l.checksum]
    requires forall i :: 0 <= i < |l.covered| ==>
               l.covered[i] in a && l.covered[i] in b && p.sha256(a[l.covered[i]]) == p.sha256(b[l.covered[i]])
    ensures a == b
  {
    forall path | path in a
      ensures path in b && a[path] == b[path]
    {
      if path != l.checksum {
        assert path in l.covered;
        assert a[path] in HashedFiles(l, a) && b[path] in HashedFiles(l, b);
      }
    }
  }

  /** Two file sets that validate to one bundle digest are byte-identical, unless the bytes that
      validation hashes collide. */
  lemma OneDigestOneBundle(c: Crypto, l: Layout, a: map<string, seq<byte>>, b: map<string, seq<byte>>)
    requires WellFormed(l) && Valid(c, l, a) && Valid(c, l, b) && l.checksum in a && l.checksum in b
    requires CollisionFree(c.p, HashedFiles(l, a) + HashedFiles(l, b))
    requires BundleDigest(c.p, a[l.checksum]) == BundleDigest(c.p, b[l.checksum])
    ensures a == b
  {
    var x, y := ChecksumPreimage(a[l.checksum]), ChecksumPreimage(b[l.checksum]);
    assert x in HashedFiles(l, a) && y in HashedFiles(l, b);
    var n := |Ascii("recallops-authority-bundle-v1")| + 1;
    assert x[n..] == a[l.checksum] && y[n..] == b[l.checksum];
    SameChecksumsSameDigests(c.p, l, a, b);
    SameDigestsSameFiles(c.p, l, a, b);
  }

  // ----- building -----

  /** What build_authority_bundle is given; `trusted` says that its causal, receipt, release and
      claim checks passed. */
  datatype Parts = Parts(
    auxiliary: map<string, seq<byte>>, manifest: JsonValue, receipt: seq<byte>, readme: seq<byte>,
    boundIndexDigest: Digest, trusted: bool)

  const RECEIPT_MANIFEST_MAX_BYTES := 2048

  datatype Built = Built(files: map<string, seq<byte>>, digest: Digest)

  function Assemble(c: Crypto, l: Layout, parts: Parts, index: seq<byte>): map<string, seq<byte>> {
    parts.auxiliary[l.index := index][l.manifest := c.p.canonical(parts.manifest)][l.receipt := parts.receipt][l.readme := parts.readme]
  }

  lemma Assembled(c: Crypto, l: Layout, parts: Parts, index: seq<byte>)
    requires Partitioned(l) && parts.auxiliary.Keys == (set path | path in l.auxiliary)
    ensures var files := Assemble(c, l, parts, index);
            && files.Keys == (set path | path in l.covered)
            && (forall i :: 0 <= i < |l.covered| ==> l.covered[i] in files)
            && files[l.index] == index && files[l.manifest] == c.p.canonical(parts.manifest)
            && files[l.receipt] == parts.receipt && files[l.readme] == parts.readme
            && (forall path :: path in parts.auxiliary ==> files[path] == parts.auxiliary[path])
  {
    var files, n := Assemble(c, l, parts, index), |l.auxiliary|;
    var all := l.auxiliary + [l.index, l.manifest, l.receipt, l.readme];
    assert all[n] == l.index && all[n + 1] == l.manifest && all[n + 2] == l.receipt && all[n + 3] == l.readme;
    assert files.Keys == (set path | path in l.covered);
    forall i | 0 <= i < |l.covered|
      ensures l.covered[i] in files
    {
      assert l.covered[i] in files.Keys;
    }
    forall path | path in parts.auxiliary
      ensures files[path] == parts.auxiliary[path]
    {
      var i :| 0 <= i < n && l.auxiliary[i] == path;
      assert all[i] == path;
    }
  }

  /** build_authority_bundle, after its trust checks. */
  function Build(c: Crypto, l: Layout, parts: Parts): Result<Built>
    requires Partitioned(l)
  {
    if !parts.trusted then Err("a trust binding does not verify")
    else if parts.auxiliary.Keys != (set path | path in l.auxiliary)
            || exists path :: path in parts.auxiliary && !SafeSize(parts.auxiliary[path])
    then Err("bundle file has invalid size")
    else
      assert AuxiliaryComplete(l, parts.auxiliary);
      var index := c.p.canonical(IndexDocument(c.p, l, parts.auxiliary));
      if c.p.sha256(index) != parts.boundIndexDigest
      then Err("evidence index digest differs from signed receipt binding")
      else if |c.p.canonical(parts.manifest)| > RECEIPT_MANIFEST_MAX_BYTES
      then Err("canonical receipt manifest exceeds 2048 bytes")
      else if !SafeSize(parts.receipt) || !SafeSize(parts.readme) then Err("bundle file has invalid size")
      else
        var files := Assemble(c, l, parts, index);
        Assembled(c, l, parts, index);
        var checksums := ChecksumFile(c.p, l, files);
        if !SafeSize(checksums) then Err("bundle file has invalid size")
        else Ok(Built(files[l.checksum := checksums], BundleDigest(c.p, checksums)))
  }

  lemma BuiltIndexVerifies(c: Crypto, l: Layout, auxiliary: map<string, seq<byte>>)
    requires ParsesCanonical(c) && AuxiliaryComplete(l, auxiliary)
    ensures IndexVerifies(c, l, c.p.canonical(IndexDocument(c.p, l, auxiliary)))
  {
    IndexIsJson(c.p, l, auxiliary);
  }

  lemma ChecksumFileIgnoresItself(p: Primitives, l: Layout, files: map<string, seq<byte>>, checksums: seq<byte>)
    requires WellFormed(l) && forall i :: 0 <= i < |l.covered| ==> l.covered[i] in files
    ensures forall i :: 0 <= i < |l.covered| ==> l.covered[i] in files[l.checksum := checksums]
    ensures ChecksumFile(p, l, files[l.checksum := checksums]) == ChecksumFile(p, l, files)
  {
    assert EntriesOf(p, l, files[l.checksum := checksums]) == EntriesOf(p, l, files);
  }

  lemma AssembledSizes(c: Crypto, l: Layout, parts: Parts, index: seq<byte>)
    requires Partitioned(l) && parts.auxiliary.Keys == (set path | path in l.auxiliary)
    requires forall path :: path in parts.auxiliary ==> SafeSize(parts.auxiliary[path])
    requires SafeSize(parts.receipt) && SafeSize(parts.readme)
    requires SafeSize(c.p.canonical(parts.manifest)) && SafeSize(index)
    ensures forall path :: path in Assemble(c, l, parts, index) ==> SafeSize(Assemble(c, l, parts, index)[path])
  {
    Assembled(c, l, parts, index);
  }

  /** Every built bundle validates, to its own digest. */
  lemma BuiltBundleValidates(c: Crypto, l: Layout, parts: Parts)
    requires WellFormed(l) && Partitioned(l) && IsSmall(l)
    requires ParsesCanonical(c) && PrintsWithinBound(c.p)
    requires Build(c, l, parts).Ok?
    ensures var built := Build(c, l, parts).value;
            && Valid(c, l, built.files)
            && l.checksum in built.files && built.digest == BundleDigest(c.p, built.files[l.checksum])
  {
    var index := BuildMeans(c, l, parts);
    BuiltFilesValidate(c, l, parts, index, Build(c, l, parts).value.files);
  }

  lemma BuildMeans(c: Crypto, l: Layout, parts: Parts) returns (index: seq<byte>)
    requires Partitioned(l) && IsSmall(l) && ParsesCanonical(c) && PrintsWithinBound(c.p) && Build(c, l, parts).Ok?
    ensures IndexVerifies(c, l, index) && SafeSize(index) && SafeSize(c.p.canonical(parts.manifest))
    ensures parts.auxiliary.Keys == (set path | path in l.auxiliary)
    ensures forall path :: path in parts.auxiliary ==> SafeSize(parts.auxiliary[path])
    ensures SafeSize(parts.receipt) && SafeSize(parts.readme)
    ensures forall i :: 0 <= i < |l.covered| ==> l.covered[i] in Assemble(c, l, parts, index)
    ensures var checksums := ChecksumFile(c.p, l, Assemble(c, l, parts, index));
            && SafeSize(checksums)
            && Build(c, l, parts).value == Built(Assemble(c, l, parts, index)[l.checksum := checksums], BundleDigest(c.p, checksums))
  {
    assert AuxiliaryComplete(l, parts.auxiliary);
    index := c.p.canonical(IndexDocument(c.p, l, parts.auxiliary));
    Assembled(c, l, parts, index);
    BuiltIndexVerifies(c, l, parts.auxiliary);
    IndexFits(c.p, l, parts.auxiliary);
    IndexIsJson(c.p, l, parts.auxiliary);
    assert c.p.canonical(parts.manifest) != [];
  }

  lemma BuiltFilesValidate(c: Crypto, l: Layout, parts: Parts, index: seq<byte>, files: map<string, seq<byte>>)
    requires WellFormed(l) && Partitioned(l) && IndexVerifies(c, l, index)
    requires parts.auxiliary.Keys == (set path | path in l.auxiliary)
    requires forall path :: path in parts.auxiliary ==> SafeSize(parts.auxiliary[path])
    requires SafeSize(parts.receipt) && SafeSize(parts.readme)
    requires SafeSize(c.p.canonical(parts.manifest)) && SafeSize(index)
    requires forall i :: 0 <= i < |l.covered| ==> l.covered[i] in Assemble(c, l, parts, index)
    requires SafeSize(ChecksumFile(c.p, l, Assemble(c, l, parts, index)))
    requires files == Assemble(c, l, parts, index)[l.checksum := ChecksumFile(c.p, l, Assemble(c, l, parts, index))]
    ensures Valid(c, l, files)
  {
    var inner := Assemble(c, l, parts, index);
    Assembled(c, l, parts, index);
    AssembledSizes(c, l, parts, index);
    ChecksumFileIgnoresItself(c.p, l, inner, files[l.checksum]);
    assert l.index in inner && l.index != l.checksum;
    assert forall path :: path in inner ==> path != l.checksum && files[path] == inner[path];
    assert files.Keys == AllowedPaths(l);
  }

  // ----- the frozen layout is one of these -----

  lemma FrozenStartsSorted(i: nat)
    requires 0 < i <= 5
    ensures Less(FROZEN.covered[i - 1], FROZEN.covered[i])
  {
    var c := FROZEN.covered;
    assert LessAt(c[0], c[1], 0);
    assert LessAt(c[1], c[2], 0);
    assert LessAt(c[2], c[3], 11);
    assert LessAt(c[3], c[4], 2);
    assert LessAt(c[4], c[5], 2);
  }

  lemma FrozenEndsSorted(i: nat)
    requires 5 < i < 12
    ensures Less(FROZEN.covered[i - 1], FROZEN.covered[i])
  {
    var c := FROZEN.covered;
    assert LessAt(c[5], c[6], 0);
    assert LessAt(c[6], c[7], 0);
    assert LessAt(c[7], c[8], 7);
    assert LessAt(c[8], c[9], 1);
    assert LessAt(c[9], c[10], 0);
    assert LessAt(c[10], c[11], 2);
  }

  lemma FrozenIsSorted()
    ensures forall i :: 0 < i < |FROZEN.covered| ==> Less(FROZEN.covered[i - 1], FROZEN.covered[i])
  {
    forall i: nat | 0 < i < 12
      ensures Less(FROZEN.covered[i - 1], FROZEN.covered[i])
    {
      if i <= 5 {
        FrozenStartsSorted(i);
      } else {
        FrozenEndsSorted(i);
      }
    }
  }

  /** A strictly sorted list repeats nothing. */
  lemma {:induction false} SortedLess(paths: seq<string>, i: nat, j: nat)
    requires i < j < |paths| && forall k :: 0 < k < |paths| ==> Less(paths[k - 1], paths[k])
    ensures Less(paths[i], paths[j]) && paths[i] != paths[j]
    decreases j - i
  {
    if i + 1 < j {
      SortedLess(paths, i, j - 1);
      assert Less(paths[j - 1], paths[j]);
      LessTransitive(paths[i], paths[j - 1], paths[j]);
    } else {
      assert Less(paths[j - 1], paths[j]);
    }
  }

  lemma FrozenIsDistinct()
    ensures Distinct(FROZEN.covered)
  {
    FrozenIsSorted();
    var c := FROZEN.covered;
    forall i, j | 0 <= i < j < |c|
      ensures c[i] != c[j]
    {
      SortedLess(c, i, j);
    }
  }

  lemma PathsConcatenate(a: string, b: string)
    requires IsPath(a) && IsPath(b)
    ensures IsPath(a + b)
  {
  }

  lemma NestedPathsAreSpelled()
    ensures IsPath("evaluation/" + "case.json") && IsPath("evaluation/" + "result.json")
    ensures IsPath("policy/" + "capability-policy" + ".json") && IsPath("policy/" + "receipt-policy" + ".json")
  {
    PathsConcatenate("evaluation/", "case.json");
    PathsConcatenate("evaluation/", "result.json");
    PathsConcatenate("policy/", "capability-policy");
    PathsConcatenate("policy/" + "capability-policy", ".json");
    PathsConcatenate("policy/", "receipt-policy");
    PathsConcatenate("policy/" + "receipt-policy", ".json");
  }

  lemma LongPathsAreSpelled()
    ensures IsPath("evidence-index" + ".jcs.json") && IsPath("manifest" + ".jcs.json") && IsPath("public.jwk" + ".json")
  {
    PathsConcatenate("evidence-index", ".jcs.json");
    PathsConcatenate("manifest", ".jcs.json");
    PathsConcatenate("public.jwk", ".json");
  }

  lemma ShortPathsAreSpelled()
    ensures IsPath("README.md") && IsPath("claims.json") && IsPath("events.ndjson")
    ensures IsPath("receipt.jws") && IsPath("release.json")
  {
  }

  lemma FrozenPathsAreSpelled(i: nat)
    requires i < 12
    ensures IsPath(FROZEN.covered[i])
  {
    NestedPathsAreSpelled();
    LongPathsAreSpelled();
    ShortPathsAreSpelled();
  }

  lemma ChecksumIsNotCovered(i: nat)
    requires i < 12
    ensures FROZEN.covered[i] != FROZEN.checksum
  {
    assert FROZEN.checksum[1] == 'h' && FROZEN.checksum[0] == 'c' && |FROZEN.checksum| == 16;
  }

  lemma FrozenIsWellFormed()
    ensures WellFormed(FROZEN) && FROZEN.index in FROZEN.covered
  {
    FrozenIsDistinct();
    forall i: nat | i < 12
      ensures IsPath(FROZEN.covered[i]) && FROZEN.covered[i] != FROZEN.checksum
    {
      FrozenPathsAreSpelled(i);
      ChecksumIsNotCovered(i);
    }
    assert FROZEN.covered[5] == FROZEN.index;
  }

  function PartsInOrder(l: Layout): seq<string> {
    l.auxiliary + [l.index, l.manifest, l.receipt, l.readme]
  }

  /** The parts are the covered list, rearranged. */
  predicate Rearranges(l: Layout, at: seq<nat>) {
    && |at| == |l.covered| == |PartsInOrder(l)|
    && (forall i :: 0 <= i < |at| ==> at[i] < |at| && PartsInOrder(l)[i] == l.covered[at[i]])
    && (forall i, j :: 0 <= i < j < |at| ==> at[i] != at[j])
    && (forall k :: 0 <= k < |at| ==> k in at)
  }

  lemma RearrangedIsPartitioned(l: Layout, at: seq<nat>)
    requires Distinct(l.covered) && Rearranges(l, at)
    ensures Partitioned(l)
  {
    var all := PartsInOrder(l);
    forall i, j | 0 <= i < j < |all|
      ensures all[i] != all[j]
    {
      assert at[i] != at[j];
    }
    forall path | path in l.covered
      ensures path in all
    {
      var k :| 0 <= k < |l.covered| && l.covered[k] == path;
      assert k in at;
      var i :| 0 <= i < |at| && at[i] == k;
      assert all[i] == path;
    }
    forall path | path in all
      ensures path in l.covered
    {
      var i :| 0 <= i < |all| && all[i] == path;
      assert l.covered[at[i]] == path;
    }
    assert (set path | path in l.covered) == (set path | path in all);
  }

  const FROZEN_ORDER: seq<nat> := [9, 4, 7, 8, 2, 3, 11, 1, 5, 6, 10, 0]

  lemma FrozenOrderPermutes()
    ensures |FROZEN_ORDER| == 12 && forall i :: 0 <= i < 12 ==> FROZEN_ORDER[i] < 12
    ensures forall i, j :: 0 <= i < j < 12 ==> FROZEN_ORDER[i] != FROZEN_ORDER[j]
    ensures forall k :: 0 <= k < 12 ==> k in FROZEN_ORDER
  {
    var at := FROZEN_ORDER;
    assert at[11] == 0 && at[7] == 1 && at[4] == 2 && at[5] == 3 && at[1] == 4 && at[8] == 5
           && at[9] == 6 && at[2] == 7 && at[3] == 8 && at[0] == 9 && at[10] == 10 && at[6] == 11;
  }

  lemma FrozenPartsAreCovered(i: nat)
    requires i < 12
    ensures |FROZEN.covered| == |PartsInOrder(FROZEN)| == 12
    ensures FROZEN_ORDER[i] < 12 && PartsInOrder(FROZEN)[i] == FROZEN.covered[FROZEN_ORDER[i]]
  {
  }

  lemma FrozenIsPartitioned()
    ensures Partitioned(FROZEN)
  {
    FrozenIsDistinct();
    FrozenOrderPermutes();
    forall i: nat | i < 12
      ensures |FROZEN.covered| == |PartsInOrder(FROZEN)| == 12
      ensures PartsInOrder(FROZEN)[i] == FROZEN.covered[FROZEN_ORDER[i]]
    {
      FrozenPartsAreCovered(i);
    }
    FrozenPartsAreCovered(0);
    RearrangedIsPartitioned(FROZEN, FROZEN_ORDER);
  }

  lemma FrozenIsSmall()
    ensures IsSmall(FROZEN)
  {
  }
}
