/** What is in a bundle (authority_bundle.py): which documents pass as an evidence index, when a bundle is
    built and what its files then are, and what a validated index does not promise. */
module BundleContents {
  import opened Common
  import opened Canonical
  import opened CompactJws
  import opened Bundle

  /** One line of an evidence index. */
  datatype Listed = Listed(digest: string, size: int)

  predicate Bounded(size: int) {
    0 < size <= 2097152
  }

  predicate Hexadecimal(s: string) {
    |s| == 64 && forall k :: 0 <= k < 64 ==> '0' <= s[k] <= '9' || 'a' <= s[k] <= 'f'
  }

  function ListedEntry(path: string, x: Listed): Json
    requires Bounded(x.size)
  {
    JObj(EvidenceIndexEntryKeys, [JStr(path), JStr(x.digest), JNum(x.size)])
  }

  predicate ListsAll(l: Layout, xs: seq<Listed>) {
    |xs| == |l.auxiliary| && forall i :: 0 <= i < |xs| ==> Hexadecimal(xs[i].digest) && Bounded(xs[i].size)
  }

  /** The index that lists these digests and sizes for the auxiliary paths, in their frozen order. */
  function IndexOf(l: Layout, xs: seq<Listed>, version: Option<string>): Json
    requires ListsAll(l, xs)
  {
    var entries := JArr(seq(|xs|, i requires 0 <= i < |xs| => ListedEntry(l.auxiliary[i], xs[i])));
    if version.Some? then JObj(EvidenceIndexKeys, [entries, JStr(version.value)])
    else JObj(UnversionedEvidenceIndexKeys, [entries])
  }

  lemma EntryIsListed(v: Json, path: string) returns (x: Listed)
    requires IsIndexEntry(v, path)
    ensures Hexadecimal(x.digest) && Bounded(x.size) && v == ListedEntry(path, x)
  {
    x := Listed(v.members[1].text, v.members[2].number);
  }

  lemma {:induction false} EntriesAreListed(items: seq<Json>, paths: seq<string>) returns (xs: seq<Listed>)
    requires |items| == |paths| && forall i :: 0 <= i < |items| ==> IsIndexEntry(items[i], paths[i])
    ensures |xs| == |items|
    ensures forall i :: 0 <= i < |xs| ==>
              Hexadecimal(xs[i].digest) && Bounded(xs[i].size) && items[i] == ListedEntry(paths[i], xs[i])
  {
    if items == [] {
      xs := [];
    } else {
      var n := |items| - 1;
      xs := EntriesAreListed(items[..n], paths[..n]);
      var x := EntryIsListed(items[n], paths[n]);
      xs := xs + [x];
    }
  }

  lemma IndexIsListed(l: Layout, v: Json) returns (xs: seq<Listed>, version: Option<string>)
    requires IsIndex(l, v)
    ensures ListsAll(l, xs) && v == IndexOf(l, xs, version)
  {
    xs := EntriesAreListed(v.members[0].items, l.auxiliary);
    assert v.members[0].items == seq(|xs|, i requires 0 <= i < |xs| => ListedEntry(l.auxiliary[i], xs[i]));
    if v.schema == EvidenceIndexKeys {
      version := Some(v.members[1].text);
      assert v.members == [v.members[0], v.members[1]];
    } else {
      version := None;
      assert v.members == [v.members[0]];
    }
  }

  /** A document passes as an evidence index exactly when it lists, in frozen order, a hexadecimal digest
      and a size of at least one byte and at most two mebibytes for every auxiliary path, with any version or none. */
  lemma IndexExactly(l: Layout, v: Json)
    ensures IsIndex(l, v) <==> exists xs, version :: ListsAll(l, xs) && v == IndexOf(l, xs, version)
  {
    if IsIndex(l, v) {
      var xs, version := IndexIsListed(l, v);
    }
    forall xs, version | ListsAll(l, xs) && v == IndexOf(l, xs, version)
      ensures IsIndex(l, v)
    {
      forall i | 0 <= i < |l.auxiliary|
        ensures IsIndexEntry(v.members[0].items[i], l.auxiliary[i])
      {
        assert v.members[0].items[i] == ListedEntry(l.auxiliary[i], xs[i]);
      }
    }
  }

  // ----- building -----

  predicate Sized(content: seq<byte>) {
    Bounded(|content|)
  }

  predicate AllThere(l: Layout, parts: Parts) {
    && (forall path :: path in parts.auxiliary ==> path in l.auxiliary)
    && (forall path :: path in l.auxiliary ==> path in parts.auxiliary)
    && forall path :: path in parts.auxiliary ==> Sized(parts.auxiliary[path])
  }

  function Describe(p: Primitives, content: seq<byte>): (x: Listed)
    requires Sized(content)
    ensures Hexadecimal(x.digest) && Bounded(x.size)
  {
    assert IsHex64(p.sha256(content));
    Listed(p.sha256(content), |content|)
  }

  /** What the index must list: each auxiliary file's own digest and size. */
  function Described(p: Primitives, l: Layout, parts: Parts): (xs: seq<Listed>)
    requires AllThere(l, parts)
    ensures ListsAll(l, xs)
  {
    seq(|l.auxiliary|, i requires 0 <= i < |l.auxiliary| =>
      Describe(p, parts.auxiliary[l.auxiliary[i]]))
  }

  function TrueIndex(c: Crypto, l: Layout, parts: Parts): seq<byte>
    requires AllThere(l, parts)
  {
    c.p.canonical(IndexOf(l, Described(c.p, l, parts), Some("authority-bundle-v1")))
  }

  lemma IndexIsTrue(c: Crypto, l: Layout, parts: Parts)
    requires AllThere(l, parts)
    ensures AuxiliaryComplete(l, parts.auxiliary)
    ensures c.p.canonical(IndexDocument(c.p, l, parts.auxiliary)) == TrueIndex(c, l, parts)
  {
    var xs := Described(c.p, l, parts);
    assert IndexDocument(c.p, l, parts.auxiliary).members[0].items
        == seq(|xs|, i requires 0 <= i < |xs| => ListedEntry(l.auxiliary[i], xs[i]));
  }

  lemma KeysMatch(l: Layout, parts: Parts)
    ensures AllThere(l, parts) <==>
            && parts.auxiliary.Keys == (set path | path in l.auxiliary)
            && forall path :: path in parts.auxiliary ==> SafeSize(parts.auxiliary[path])
  {
    forall path | path in parts.auxiliary
      ensures SafeSize(parts.auxiliary[path]) <==> Sized(parts.auxiliary[path])
    {
    }
    if AllThere(l, parts) {
      assert forall path :: path in parts.auxiliary.Keys <==> path in (set x | x in l.auxiliary);
    } else if parts.auxiliary.Keys == (set path | path in l.auxiliary) {
      assert forall path :: path in parts.auxiliary.Keys <==> path in (set x | x in l.auxiliary);
    }
  }

  /** Everything a bundle needs. */
  predicate Buildable(c: Crypto, l: Layout, parts: Parts)
    requires Partitioned(l)
  {
    && parts.trusted && AllThere(l, parts) && Sized(parts.receipt) && Sized(parts.readme)
    && c.p.sha256(TrueIndex(c, l, parts)) == parts.boundIndexDigest
    && |c.p.canonical(parts.manifest)| <= 2048
    && Sized(Checksums(c, l, parts))
  }

  /** The checksum file over the parts, their index and the manifest. */
  function Checksums(c: Crypto, l: Layout, parts: Parts): seq<byte>
    requires Partitioned(l) && AllThere(l, parts)
  {
    KeysMatch(l, parts);
    Assembled(c, l, parts, TrueIndex(c, l, parts));
    ChecksumFile(c.p, l, Assemble(c, l, parts, TrueIndex(c, l, parts)))
  }

  /** A bundle is built exactly from trusted parts that are complete and of safe size, whose true index is
      the one the receipt binds; it then holds each part under its path, the true index, and the checksums
      of them all. */
  lemma BuiltExactly(c: Crypto, l: Layout, parts: Parts)
    requires WellFormed(l) && Partitioned(l)
    ensures Build(c, l, parts).Ok? <==> Buildable(c, l, parts)
    ensures Buildable(c, l, parts) ==>
              var files := Build(c, l, parts).value.files;
              && files.Keys == (set path | path in l.covered) + {l.checksum}
              && (forall path :: path in parts.auxiliary ==> path in files && files[path] == parts.auxiliary[path])
              && files[l.index] == TrueIndex(c, l, parts)
              && files[l.manifest] == c.p.canonical(parts.manifest)
              && files[l.receipt] == parts.receipt && files[l.readme] == parts.readme
              && files[l.checksum] == Checksums(c, l, parts)
              && Build(c, l, parts).value.digest == BundleDigest(c.p, Checksums(c, l, parts))
  {
    KeysMatch(l, parts);
    if AllThere(l, parts) {
      IndexIsTrue(c, l, parts);
      Assembled(c, l, parts, TrueIndex(c, l, parts));
      PathsAreCovered(l);
    }
  }

  lemma PathsAreCovered(l: Layout)
    requires WellFormed(l) && Partitioned(l)
    ensures forall path :: path in l.auxiliary + [l.index, l.manifest, l.receipt, l.readme] ==> path in l.covered && path != l.checksum
  {
    forall path | path in l.auxiliary + [l.index, l.manifest, l.receipt, l.readme]
      ensures path in l.covered
    {
      assert path in (set x | x in l.auxiliary) + {l.index, l.manifest, l.receipt, l.readme};
      assert path in (set x | x in l.covered);
    }
  }

  // ----- what validation leaves open -----

  lemma {:induction false} PrintedLength(a: seq<Entry>, b: seq<Entry>)
    requires |a| == |b| && forall i :: 0 <= i < |a| ==> |a[i].path| == |b[i].path|
    ensures |Print(a)| == |Print(b)|
  {
    if a != [] {
      PrintedLength(a[1..], b[1..]);
    }
  }

  /** Files with another index in place, and checksums to match. */
  function WithIndex(c: Crypto, l: Layout, files: map<string, seq<byte>>, index: seq<byte>): map<string, seq<byte>>
    requires forall i :: 0 <= i < |l.covered| ==> l.covered[i] in files
  {
    var changed := files[l.index := index];
    changed[l.checksum := ChecksumFile(c.p, l, changed)]
  }

  /** The validator checks that an index is well formed, and not that it describes the files: in a valid
      file set it can be replaced by any other index, with the checksums, and all else left as it is. */
  lemma IndexIsNotCompared(c: Crypto, l: Layout, files: map<string, seq<byte>>, index: seq<byte>)
    requires WellFormed(l) && Partitioned(l) && Valid(c, l, files) && SafeSize(index) && IndexVerifies(c, l, index)
    ensures Valid(c, l, WithIndex(c, l, files, index))
  {
    var changed := files[l.index := index];
    var files' := WithIndex(c, l, files, index);
    PathsAreCovered(l);
    assert l.index in l.auxiliary + [l.index, l.manifest, l.receipt, l.readme];
    assert forall i :: 0 <= i < |l.covered| ==> l.covered[i] != l.checksum;
    ChecksumFileIgnoresItself(c.p, l, changed, ChecksumFile(c.p, l, changed));
    PrintedLength(EntriesOf(c.p, l, files), EntriesOf(c.p, l, changed));
    assert files'.Keys == files.Keys;
  }
}
