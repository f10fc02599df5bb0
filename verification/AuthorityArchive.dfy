/** The write-once bundle archive (authority_archive.py): a conditional put, and on conflict a
    comparison with the object that is already there. */
module AuthorityArchive {
  import opened Common
  import opened Canonical

  datatype StoredObject = StoredObject(version: string, encrypted: bool, bundleDigest: string, body: seq<byte>)

  /** How the object store answers a conditional put.  A put whose answer is lost may have been
      stored, and a racing writer can cause a conflict before any object is visible. */
  datatype PutAnswer = Accepted(version: string, encrypted: bool)
                     | Conflict
                     | AnswerLost(stored: bool, version: string, encrypted: bool)

  datatype ArchivedBundle = ArchivedBundle(objectKey: string, versionId: string, bundleDigest: string)

  datatype PersistOutcome = Persisted(bundle: ArchivedBundle) | Unavailable(dependency: string) | InvalidBundle

  const MAX_ARCHIVE_BYTES := 8 * 1024 * 1024

  function ObjectKey(receipt: Uuid): string {
    "synthetic-authority-bundles/" + Decimal(receipt) + "/authority-bundle.zip"
  }

  predicate WellFormed(body: seq<byte>, digest: string) {
    && body != [] && |body| <= MAX_ARCHIVE_BYTES
    && |digest| == 64 && forall c :: c in digest ==> !('A' <= c <= 'Z')
  }

  /** The store's side of put_object with IfNoneMatch: an object is only ever created. */
  function Put(objects: map<Uuid, StoredObject>, receipt: Uuid, body: seq<byte>, digest: string, answer: PutAnswer): map<Uuid, StoredObject> {
    if receipt in objects then objects
    else match answer
      case Accepted(version, encrypted) => objects[receipt := StoredObject(version, encrypted, digest, body)]
      case Conflict => objects
      case AnswerLost(stored, version, encrypted) =>
        if stored then objects[receipt := StoredObject(version, encrypted, digest, body)] else objects
  }

  function Validated(receipt: Uuid, o: StoredObject, digest: string): PersistOutcome {
    if o.version == "" then Unavailable("s3_bucket_versioning")
    else if !o.encrypted then Unavailable("s3_authority_bundle_encryption")
    else Persisted(ArchivedBundle(ObjectKey(receipt), o.version, digest))
  }

  function ResolveExisting(objects: map<Uuid, StoredObject>, receipt: Uuid, digest: string, headAnswers: bool): PersistOutcome {
    if !headAnswers || receipt !in objects then Unavailable("s3_authority_bundle")
    else if objects[receipt].bundleDigest != digest then Unavailable("s3_authority_bundle_conflict")
    else Validated(receipt, objects[receipt], digest)
  }

  function Persist(objects: map<Uuid, StoredObject>, receipt: Uuid, body: seq<byte>, digest: string,
                   answer: PutAnswer, headAnswers: bool): (map<Uuid, StoredObject>, PersistOutcome)
  {
    if !WellFormed(body, digest) then (objects, InvalidBundle)
    else
      var objects' := Put(objects, receipt, body, digest, answer);
      if answer.AnswerLost? then (objects', Unavailable("s3_authority_bundle"))
      else if answer.Conflict? || receipt in objects
      then (objects', ResolveExisting(objects, receipt, digest, headAnswers))
      else (objects', Validated(receipt, objects'[receipt], digest))
  }

  class S3AuthorityBundleArchive {
    var objects: map<Uuid, StoredObject>

    constructor ()
      ensures objects == map[]
    {
      objects := map[];
    }

    method PersistBundle(receipt: Uuid, body: seq<byte>, digest: string, answer: PutAnswer, headAnswers: bool)
      returns (outcome: PersistOutcome)
      modifies this
      ensures (objects, outcome) == Persist(old(objects), receipt, body, digest, answer, headAnswers)
    {
      if !WellFormed(body, digest) {
        return InvalidBundle;
      }
      var existed := receipt in objects;
      objects := Put(objects, receipt, body, digest, answer);
      match answer {
        case AnswerLost(_, _, _) => return Unavailable("s3_authority_bundle");
        case Conflict => outcome := ResolveExisting(objects, receipt, digest, headAnswers);
        case Accepted(_, _) =>
          outcome := if existed then ResolveExisting(objects, receipt, digest, headAnswers)
                     else Validated(receipt, objects[receipt], digest);
      }
    }
  }

  /** Whatever the store answers, no object is ever replaced, and a reported success names the
      version and digest of the one object stored for the receipt. */
  lemma PersistedIsStored(objects: map<Uuid, StoredObject>, receipt: Uuid, body: seq<byte>, digest: string,
                          answer: PutAnswer, headAnswers: bool)
    ensures var (objects', outcome) := Persist(objects, receipt, body, digest, answer, headAnswers);
            && (forall k :: k in objects ==> k in objects' && objects'[k] == objects[k])
            && (forall k :: k in objects' && k !in objects ==> k == receipt)
            && (outcome.Persisted? ==>
                  && receipt in objects'
                  && outcome.bundle == ArchivedBundle(ObjectKey(receipt), objects'[receipt].version, objects'[receipt].bundleDigest)
                  && outcome.bundle.bundleDigest == digest
                  && objects'[receipt].version != "" && objects'[receipt].encrypted)
  {
  }

  /** The body is a bundle and the digest the text of one. */
  predicate IsBundle(body: seq<byte>, digest: string) {
    0 < |body| <= 8388608 && |digest| == 64 && forall c :: c in digest ==> c < 'A' || 'Z' < c
  }

  /** What a put leaves under the key: what was there, or what the store accepted or kept of it. */
  function Under(objects: map<Uuid, StoredObject>, receipt: Uuid, body: seq<byte>, digest: string, answer: PutAnswer): Option<StoredObject> {
    if receipt in objects then Some(objects[receipt])
    else match answer
      case Accepted(version, encrypted) => Some(StoredObject(version, encrypted, digest, body))
      case Conflict => None
      case AnswerLost(stored, version, encrypted) => if stored then Some(StoredObject(version, encrypted, digest, body)) else None
  }

  /** A bundle is reported as archived exactly when the store answered, the object under its key has its
      digest and is versioned and encrypted, and, unless it was just created, the store showed it. */
  lemma PersistedExactly(objects: map<Uuid, StoredObject>, receipt: Uuid, body: seq<byte>, digest: string,
                         answer: PutAnswer, headAnswers: bool)
    ensures var (objects', outcome) := Persist(objects, receipt, body, digest, answer, headAnswers);
            var under := Under(objects, receipt, body, digest, answer);
            && (outcome.InvalidBundle? <==> !IsBundle(body, digest))
            && objects' == (if IsBundle(body, digest) && under.Some? then objects[receipt := under.value] else objects)
            && (outcome.Persisted? <==>
                  && IsBundle(body, digest) && !answer.AnswerLost? && under.Some?
                  && under.value.bundleDigest == digest && under.value.version != "" && under.value.encrypted
                  && (receipt in objects ==> headAnswers))
            && (outcome.Persisted? ==>
                  outcome.bundle == ArchivedBundle("synthetic-authority-bundles/" + Decimal(receipt) + "/authority-bundle.zip",
                                                   under.value.version, digest))
  {
    if receipt in objects {
      assert objects[receipt := objects[receipt]] == objects;
    }
  }

  datatype Attempt = Attempt(receipt: Uuid, body: seq<byte>, digest: string, answer: PutAnswer, headAnswers: bool)

  function PersistAll(objects: map<Uuid, StoredObject>, attempts: seq<Attempt>): map<Uuid, StoredObject>
    decreases |attempts|
  {
    if attempts == [] then objects
    else
      var a := attempts[0];
      PersistAll(Persist(objects, a.receipt, a.body, a.digest, a.answer, a.headAnswers).0, attempts[1..])
  }

  lemma {:induction false} StoredForGood(objects: map<Uuid, StoredObject>, attempts: seq<Attempt>, receipt: Uuid)
    requires receipt in objects
    ensures receipt in PersistAll(objects, attempts) && PersistAll(objects, attempts)[receipt] == objects[receipt]
    decreases |attempts|
  {
    if attempts != [] {
      var a := attempts[0];
      PersistedIsStored(objects, a.receipt, a.body, a.digest, a.answer, a.headAnswers);
      StoredForGood(Persist(objects, a.receipt, a.body, a.digest, a.answer, a.headAnswers).0, attempts[1..], receipt);
    }
  }

  /** A put that was stored but whose answer was lost is recovered by repeating it, whatever was
      attempted in between: the repeated put finds the object of the first and succeeds exactly when
      it carries the same digest and the store versioned and encrypted the object. */
  lemma LostPutIsRecovered(objects: map<Uuid, StoredObject>, first: Attempt, version: string, encrypted: bool,
                           between: seq<Attempt>, again: Attempt)
    requires first.receipt !in objects && first.answer == AnswerLost(true, version, encrypted)
    requires again.receipt == first.receipt && !again.answer.AnswerLost? && again.headAnswers
    requires WellFormed(first.body, first.digest) && WellFormed(again.body, again.digest)
    ensures var later := PersistAll(objects, [first] + between);
            var outcome := Persist(later, again.receipt, again.body, again.digest, again.answer, true).1;
            && first.receipt in later && later[first.receipt] == StoredObject(version, encrypted, first.digest, first.body)
            && (outcome.Persisted? <==> again.digest == first.digest && version != "" && encrypted)
            && (outcome.Persisted? ==> outcome.bundle == ArchivedBundle(ObjectKey(first.receipt), version, first.digest))
  {
    var stored := Persist(objects, first.receipt, first.body, first.digest, first.answer, first.headAnswers).0;
    assert ([first] + between)[1..] == between;
    StoredForGood(stored, between, first.receipt);
  }
}
