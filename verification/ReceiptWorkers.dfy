/** Any number of finalization workers (receipt_finalizer.py) over the request rows and the archive:
    they claim, archive, finalize, fail, crash and are superseded in any order. */
module ReceiptWorkers {
  import opened Common
  import opened Canonical
  import opened ReceiptOutbox
  import opened AuthorityArchive

  // ----- the system -----

  /** Where one worker stands in run_once. */
  datatype Held =
    | Idle
    | Working(request: Request)
    | Stored(request: Request, manifest: Manifest, signature: Signature)
    | Failing(request: Request, retry: bool)

  /** `released` remembers, per request, the attempt numbers whose failure release succeeded. */
  datatype System = System(
    rows: Rows, objects: map<Uuid, StoredObject>, workers: map<nat, Held>, released: map<Uuid, set<nat>>)

  /** Worker identities, and the attempt limit all workers share. */
  datatype Config = Config(names: nat -> string, maxAttempts: nat)

  const START := System(Rows(map[], map[]), map[], map[], map[])

  function HeldBy(sys: System, w: nat): Held {
    if w in sys.workers then sys.workers[w] else Idle
  }

  function ReleasedAt(sys: System, id: Uuid): set<nat> {
    if id in sys.released then sys.released[id] else {}
  }

  datatype Step =
    | Enqueue(id: Uuid, q: RequestRow, r: ReceiptRow)
    | ClaimStep(w: nat, id: Uuid, lease: int, now: int)
    | FailStep(w: nat, retry: bool)
    | ArchiveStep(w: nat, manifest: Manifest, signature: Signature, body: seq<byte>, answer: PutAnswer, headAnswers: bool)
    | FinalizeStep(w: nat, now: int)
    | ReleaseStep(w: nat, code: string, now: int)
    | CrashStep(w: nat)

  /** A review transaction inserts a request and its receipt together, both waiting. */
  predicate NewPair(rows: Rows, id: Uuid, q: RequestRow, r: ReceiptRow) {
    && id !in rows.requests && q.receiptId !in rows.receipts
    && (forall other :: other in rows.requests ==> rows.requests[other].receiptId != q.receiptId)
    && q.status == Pending && q.attempts == 0 && q.claimedBy.None? && q.deadLetteredAt.None?
    && r.status == Unsigned && r.signature.None?
    && r.runId == q.runId && r.tenant == q.tenant
    && r.ledgerHeadHash == q.targetHash && r.ledgerLastSequence == q.targetSequence
  }

  ghost predicate Enabled(c: Config, sys: System, step: Step) {
    match step
    case Enqueue(id, q, r) => NewPair(sys.rows, id, q, r)
    case ClaimStep(w, id, lease, now) =>
      HeldBy(sys, w).Idle? && LeaseConfigured(c.names(w), lease) && IsEarliest(sys.rows.requests, now, id)
    case FailStep(w, _) => HeldBy(sys, w).Working?
    case ArchiveStep(w, _, _, _, _, _) => HeldBy(sys, w).Working?
    case FinalizeStep(w, _) => HeldBy(sys, w).Stored?
    case ReleaseStep(w, code, _) => HeldBy(sys, w).Failing? && ReleasePolicy(code, 1)
    case CrashStep(w) => true
  }

  /** The attempt limit a failing worker passes: one when the failure cannot be retried. */
  function Limit(c: Config, retry: bool): nat {
    if retry then c.maxAttempts else 1
  }

  function AfterClaim(c: Config, sys: System, w: nat, id: Uuid, lease: int, now: int): System
    requires id in sys.rows.requests
  {
    var (rows, outcome) := ClaimRequest(sys.rows, id, c.names(w), lease, now);
    sys.(rows := rows, workers := sys.workers[w := if outcome.Claimed? then Working(outcome.request) else Idle])
  }

  /** The signed result names the archived object; an archive that is unavailable can be retried. */
  function AfterArchive(sys: System, w: nat, request: Request, m: Manifest, s: Signature, body: seq<byte>,
                        answer: PutAnswer, headAnswers: bool): System
  {
    var (objects, outcome) := Persist(sys.objects, request.receiptId, body, s.bundleDigest, answer, headAnswers);
    var held := match outcome
      case Persisted(bundle) =>
        Stored(request, m, s.(bundleDigest := bundle.bundleDigest, objectKey := bundle.objectKey, versionId := bundle.versionId))
      case Unavailable(_) => Failing(request, true)
      case InvalidBundle => Failing(request, false);
    sys.(objects := objects, workers := sys.workers[w := held])
  }

  function AfterFinalize(c: Config, sys: System, w: nat, request: Request, m: Manifest, s: Signature, now: int): System {
    var (rows, outcome) := Finalize(sys.rows, request, c.names(w), m, s, now);
    sys.(rows := rows, workers := sys.workers[w := if outcome == Finalized(true) then Idle else Failing(request, false)])
  }

  function AfterRelease(c: Config, sys: System, w: nat, request: Request, retry: bool, code: string, now: int): System {
    var (rows, outcome) := Release(sys.rows, request, c.names(w), code, Limit(c, retry), now);
    sys.(rows := rows, workers := sys.workers[w := Idle],
         released := if outcome.Released?
                     then sys.released[request.requestId := ReleasedAt(sys, request.requestId) + {request.attempts}]
                     else sys.released)
  }

  function Do(c: Config, sys: System, step: Step): System {
    match step
    case Enqueue(id, q, r) =>
      sys.(rows := Rows(sys.rows.requests[id := q], sys.rows.receipts[q.receiptId := r]))
    case ClaimStep(w, id, lease, now) => if id in sys.rows.requests then AfterClaim(c, sys, w, id, lease, now) else sys
    case FailStep(w, retry) =>
      if HeldBy(sys, w).Working? then sys.(workers := sys.workers[w := Failing(HeldBy(sys, w).request, retry)]) else sys
    case ArchiveStep(w, m, s, body, answer, headAnswers) =>
      if HeldBy(sys, w).Working? then AfterArchive(sys, w, HeldBy(sys, w).request, m, s, body, answer, headAnswers) else sys
    case FinalizeStep(w, now) =>
      if HeldBy(sys, w).Stored?
      then AfterFinalize(c, sys, w, HeldBy(sys, w).request, HeldBy(sys, w).manifest, HeldBy(sys, w).signature, now)
      else sys
    case ReleaseStep(w, code, now) =>
      if HeldBy(sys, w).Failing?
      then AfterRelease(c, sys, w, HeldBy(sys, w).request, HeldBy(sys, w).retry, code, now)
      else sys
    case CrashStep(w) => sys.(workers := sys.workers[w := Idle])
  }

  /** A run: each step enabled where it is taken. */
  ghost predicate Runs(c: Config, sys: System, steps: seq<Step>)
    decreases |steps|
  {
    steps == [] || (Enabled(c, sys, steps[0]) && Runs(c, Do(c, sys, steps[0]), steps[1..]))
  }

  function DoAll(c: Config, sys: System, steps: seq<Step>): System
    decreases |steps|
  {
    if steps == [] then sys else DoAll(c, Do(c, sys, steps[0]), steps[1..])
  }

  // ----- the coupled rows -----

  ghost predicate RequestOk(rows: Rows, id: Uuid)
    requires id in rows.requests
  {
    var q := rows.requests[id];
    q.receiptId in rows.receipts
    && var r := rows.receipts[q.receiptId];
    && r.runId == q.runId && r.tenant == q.tenant
    && r.ledgerHeadHash == q.targetHash && r.ledgerLastSequence == q.targetSequence
    && (q.status == Delivered <==> r.status == Signed)
    && (q.status == Processing ==> r.status == Unsigned && q.claimedBy.Some? && q.claimedUntil.Some? && q.attempts > 0)
    && (q.status == DeadLettered ==> r.status == Failed)
    && (q.status == DeadLettered <==> q.deadLetteredAt.Some?)
  }

  ghost predicate Coupled(rows: Rows) {
    && (forall id :: id in rows.requests ==> RequestOk(rows, id))
    && (forall a, b :: a in rows.requests && b in rows.requests && a != b
                       ==> rows.requests[a].receiptId != rows.requests[b].receiptId)
  }

  /** Changing one coupled pair keeps all others. */
  lemma PairKeepsCoupled(rows: Rows, id: Uuid, q: RequestRow, r: ReceiptRow)
    requires Coupled(rows) && id in rows.requests && q.receiptId == rows.requests[id].receiptId
    requires var rows' := Rows(rows.requests[id := q], rows.receipts[q.receiptId := r]); RequestOk(rows', id)
    ensures Coupled(Rows(rows.requests[id := q], rows.receipts[q.receiptId := r]))
  {
    var rows' := Rows(rows.requests[id := q], rows.receipts[q.receiptId := r]);
    forall other | other in rows'.requests
      ensures RequestOk(rows', other)
    {
      if other != id {
        assert RequestOk(rows, other);
      }
    }
  }

  lemma EnqueueKeepsCoupled(rows: Rows, id: Uuid, q: RequestRow, r: ReceiptRow)
    requires Coupled(rows) && NewPair(rows, id, q, r)
    ensures Coupled(Rows(rows.requests[id := q], rows.receipts[q.receiptId := r]))
  {
    var rows' := Rows(rows.requests[id := q], rows.receipts[q.receiptId := r]);
    forall other | other in rows'.requests
      ensures RequestOk(rows', other)
    {
      if other != id {
        assert RequestOk(rows, other);
      }
    }
  }

  /** Claiming always finds a pending receipt: the lost-target error cannot be raised. */
  lemma ClaimKeepsCoupled(rows: Rows, id: Uuid, worker: string, lease: int, now: int)
    requires Coupled(rows) && id in rows.requests && Claimable(rows.requests[id], now)
    ensures Coupled(ClaimRequest(rows, id, worker, lease, now).0)
    ensures ClaimRequest(rows, id, worker, lease, now).1.Claimed?
  {
    assert RequestOk(rows, id);
    var q := Leased(rows.requests[id], worker, lease, now);
    PairKeepsCoupled(rows, id, q, Reopened(rows.receipts[q.receiptId]));
  }

  lemma FinalizeKeepsCoupled(rows: Rows, request: Request, worker: string, m: Manifest, s: Signature, now: int)
    requires Coupled(rows)
    ensures Coupled(Finalize(rows, request, worker, m, s, now).0)
    ensures !Finalize(rows, request, worker, m, s, now).1.LostLease?
  {
    if Finalize(rows, request, worker, m, s, now).0 != rows {
      assert RequestOk(rows, request.requestId);
      PairKeepsCoupled(rows, request.requestId, DeliveredRow(rows.requests[request.requestId], now),
                       SignedRow(rows.receipts[request.receiptId], s, request.publishPublic, now));
    }
  }

  lemma ReleaseKeepsCoupled(rows: Rows, request: Request, worker: string, code: string, limit: int, now: int)
    requires Coupled(rows)
    requires request.requestId in rows.requests ==> rows.requests[request.requestId].receiptId == request.receiptId
    ensures Coupled(Release(rows, request, worker, code, limit, now).0)
    ensures !Release(rows, request, worker, code, limit, now).1.LostTarget?
  {
    if request.requestId in rows.requests {
      assert RequestOk(rows, request.requestId);
    }
    if Release(rows, request, worker, code, limit, now).1.Released? {
      PairKeepsCoupled(rows, request.requestId, ReleasedRow(rows.requests[request.requestId], request, code, limit, now),
                       rows.receipts[request.receiptId].(status := Failed, failureCode := Some(code)));
    }
  }

  // ----- what workers hold -----

  /** A held request still names its rows, at an attempt number of its own. */
  ghost predicate HeldOk(sys: System, request: Request) {
    && request.requestId in sys.rows.requests
    && sys.rows.requests[request.requestId].receiptId == request.receiptId
    && 0 < request.attempts <= sys.rows.requests[request.requestId].attempts
    && request.attempts !in ReleasedAt(sys, request.requestId)
  }

  /** A signature names the one archived object of its receipt. */
  ghost predicate Archived(sys: System, receipt: Uuid, s: Signature) {
    && receipt in sys.objects
    && s.bundleDigest == sys.objects[receipt].bundleDigest && s.versionId == sys.objects[receipt].version
    && s.versionId != "" && sys.objects[receipt].encrypted
    && s.objectKey == ObjectKey(receipt)
  }

  ghost predicate WorkerOk(sys: System, w: nat) {
    var held := HeldBy(sys, w);
    && (!held.Idle? ==> HeldOk(sys, held.request))
    && (held.Stored? ==> Archived(sys, held.request.receiptId, held.signature))
  }

  ghost predicate Apart(sys: System, v: nat, w: nat) {
    var a, b := HeldBy(sys, v), HeldBy(sys, w);
    v != w && !a.Idle? && !b.Idle? && a.request.requestId == b.request.requestId ==> a.request.attempts != b.request.attempts
  }

  ghost predicate SignedOk(sys: System, receipt: Uuid)
    requires receipt in sys.rows.receipts
  {
    var r := sys.rows.receipts[receipt];
    && (r.status == Signed <==> r.signature.Some?)
    && (r.signature.Some? ==> Archived(sys, receipt, r.signature.value))
  }

  // ----- releases -----

  /** Releases so far: every number below the limit, except the one that dead-lettered. */
  ghost predicate ReleasesOk(c: Config, sys: System, id: Uuid) {
    var past := ReleasedAt(sys, id);
    && (past != {} ==> id in sys.rows.requests)
    && (forall a :: a in past ==> 0 < a <= sys.rows.requests[id].attempts)
    && (id in sys.rows.requests && sys.rows.requests[id].status != DeadLettered ==> BelowLimit(past, c.maxAttempts))
    && (id in sys.rows.requests && sys.rows.requests[id].status == DeadLettered ==>
          exists last :: last in past && BelowLimit(past - {last}, c.maxAttempts))
  }

  ghost predicate BelowLimit(past: set<nat>, limit: nat) {
    forall a :: a in past ==> 0 < a < limit
  }

  lemma {:induction false} BelowLimitIsSmall(past: set<nat>, limit: nat)
    requires BelowLimit(past, limit) && limit > 0
    ensures |past| < limit
  {
    if limit == 1 {
      assert past == {};
    } else {
      BelowLimitIsSmall(past - {limit - 1}, limit - 1);
    }
  }

  // ----- the invariant -----

  ghost predicate Inv(c: Config, sys: System) {
    Coupled(sys.rows) && WorkersInv(sys) && SignedInv(sys) && ReleasesInv(c, sys)
  }

  ghost predicate WorkersInv(sys: System) {
    (forall w :: WorkerOk(sys, w)) && (forall v, w :: Apart(sys, v, w))
  }

  ghost predicate SignedInv(sys: System) {
    forall receipt :: receipt in sys.rows.receipts ==> SignedOk(sys, receipt)
  }

  ghost predicate ReleasesInv(c: Config, sys: System) {
    forall id :: ReleasesOk(c, sys, id)
  }

  // ----- every step keeps it -----

  lemma StartInv(c: Config)
    ensures Inv(c, START)
  {
  }

  /** Receipts and releases do not depend on what the workers hold. */
  lemma WorkersAloneMove(c: Config, sys: System, sys': System)
    requires Inv(c, sys) && WorkersInv(sys') && sys' == sys.(workers := sys'.workers)
    ensures Inv(c, sys')
  {
    forall receipt | receipt in sys'.rows.receipts
      ensures SignedOk(sys', receipt)
    {
      assert SignedOk(sys, receipt);
    }
    forall id
      ensures ReleasesOk(c, sys', id)
    {
      assert ReleasesOk(c, sys, id);
    }
  }

  /** Steps that only move a worker on, or send it home. */
  lemma WorkerMoveKeepsInv(c: Config, sys: System, w: nat, held: Held)
    requires Inv(c, sys)
    requires !held.Idle? ==> !HeldBy(sys, w).Idle? && held.request == HeldBy(sys, w).request
    requires held.Stored? ==> Archived(sys, held.request.receiptId, held.signature)
    ensures Inv(c, sys.(workers := sys.workers[w := held]))
  {
    var sys' := sys.(workers := sys.workers[w := held]);
    forall v
      ensures WorkerOk(sys', v)
    {
      assert WorkerOk(sys, v) && WorkerOk(sys, w);
    }
    forall u, v
      ensures Apart(sys', u, v)
    {
      assert Apart(sys, u, v);
    }
    WorkersAloneMove(c, sys, sys');
  }

  /** Objects are only ever added, so what signatures name stays. */
  lemma ObjectsKeepInv(c: Config, sys: System, objects: map<Uuid, StoredObject>)
    requires Inv(c, sys)
    requires forall k :: k in sys.objects ==> k in objects && objects[k] == sys.objects[k]
    ensures Inv(c, sys.(objects := objects))
  {
    var sys' := sys.(objects := objects);
    forall w
      ensures WorkerOk(sys', w)
    {
      assert WorkerOk(sys, w);
    }
    forall u, v
      ensures Apart(sys', u, v)
    {
      assert Apart(sys, u, v);
    }
    forall receipt | receipt in sys'.rows.receipts
      ensures SignedOk(sys', receipt)
    {
      assert SignedOk(sys, receipt);
    }
    forall id
      ensures ReleasesOk(c, sys', id)
    {
      assert ReleasesOk(c, sys, id);
    }
  }

  lemma ArchiveKeepsInv(c: Config, sys: System, w: nat, m: Manifest, s: Signature, body: seq<byte>, answer: PutAnswer, headAnswers: bool)
    requires Inv(c, sys) && HeldBy(sys, w).Working?
    ensures Inv(c, AfterArchive(sys, w, HeldBy(sys, w).request, m, s, body, answer, headAnswers))
  {
    var request := HeldBy(sys, w).request;
    PersistedIsStored(sys.objects, request.receiptId, body, s.bundleDigest, answer, headAnswers);
    var sys' := AfterArchive(sys, w, request, m, s, body, answer, headAnswers);
    ObjectsKeepInv(c, sys, sys'.objects);
    WorkerMoveKeepsInv(c, sys.(objects := sys'.objects), w, sys'.workers[w]);
  }

  ghost predicate RowsCarry(rows: Rows, rows': Rows) {
    forall id :: id in rows.requests ==>
      id in rows'.requests && rows'.requests[id].receiptId == rows.requests[id].receiptId
      && rows'.requests[id].attempts >= rows.requests[id].attempts
  }

  /** Rows may change under the workers as long as every request keeps its receipt and its
      attempt number, and no released number is one a worker holds. */
  ghost predicate Carries(sys: System, sys': System) {
    && sys'.workers == sys.workers && sys'.objects == sys.objects
    && RowsCarry(sys.rows, sys'.rows)
    && (forall v :: !HeldBy(sys, v).Idle? ==> Unreleased(sys, sys', HeldBy(sys, v).request))
  }

  ghost predicate Unreleased(sys: System, sys': System, request: Request) {
    request.attempts !in ReleasedAt(sys, request.requestId) ==> request.attempts !in ReleasedAt(sys', request.requestId)
  }

  lemma WorkersCarryOn(sys: System, sys': System)
    requires WorkersInv(sys) && Carries(sys, sys')
    ensures WorkersInv(sys')
  {
    forall w
      ensures WorkerOk(sys', w)
    {
      assert WorkerOk(sys, w);
    }
    forall u, v
      ensures Apart(sys', u, v)
    {
      assert Apart(sys, u, v);
    }
  }

  /** The receipts of `sys'` are signed as before, or with a signature that names its object. */
  lemma SignaturesCarryOn(sys: System, sys': System, changed: Uuid)
    requires SignedInv(sys) && sys'.objects == sys.objects
    requires forall k :: k in sys'.rows.receipts && k != changed ==> k in sys.rows.receipts && sys'.rows.receipts[k] == sys.rows.receipts[k]
    requires changed in sys'.rows.receipts ==> SignedOk(sys', changed)
    ensures SignedInv(sys')
  {
    forall receipt | receipt in sys'.rows.receipts
      ensures SignedOk(sys', receipt)
    {
      if receipt != changed {
        assert SignedOk(sys, receipt);
      }
    }
  }

  /** One request changes status, not to dead-lettered, and gains no release. */
  lemma ReleasesCarryOn(c: Config, sys: System, sys': System, id: Uuid)
    requires ReleasesInv(c, sys) && sys'.released == sys.released && id in sys.rows.requests && id in sys'.rows.requests
    requires sys'.rows.requests == sys.rows.requests[id := sys'.rows.requests[id]]
    requires sys'.rows.requests[id].attempts >= sys.rows.requests[id].attempts
    requires sys.rows.requests[id].status != DeadLettered && sys'.rows.requests[id].status != DeadLettered
    ensures ReleasesInv(c, sys')
  {
    forall other
      ensures ReleasesOk(c, sys', other)
    {
      assert ReleasesOk(c, sys, other);
    }
  }

  lemma EnqueueKeepsReleases(c: Config, sys: System, sys': System, id: Uuid)
    requires ReleasesInv(c, sys) && sys'.released == sys.released && id !in sys.rows.requests && id in sys'.rows.requests
    requires sys'.rows.requests == sys.rows.requests[id := sys'.rows.requests[id]]
    requires sys'.rows.requests[id].status == Pending
    ensures ReleasesInv(c, sys')
  {
    forall other
      ensures ReleasesOk(c, sys', other)
    {
      assert ReleasesOk(c, sys, other);
    }
  }

  lemma EnqueueKeepsInv(c: Config, sys: System, id: Uuid, q: RequestRow, r: ReceiptRow)
    requires Inv(c, sys) && NewPair(sys.rows, id, q, r)
    ensures Inv(c, Do(c, sys, Enqueue(id, q, r)))
  {
    var sys' := Do(c, sys, Enqueue(id, q, r));
    EnqueueKeepsCoupled(sys.rows, id, q, r);
    WorkersCarryOn(sys, sys');
    SignaturesCarryOn(sys, sys', q.receiptId);
    EnqueueKeepsReleases(c, sys, sys', id);
  }

  lemma ClaimedRowsKeepInv(c: Config, sys: System, id: Uuid, worker: string, lease: int, now: int)
    requires Inv(c, sys) && id in sys.rows.requests && Claimable(sys.rows.requests[id], now)
    ensures Inv(c, sys.(rows := ClaimRequest(sys.rows, id, worker, lease, now).0))
  {
    var sys' := sys.(rows := ClaimRequest(sys.rows, id, worker, lease, now).0);
    var receipt := sys.rows.requests[id].receiptId;
    assert RequestOk(sys.rows, id) && SignedOk(sys, receipt);
    ClaimKeepsCoupled(sys.rows, id, worker, lease, now);
    assert RowsCarry(sys.rows, sys'.rows);
    WorkersCarryOn(sys, sys');
    SignaturesCarryOn(sys, sys', receipt);
    ReleasesCarryOn(c, sys, sys', id);
  }

  /** The claimed number is above every number held or released before. */
  lemma ClaimKeepsWorkers(c: Config, sys: System, w: nat, id: Uuid, lease: int, now: int)
    requires WorkersInv(sys) && id in sys.rows.requests
    requires ReleasesOk(c, sys, id)
    requires var sys' := AfterClaim(c, sys, w, id, lease, now); WorkersInv(sys.(rows := sys'.rows))
    requires ClaimRequest(sys.rows, id, c.names(w), lease, now).1.Claimed?
    ensures WorkersInv(AfterClaim(c, sys, w, id, lease, now))
  {
    var sys' := AfterClaim(c, sys, w, id, lease, now);
    var mid := sys.(rows := sys'.rows);
    forall v
      ensures WorkerOk(sys', v)
    {
      assert WorkerOk(mid, v);
    }
    forall u, v
      ensures Apart(sys', u, v)
    {
      assert Apart(sys, u, v) && WorkerOk(sys, u) && WorkerOk(sys, v);
    }
  }

  lemma ClaimKeepsInv(c: Config, sys: System, w: nat, id: Uuid, lease: int, now: int)
    requires Inv(c, sys) && id in sys.rows.requests && Claimable(sys.rows.requests[id], now)
    ensures Inv(c, AfterClaim(c, sys, w, id, lease, now))
  {
    var sys' := AfterClaim(c, sys, w, id, lease, now);
    ClaimKeepsCoupled(sys.rows, id, c.names(w), lease, now);
    ClaimedRowsKeepInv(c, sys, id, c.names(w), lease, now);
    assert ReleasesOk(c, sys, id);
    ClaimKeepsWorkers(c, sys, w, id, lease, now);
    WorkersAloneMove(c, sys.(rows := sys'.rows), sys');
  }

  lemma FinalizedKeepsInv(c: Config, sys: System, rows: Rows, request: Request, s: Signature, worker: string, m: Manifest, now: int)
    requires Inv(c, sys) && Archived(sys, request.receiptId, s)
    requires rows == Finalize(sys.rows, request, worker, m, s, now).0
    ensures Inv(c, sys.(rows := rows))
  {
    var sys' := sys.(rows := rows);
    FinalizeKeepsCoupled(sys.rows, request, worker, m, s, now);
    if rows != sys.rows {
      assert RequestOk(sys.rows, request.requestId);
      WorkersCarryOn(sys, sys');
      SignaturesCarryOn(sys, sys', request.receiptId);
      ReleasesCarryOn(c, sys, sys', request.requestId);
    }
  }

  lemma FinalizeKeepsInv(c: Config, sys: System, w: nat, now: int)
    requires Inv(c, sys) && HeldBy(sys, w).Stored?
    ensures Inv(c, Do(c, sys, FinalizeStep(w, now)))
  {
    var held := HeldBy(sys, w);
    assert WorkerOk(sys, w);
    var rows := Finalize(sys.rows, held.request, c.names(w), held.manifest, held.signature, now).0;
    FinalizedKeepsInv(c, sys, rows, held.request, held.signature, c.names(w), held.manifest, now);
    WorkerMoveKeepsInv(c, sys.(rows := rows), w, Do(c, sys, FinalizeStep(w, now)).workers[w]);
  }

  lemma ReleasedKeepsReleases(c: Config, sys: System, sys': System, request: Request, limit: nat, id: Uuid)
    requires ReleasesOk(c, sys, id) && HeldOk(sys, request) && limit <= c.maxAttempts
    requires request.requestId in sys'.rows.requests
    requires sys.rows.requests[request.requestId].status == Processing
    requires sys'.released == sys.released[request.requestId := ReleasedAt(sys, request.requestId) + {request.attempts}]
    requires sys'.rows.requests
             == sys.rows.requests[request.requestId := sys'.rows.requests[request.requestId]]
    requires sys'.rows.requests[request.requestId].attempts == sys.rows.requests[request.requestId].attempts
    requires sys'.rows.requests[request.requestId].status == (if request.attempts >= limit then DeadLettered else Pending)
    ensures ReleasesOk(c, sys', id)
  {
    if id == request.requestId && request.attempts >= limit {
      var past := ReleasedAt(sys', id);
      assert request.attempts in past && past - {request.attempts} == ReleasedAt(sys, id);
    }
  }

  /** A release by a worker that has gone home: nobody else holds its attempt number. */
  lemma ReleasedKeepsInv(c: Config, sys: System, sys': System, request: Request, worker: string, code: string, limit: nat, now: int)
    requires Inv(c, sys) && HeldOk(sys, request) && limit <= c.maxAttempts
    requires forall v :: Elsewhere(sys, v, request)
    requires Release(sys.rows, request, worker, code, limit, now).1.Released?
    requires sys' == sys.(rows := Release(sys.rows, request, worker, code, limit, now).0,
                          released := sys.released[request.requestId := ReleasedAt(sys, request.requestId) + {request.attempts}])
    ensures Inv(c, sys')
  {
    ReleaseKeepsCoupled(sys.rows, request, worker, code, limit, now);
    assert SignedOk(sys, request.receiptId);
    forall v | !HeldBy(sys, v).Idle?
      ensures Unreleased(sys, sys', HeldBy(sys, v).request)
    {
      assert Elsewhere(sys, v, request);
    }
    WorkersCarryOn(sys, sys');
    SignaturesCarryOn(sys, sys', request.receiptId);
    forall id
      ensures ReleasesOk(c, sys', id)
    {
      assert ReleasesOk(c, sys, id);
      ReleasedKeepsReleases(c, sys, sys', request, limit, id);
    }
  }

  ghost predicate Elsewhere(sys: System, v: nat, request: Request) {
    var held := HeldBy(sys, v);
    !held.Idle? && held.request.requestId == request.requestId ==> held.request.attempts != request.attempts
  }

  lemma ReleaseKeepsInv(c: Config, sys: System, w: nat, code: string, now: int)
    requires Inv(c, sys) && HeldBy(sys, w).Failing? && c.maxAttempts > 0
    ensures Inv(c, Do(c, sys, ReleaseStep(w, code, now)))
  {
    var held, home := HeldBy(sys, w), sys.(workers := sys.workers[w := Idle]);
    var request, limit := held.request, Limit(c, held.retry);
    assert WorkerOk(sys, w);
    WorkerMoveKeepsInv(c, sys, w, Idle);
    ReleaseKeepsCoupled(sys.rows, request, c.names(w), code, limit, now);
    if Release(sys.rows, request, c.names(w), code, limit, now).1.Released? {
      forall v
        ensures Elsewhere(home, v, request)
      {
        assert Apart(sys, w, v);
      }
      ReleasedKeepsInv(c, home, Do(c, sys, ReleaseStep(w, code, now)), request, c.names(w), code, limit, now);
    }
  }

  lemma StepKeepsInv(c: Config, sys: System, step: Step)
    requires Inv(c, sys) && Enabled(c, sys, step) && c.maxAttempts > 0
    ensures Inv(c, Do(c, sys, step))
  {
    match step
    case Enqueue(id, q, r) => EnqueueKeepsInv(c, sys, id, q, r);
    case ClaimStep(w, id, lease, now) => ClaimKeepsInv(c, sys, w, id, lease, now);
    case FailStep(w, retry) => WorkerMoveKeepsInv(c, sys, w, Failing(HeldBy(sys, w).request, retry));
    case ArchiveStep(w, m, s, body, answer, headAnswers) => ArchiveKeepsInv(c, sys, w, m, s, body, answer, headAnswers);
    case FinalizeStep(w, now) => FinalizeKeepsInv(c, sys, w, now);
    case ReleaseStep(w, code, now) => ReleaseKeepsInv(c, sys, w, code, now);
    case CrashStep(w) => WorkerMoveKeepsInv(c, sys, w, Idle);
  }

  lemma {:induction false} RunKeepsInv(c: Config, sys: System, steps: seq<Step>)
    requires Inv(c, sys) && Runs(c, sys, steps) && c.maxAttempts > 0
    ensures Inv(c, DoAll(c, sys, steps))
    decreases |steps|
  {
    if steps != [] {
      StepKeepsInv(c, sys, steps[0]);
      RunKeepsInv(c, Do(c, sys, steps[0]), steps[1..]);
    }
  }

  // ----- what follows for every run -----

  lemma ReachedInv(c: Config, steps: seq<Step>)
    requires Runs(c, START, steps) && c.maxAttempts > 0
    ensures Inv(c, DoAll(c, START, steps))
  {
    StartInv(c);
    RunKeepsInv(c, START, steps);
  }

  /** The two coupled rows never disagree. */
  lemma RowsStayCoupled(c: Config, steps: seq<Step>, id: Uuid)
    requires Runs(c, START, steps) && c.maxAttempts > 0
    requires id in DoAll(c, START, steps).rows.requests
    ensures var rows := DoAll(c, START, steps).rows;
            var q := rows.requests[id];
            q.receiptId in rows.receipts
            && var status := rows.receipts[q.receiptId].status;
               && (q.status == Delivered <==> status == Signed)
               && (q.status == Processing ==> status == Unsigned)
               && (q.status == DeadLettered ==> status == Failed)
               && (q.status == Pending ==> status == Unsigned || status == Failed)
  {
    ReachedInv(c, steps);
    assert RequestOk(DoAll(c, START, steps).rows, id);
  }

  /** None of the three lost-target errors can be raised in any run: claiming and releasing because the
      rows stay coupled, finalizing because its last check repeats the row lock's. */
  lemma NoLostTarget(c: Config, steps: seq<Step>, w: nat, code: string, now: int)
    requires Runs(c, START, steps) && c.maxAttempts > 0
    ensures var sys := DoAll(c, START, steps); var held := HeldBy(sys, w);
            && (forall id, lease :: Enabled(c, sys, ClaimStep(w, id, lease, now)) ==>
                  ClaimRequest(sys.rows, id, c.names(w), lease, now).1.Claimed?)
            && (held.Stored? ==>
                  !Finalize(sys.rows, held.request, c.names(w), held.manifest, held.signature, now).1.LostLease?)
            && (held.Failing? ==>
                  !Release(sys.rows, held.request, c.names(w), code, Limit(c, held.retry), now).1.LostTarget?)
  {
    var sys := DoAll(c, START, steps);
    var held := HeldBy(sys, w);
    ReachedInv(c, steps);
    assert WorkerOk(sys, w);
    forall id, lease | Enabled(c, sys, ClaimStep(w, id, lease, now))
      ensures ClaimRequest(sys.rows, id, c.names(w), lease, now).1.Claimed?
    {
      ClaimKeepsCoupled(sys.rows, id, c.names(w), lease, now);
    }
    if held.Stored? {
      FinalizeKeepsCoupled(sys.rows, held.request, c.names(w), held.manifest, held.signature, now);
    }
    if held.Failing? {
      ReleaseKeepsCoupled(sys.rows, held.request, c.names(w), code, Limit(c, held.retry), now);
    }
  }

  /** A successful failure release uses up one more attempt number. */
  lemma ReleaseCountsOnce(c: Config, steps: seq<Step>, w: nat, code: string, now: int)
    requires Runs(c, START, steps) && c.maxAttempts > 0
    requires HeldBy(DoAll(c, START, steps), w).Failing?
    ensures var sys := DoAll(c, START, steps);
            var held := HeldBy(sys, w);
            var sys' := Do(c, sys, ReleaseStep(w, code, now));
            |ReleasedAt(sys', held.request.requestId)|
            == |ReleasedAt(sys, held.request.requestId)|
               + (if Release(sys.rows, held.request, c.names(w), code, Limit(c, held.retry), now).1.Released? then 1 else 0)
  {
    ReachedInv(c, steps);
    assert WorkerOk(DoAll(c, START, steps), w);
  }

  /** However workers crash, stall and share names, a request is failed at most `max_attempts` times. */
  lemma ReleasesAreBounded(c: Config, steps: seq<Step>, id: Uuid)
    requires Runs(c, START, steps) && c.maxAttempts > 0
    ensures |ReleasedAt(DoAll(c, START, steps), id)| <= c.maxAttempts
  {
    var sys := DoAll(c, START, steps);
    ReachedInv(c, steps);
    assert ReleasesOk(c, sys, id);
    var past := ReleasedAt(sys, id);
    if BelowLimit(past, c.maxAttempts) {
      BelowLimitIsSmall(past, c.maxAttempts);
    } else {
      var last :| last in past && BelowLimit(past - {last}, c.maxAttempts);
      BelowLimitIsSmall(past - {last}, c.maxAttempts);
    }
  }

  // ----- signed once, for good -----

  /** Signed receipts are the same in `rows'`. */
  ghost predicate SignedFixed(rows: Rows, rows': Rows) {
    forall k :: k in rows.receipts && rows.receipts[k].status == Signed ==>
      k in rows'.receipts && rows'.receipts[k] == rows.receipts[k]
  }

  ghost predicate Fixed(sys: System, sys': System) {
    && SignedFixed(sys.rows, sys'.rows)
    && (forall k :: k in sys.objects ==> k in sys'.objects && sys'.objects[k] == sys.objects[k])
  }

  lemma TransactionsFix(rows: Rows, request: Request, worker: string, m: Manifest, s: Signature, code: string, limit: int, now: int)
    ensures SignedFixed(rows, Finalize(rows, request, worker, m, s, now).0)
    ensures SignedFixed(rows, Release(rows, request, worker, code, limit, now).0)
  {
  }

  lemma ClaimFixes(rows: Rows, id: Uuid, worker: string, lease: int, now: int)
    requires id in rows.requests
    ensures SignedFixed(rows, ClaimRequest(rows, id, worker, lease, now).0)
  {
  }

  lemma StepFixes(c: Config, sys: System, step: Step)
    requires Enabled(c, sys, step)
    ensures Fixed(sys, Do(c, sys, step))
  {
    match step
    case ArchiveStep(w, m, s, body, answer, headAnswers) =>
      PersistedIsStored(sys.objects, HeldBy(sys, w).request.receiptId, body, s.bundleDigest, answer, headAnswers);
    case Enqueue(_, _, _) =>
    case ClaimStep(w, id, lease, now) => ClaimFixes(sys.rows, id, c.names(w), lease, now);
    case FailStep(_, _) =>
    case FinalizeStep(w, now) =>
      var held := HeldBy(sys, w);
      TransactionsFix(sys.rows, held.request, c.names(w), held.manifest, held.signature, "", 0, now);
    case ReleaseStep(_, _, _) =>
    case CrashStep(_) =>
  }

  lemma {:induction false} RunFixes(c: Config, sys: System, steps: seq<Step>)
    requires Runs(c, sys, steps)
    ensures Fixed(sys, DoAll(c, sys, steps))
    decreases |steps|
  {
    if steps != [] {
      StepFixes(c, sys, steps[0]);
      RunFixes(c, Do(c, sys, steps[0]), steps[1..]);
    }
  }

  /** Once signed, a receipt's row never changes again, and its signature names the version and
      digest of the one object the archive holds for it, then and ever after. */
  lemma SignedForGood(c: Config, before: seq<Step>, after: seq<Step>, receipt: Uuid)
    requires c.maxAttempts > 0 && Runs(c, START, before) && Runs(c, DoAll(c, START, before), after)
    requires receipt in DoAll(c, START, before).rows.receipts
             && DoAll(c, START, before).rows.receipts[receipt].status == Signed
    ensures var sys, sys' := DoAll(c, START, before), DoAll(c, DoAll(c, START, before), after);
            && receipt in sys'.rows.receipts && sys'.rows.receipts[receipt] == sys.rows.receipts[receipt]
            && sys.rows.receipts[receipt].signature.Some?
            && Archived(sys', receipt, sys.rows.receipts[receipt].signature.value)
            && receipt in sys.objects && sys'.objects[receipt] == sys.objects[receipt]
  {
    var sys := DoAll(c, START, before);
    ReachedInv(c, before);
    assert SignedOk(sys, receipt);
    RunFixes(c, sys, after);
  }

  lemma {:induction false} StepsExtend(c: Config, sys: System, steps: seq<Step>, step: Step)
    requires Runs(c, sys, steps) && Enabled(c, DoAll(c, sys, steps), step)
    ensures Runs(c, sys, steps + [step]) && DoAll(c, sys, steps + [step]) == Do(c, DoAll(c, sys, steps), step)
    decreases |steps|
  {
    if steps == [] {
      assert [] + [step] == [step];
      assert [step][1..] == [];
    } else {
      assert (steps + [step])[1..] == steps[1..] + [step];
      StepsExtend(c, Do(c, sys, steps[0]), steps[1..], step);
    }
  }

  // ----- leases exclude -----

  /** A step that claims request `id`, or ends a lease on it that the row still grants. */
  ghost predicate Touches(c: Config, sys: System, step: Step, id: Uuid) {
    || (step.ClaimStep? && step.id == id)
    || ((step.FinalizeStep? || step.ReleaseStep?)
        && var held := HeldBy(sys, step.w);
           !held.Idle? && held.request.requestId == id && id in sys.rows.requests
           && Holds(sys.rows.requests[id], c.names(step.w)))
  }

  predicate SameRows(rows: Rows, rows': Rows, id: Uuid) {
    && id in rows.requests && id in rows'.requests && rows'.requests[id] == rows.requests[id]
    && var receipt := rows.requests[id].receiptId;
       receipt in rows.receipts && receipt in rows'.receipts && rows'.receipts[receipt] == rows.receipts[receipt]
  }

  lemma ClaimLeavesOthers(rows: Rows, other: Uuid, worker: string, lease: int, now: int, id: Uuid)
    requires Coupled(rows) && other in rows.requests && id in rows.requests && other != id
    ensures SameRows(rows, ClaimRequest(rows, other, worker, lease, now).0, id)
  {
    assert RequestOk(rows, id) && RequestOk(rows, other);
  }

  lemma FinalizeLeavesOthers(rows: Rows, request: Request, worker: string, m: Manifest, s: Signature, now: int, id: Uuid)
    requires Coupled(rows) && id in rows.requests
    requires request.requestId == id ==> !Holds(rows.requests[id], worker)
    ensures SameRows(rows, Finalize(rows, request, worker, m, s, now).0, id)
  {
    assert RequestOk(rows, id);
  }

  lemma ReleaseLeavesOthers(rows: Rows, request: Request, worker: string, code: string, limit: int, now: int, id: Uuid)
    requires Coupled(rows) && id in rows.requests
    requires request.requestId in rows.requests ==> rows.requests[request.requestId].receiptId == request.receiptId
    requires request.requestId == id ==> !Holds(rows.requests[id], worker)
    ensures SameRows(rows, Release(rows, request, worker, code, limit, now).0, id)
  {
    assert RequestOk(rows, id);
  }

  lemma EnqueueLeavesOthers(rows: Rows, other: Uuid, q: RequestRow, r: ReceiptRow, id: Uuid)
    requires Coupled(rows) && id in rows.requests && NewPair(rows, other, q, r)
    ensures SameRows(rows, Rows(rows.requests[other := q], rows.receipts[q.receiptId := r]), id)
  {
    assert RequestOk(rows, id);
  }

  lemma UntouchedStays(c: Config, sys: System, step: Step, id: Uuid)
    requires Inv(c, sys) && Enabled(c, sys, step) && id in sys.rows.requests && !Touches(c, sys, step, id)
    ensures SameRows(sys.rows, Do(c, sys, step).rows, id)
  {
    assert RequestOk(sys.rows, id);
    match step
    case Enqueue(other, q, r) => EnqueueLeavesOthers(sys.rows, other, q, r, id);
    case ClaimStep(w, other, lease, now) => ClaimLeavesOthers(sys.rows, other, c.names(w), lease, now, id);
    case FailStep(_, _) =>
    case ArchiveStep(_, _, _, _, _, _) =>
    case FinalizeStep(w, now) =>
      var held := HeldBy(sys, w);
      FinalizeLeavesOthers(sys.rows, held.request, c.names(w), held.manifest, held.signature, now, id);
    case ReleaseStep(w, code, now) =>
      var held := HeldBy(sys, w);
      assert WorkerOk(sys, w);
      ReleaseLeavesOthers(sys.rows, held.request, c.names(w), code, Limit(c, held.retry), now, id);
    case CrashStep(_) =>
  }

  /** The run's steps neither end request `id`'s lease under `name`, if any, nor claim it at a time for
      which `open` holds. */
  ghost predicate Respects(c: Config, sys: System, steps: seq<Step>, id: Uuid, name: Option<string>, open: int -> bool)
    decreases |steps|
  {
    steps == []
    || (&& (steps[0].ClaimStep? && steps[0].id == id ==> !open(steps[0].now))
        && (steps[0].FinalizeStep? || steps[0].ReleaseStep? ==>
              HeldBy(sys, steps[0].w).Idle? || HeldBy(sys, steps[0].w).request.requestId != id
              || name != Some(c.names(steps[0].w)))
        && Respects(c, Do(c, sys, steps[0]), steps[1..], id, name, open))
  }

  /** A row that nobody but `name` can end, and nobody can claim unless `open`. */
  ghost predicate Closed(q: RequestRow, name: Option<string>, open: int -> bool) {
    && (forall now :: Claimable(q, now) ==> open(now))
    && (forall other :: Holds(q, other) ==> name == Some(other))
  }

  lemma {:induction false} ClosedStays(c: Config, sys: System, steps: seq<Step>, id: Uuid, name: Option<string>,
                                       open: int -> bool)
    requires Inv(c, sys) && Runs(c, sys, steps) && c.maxAttempts > 0
    requires id in sys.rows.requests && Closed(sys.rows.requests[id], name, open) && Respects(c, sys, steps, id, name, open)
    ensures Inv(c, DoAll(c, sys, steps)) && SameRows(sys.rows, DoAll(c, sys, steps).rows, id)
    decreases |steps|
  {
    assert RequestOk(sys.rows, id);
    if steps != [] {
      StepKeepsInv(c, sys, steps[0]);
      UntouchedStays(c, sys, steps[0], id);
      ClosedStays(c, Do(c, sys, steps[0]), steps[1..], id, name, open);
    }
  }

  /** What a poll at `now` does to request `id`: nothing while it is closed; once it is open the poll
      claims it or one ordered before it by creation time and id. */
  ghost predicate PolledOnlyWhen(rows: Rows, id: Uuid, open: int -> bool)
    requires id in rows.requests
  {
    forall worker, lease, now, rows', outcome :: Claims(rows, worker, lease, now, rows', outcome) ==>
      Polled(rows, id, open(now), worker, lease, rows', outcome)
  }

  predicate Polled(rows: Rows, id: Uuid, open: bool, worker: string, lease: int, rows': Rows, outcome: ClaimOutcome)
    requires id in rows.requests
  {
    && (outcome.Misconfigured? <==> worker == "" || lease < 30 || lease > 900)
    && (!open || outcome.Misconfigured? ==> SameRows(rows, rows', id) && !(outcome.Claimed? && outcome.request.requestId == id))
    && (open && !outcome.Misconfigured? ==>
          outcome.Claimed? && outcome.request.requestId in rows.requests
          && (outcome.request.requestId == id
              || rows.requests[outcome.request.requestId].createdAt < rows.requests[id].createdAt
              || (rows.requests[outcome.request.requestId].createdAt == rows.requests[id].createdAt
                  && outcome.request.requestId < id)))
  }

  lemma PollsExactly(rows: Rows, id: Uuid, open: int -> bool)
    requires Coupled(rows) && id in rows.requests && forall now :: Claimable(rows.requests[id], now) <==> open(now)
    ensures PolledOnlyWhen(rows, id, open)
  {
    assert RequestOk(rows, id);
    forall worker, lease, now, rows', outcome | Claims(rows, worker, lease, now, rows', outcome)
      ensures Polled(rows, id, open(now), worker, lease, rows', outcome)
    {
      if LeaseConfigured(worker, lease) && exists other :: other in rows.requests && Claimable(rows.requests[other], now) {
        var other :| IsEarliest(rows.requests, now, other) && (rows', outcome) == ClaimRequest(rows, other, worker, lease, now);
        ClaimKeepsCoupled(rows, other, worker, lease, now);
        if other != id {
          ClaimLeavesOthers(rows, other, worker, lease, now, id);
        }
      }
    }
  }

  /** The request is leased under the name with one more attempt, its receipt waits again, and both forget
      the last failure. */
  predicate Taken(rows: Rows, rows': Rows, id: Uuid, name: string, until: int)
    requires id in rows.requests
  {
    var q, receipt := rows.requests[id], rows.requests[id].receiptId;
    && receipt in rows.receipts
    && var r := rows.receipts[receipt];
       rows' == Rows(rows.requests[id := q.(status := Processing, claimedBy := Some(name), claimedUntil := Some(until),
                                            attempts := q.attempts + 1, lastError := None)],
                     rows.receipts[receipt := r.(status := Unsigned,
                                                 failureCode := if r.status == Failed then None else r.failureCode)])
  }

  /** After a claim at time t for `lease` seconds, and until the lease is ended under the claimer's own
      name, no step of anyone changes the request or its receipt before t + lease is over: a poll
      leaves it alone exactly up to then, and afterwards takes it unless an older one waits. */
  lemma LeaseExcludesIff(c: Config, before: seq<Step>, w: nat, id: Uuid, lease: int, t: int, steps: seq<Step>)
    requires c.maxAttempts > 0 && Runs(c, START, before) && Enabled(c, DoAll(c, START, before), ClaimStep(w, id, lease, t))
    requires var sys := Do(c, DoAll(c, START, before), ClaimStep(w, id, lease, t));
             Runs(c, sys, steps) && Respects(c, sys, steps, id, Some(c.names(w)), now => now > t + lease)
    ensures var sys := Do(c, DoAll(c, START, before), ClaimStep(w, id, lease, t));
            && HeldBy(sys, w).Working? && HeldBy(sys, w).request.requestId == id
            && Taken(DoAll(c, START, before).rows, sys.rows, id, c.names(w), t + lease)
            && SameRows(sys.rows, DoAll(c, sys, steps).rows, id)
            && PolledOnlyWhen(DoAll(c, sys, steps).rows, id, now => now > t + lease)
  {
    var was := DoAll(c, START, before);
    var sys := Do(c, was, ClaimStep(w, id, lease, t));
    ReachedInv(c, before);
    StepKeepsInv(c, was, ClaimStep(w, id, lease, t));
    ClaimKeepsCoupled(was.rows, id, c.names(w), lease, t);
    assert RequestOk(was.rows, id);
    ClosedStays(c, sys, steps, id, Some(c.names(w)), now => now > t + lease);
    PollsExactly(DoAll(c, sys, steps).rows, id, now => now > t + lease);
  }

  /** Two seconds after a first failure, twice as long after each further one, and never over 256. */
  lemma RetryDelayDoubles(n: nat)
    requires n > 0
    ensures RetryDelay(1) == 2
    ensures RetryDelay(n + 1) == if n < 8 then 2 * RetryDelay(n) else 256
  {
    assert Power(8) == 2 * Power(7) && Power(7) == 2 * Power(6) && Power(6) == 2 * Power(5) && Power(5) == 2 * Power(4);
    assert Power(4) == 2 * Power(3) && Power(3) == 2 * Power(2) && Power(2) == 2 * Power(1) && Power(1) == 2 * Power(0);
  }

  /** A release is carried out exactly under a code of at most a hundred characters and a positive bound, by
      the name that holds the request, and while its receipt is unsigned; these are then the rows. */
  lemma ReleasesExactly(rows: Rows, request: Request, worker: string, code: string, maxAttempts: int, now: int)
    ensures var (rows', outcome) := Release(rows, request, worker, code, maxAttempts, now);
            var dead := request.attempts >= maxAttempts;
            && (outcome.Invalid? <==> code == "" || |code| > 100 || maxAttempts <= 0)
            && (outcome.Released? <==>
                  && !outcome.Invalid? && request.requestId in rows.requests && request.receiptId in rows.receipts
                  && rows.requests[request.requestId].status == Processing
                  && rows.requests[request.requestId].claimedBy == Some(worker)
                  && rows.receipts[request.receiptId].status != Signed)
            && (!outcome.Released? ==> rows' == rows)
            && (outcome.Released? ==>
                  && outcome.terminal == dead
                  && rows' == Rows(
                       rows.requests[request.requestId := rows.requests[request.requestId].(
                         status := if dead then DeadLettered else Pending, availableAt := now + RetryDelay(request.attempts),
                         claimedBy := None, claimedUntil := None, lastError := Some(code),
                         deadLetteredAt := if dead then Some(now) else None)],
                       rows.receipts[request.receiptId := rows.receipts[request.receiptId].(status := Failed, failureCode := Some(code))]))
  {
  }

  /** The row after w released it at time t. */
  lemma ReleasedRowIs(c: Config, sys: System, w: nat, code: string, t: int)
    requires Inv(c, sys) && c.maxAttempts > 0 && HeldBy(sys, w).Failing? && ReleasePolicy(code, 1)
    requires var id := HeldBy(sys, w).request.requestId; id in sys.rows.requests && Holds(sys.rows.requests[id], c.names(w))
    ensures var held, sys' := HeldBy(sys, w), Do(c, sys, ReleaseStep(w, code, t));
            var id, again := held.request.requestId, held.retry && held.request.attempts < c.maxAttempts;
            && id in sys'.rows.requests && held.request.receiptId in sys'.rows.receipts
            && sys'.rows.requests[id].receiptId == held.request.receiptId
            && sys'.rows.requests[id].status == (if again then Pending else DeadLettered)
            && sys'.rows.requests[id].deadLetteredAt == (if again then None else Some(t))
            && (again ==> sys'.rows.requests[id].availableAt == t + RetryDelay(held.request.attempts))
            && sys'.rows.requests[id].lastError == Some(code)
            && sys'.rows.receipts[held.request.receiptId].status == Failed
            && sys'.rows.receipts[held.request.receiptId].failureCode == Some(code)
  {
    assert WorkerOk(sys, w);
    assert RequestOk(sys.rows, HeldBy(sys, w).request.requestId);
  }

  lemma BackoffCloses(c: Config, sys: System, steps: seq<Step>, id: Uuid, free: int)
    requires Inv(c, sys) && Runs(c, sys, steps) && c.maxAttempts > 0 && id in sys.rows.requests
    requires sys.rows.requests[id].status == Pending && sys.rows.requests[id].deadLetteredAt.None?
    requires sys.rows.requests[id].availableAt == free && Respects(c, sys, steps, id, None, now => now >= free)
    ensures SameRows(sys.rows, DoAll(c, sys, steps).rows, id)
    ensures PolledOnlyWhen(DoAll(c, sys, steps).rows, id, now => now >= free)
  {
    ClosedStays(c, sys, steps, id, None, now => now >= free);
    PollsExactly(DoAll(c, sys, steps).rows, id, now => now >= free);
  }

  lemma DeadStays(c: Config, sys: System, steps: seq<Step>, id: Uuid)
    requires Inv(c, sys) && Runs(c, sys, steps) && c.maxAttempts > 0 && id in sys.rows.requests
    requires sys.rows.requests[id].status in {Delivered, DeadLettered}
    ensures SameRows(sys.rows, DoAll(c, sys, steps).rows, id)
    ensures PolledOnlyWhen(DoAll(c, sys, steps).rows, id, now => false)
  {
    assert RequestOk(sys.rows, id);
    NeverOpens(c, sys, steps, id);
    ClosedStays(c, sys, steps, id, None, now => false);
    PollsExactly(DoAll(c, sys, steps).rows, id, now => false);
  }

  /** A request and its receipt as a release leaves them: to be claimed again, or dead-lettered. */
  predicate GivenBack(rows: Rows, id: Uuid, receipt: Uuid, code: string, again: bool) {
    && id in rows.requests && receipt in rows.receipts && rows.requests[id].receiptId == receipt
    && rows.requests[id].status == (if again then Pending else DeadLettered) && (again ==> rows.requests[id].deadLetteredAt.None?)
    && rows.requests[id].lastError == Some(code)
    && rows.receipts[receipt].status == Failed && rows.receipts[receipt].failureCode == Some(code)
  }

  lemma GivenBackStays(c: Config, sys: System, steps: seq<Step>, id: Uuid, receipt: Uuid, code: string, again: bool, free: int)
    requires Inv(c, sys) && Runs(c, sys, steps) && c.maxAttempts > 0 && GivenBack(sys.rows, id, receipt, code, again)
    requires again ==> sys.rows.requests[id].availableAt == free && Respects(c, sys, steps, id, None, now => now >= free)
    ensures var end := DoAll(c, sys, steps).rows;
            && SameRows(sys.rows, end, id) && GivenBack(end, id, receipt, code, again)
            && (if again then PolledOnlyWhen(end, id, now => now >= free) else PolledOnlyWhen(end, id, now => false))
  {
    if again {
      BackoffCloses(c, sys, steps, id, free);
    } else {
      DeadStays(c, sys, steps, id);
    }
  }

  lemma ReleaseGivesBack(c: Config, sys: System, w: nat, code: string, t: int)
    requires Inv(c, sys) && c.maxAttempts > 0 && HeldBy(sys, w).Failing? && ReleasePolicy(code, 1)
    requires var id := HeldBy(sys, w).request.requestId; id in sys.rows.requests && Holds(sys.rows.requests[id], c.names(w))
    ensures var held, sys' := HeldBy(sys, w), Do(c, sys, ReleaseStep(w, code, t));
            var id, again := held.request.requestId, held.retry && held.request.attempts < c.maxAttempts;
            && Inv(c, sys') && GivenBack(sys'.rows, id, held.request.receiptId, code, again)
            && (again ==> sys'.rows.requests[id].availableAt == t + RetryDelay(held.request.attempts))
  {
    StepKeepsInv(c, sys, ReleaseStep(w, code, t));
    ReleasedRowIs(c, sys, w, code, t);
  }

  /** When a failing worker that still has its lease releases it at time t, the receipt has failed under
      that code, and the request is dead-lettered exactly when the failure cannot be retried or the
      attempts are used up: then no run ever changes either row again.  Otherwise no step of anyone does
      before the delay is over, and afterwards a poll takes the request unless an older one waits. */
  lemma ReleaseDecides(c: Config, before: seq<Step>, w: nat, code: string, t: int, steps: seq<Step>)
    requires c.maxAttempts > 0 && Runs(c, START, before) && HeldBy(DoAll(c, START, before), w).Failing?
    requires code != "" && |code| <= 100
    requires var sys := DoAll(c, START, before);
             var id := HeldBy(sys, w).request.requestId;
             id in sys.rows.requests && Holds(sys.rows.requests[id], c.names(w))
    requires var sys := DoAll(c, START, before);
             var held, sys' := HeldBy(sys, w), Do(c, sys, ReleaseStep(w, code, t));
             && Runs(c, sys', steps)
             && (held.retry && held.request.attempts < c.maxAttempts ==>
                   Respects(c, sys', steps, held.request.requestId, None, now => now >= t + RetryDelay(held.request.attempts)))
    ensures var sys := DoAll(c, START, before);
            var held, sys' := HeldBy(sys, w), Do(c, sys, ReleaseStep(w, code, t));
            var id, end := held.request.requestId, DoAll(c, sys', steps).rows;
            && SameRows(sys'.rows, end, id) && held.request.receiptId in end.receipts
            && end.requests[id].lastError == Some(code)
            && end.receipts[held.request.receiptId].status == Failed
            && end.receipts[held.request.receiptId].failureCode == Some(code)
            && (if held.retry && held.request.attempts < c.maxAttempts
                then PolledOnlyWhen(end, id, now => now >= t + RetryDelay(held.request.attempts))
                else end.requests[id].status == DeadLettered && PolledOnlyWhen(end, id, now => false))
  {
    var sys := DoAll(c, START, before);
    var held, sys' := HeldBy(sys, w), Do(c, sys, ReleaseStep(w, code, t));
    ReachedInv(c, before);
    ReleaseGivesBack(c, sys, w, code, t);
    GivenBackStays(c, sys', steps, held.request.requestId, held.request.receiptId, code,
                   held.retry && held.request.attempts < c.maxAttempts, t + RetryDelay(held.request.attempts));
  }

  /** Steps that cannot claim a request respect it. */
  lemma {:induction false} NeverOpens(c: Config, sys: System, steps: seq<Step>, id: Uuid)
    ensures Respects(c, sys, steps, id, None, now => false)
    decreases |steps|
  {
    if steps != [] {
      NeverOpens(c, Do(c, sys, steps[0]), steps[1..], id);
    }
  }

  /** A delivered or dead-lettered request never changes again, nor does its receipt, in any run. */
  lemma EndedForGood(c: Config, before: seq<Step>, after: seq<Step>, id: Uuid)
    requires c.maxAttempts > 0 && Runs(c, START, before) && Runs(c, DoAll(c, START, before), after)
    requires id in DoAll(c, START, before).rows.requests
    requires DoAll(c, START, before).rows.requests[id].status in {Delivered, DeadLettered}
    ensures SameRows(DoAll(c, START, before).rows, DoAll(c, DoAll(c, START, before), after).rows, id)
  {
    ReachedInv(c, before);
    DeadStays(c, DoAll(c, START, before), after, id);
  }

  /** After the archive's answer a worker goes on to deliver exactly when the bundle is archived, and fails
      for good exactly when it is no bundle; any other failure can be retried. */
  lemma ArchiveDecides(c: Config, sys: System, w: nat, m: Manifest, s: Signature, body: seq<byte>, answer: PutAnswer, headAnswers: bool)
    requires HeldBy(sys, w).Working?
    ensures var request := HeldBy(sys, w).request;
            var held := HeldBy(Do(c, sys, ArchiveStep(w, m, s, body, answer, headAnswers)), w);
            var outcome := Persist(sys.objects, request.receiptId, body, s.bundleDigest, answer, headAnswers).1;
            && (outcome.Persisted? ==>
                  held == Stored(request, m, s.(bundleDigest := outcome.bundle.bundleDigest, objectKey := outcome.bundle.objectKey,
                                                versionId := outcome.bundle.versionId)))
            && (!outcome.Persisted? ==> held == Failing(request, IsBundle(body, s.bundleDigest)))
  {
    PersistedExactly(sys.objects, HeldBy(sys, w).request.receiptId, body, s.bundleDigest, answer, headAnswers);
  }

  // ----- what is signed -----

  /** Everything about a request that claiming copies from its two rows, but the attempt number. */
  function TargetOf(rows: Rows, id: Uuid): Request
    requires id in rows.requests && rows.requests[id].receiptId in rows.receipts
  {
    RequestFor(id, rows.requests[id].(attempts := 0), rows.receipts[rows.requests[id].receiptId])
  }

  ghost predicate SameTargets(rows: Rows, rows': Rows) {
    forall id :: id in rows.requests && rows.requests[id].receiptId in rows.receipts ==>
      id in rows'.requests && rows'.requests[id].receiptId in rows'.receipts && TargetOf(rows', id) == TargetOf(rows, id)
  }

  lemma ClaimKeepsTargets(rows: Rows, id: Uuid, worker: string, lease: int, now: int)
    requires id in rows.requests
    ensures SameTargets(rows, ClaimRequest(rows, id, worker, lease, now).0)
  {
  }

  lemma FinalizeKeepsTargets(rows: Rows, request: Request, worker: string, m: Manifest, s: Signature, now: int)
    ensures SameTargets(rows, Finalize(rows, request, worker, m, s, now).0)
  {
  }

  lemma ReleaseKeepsTargets(rows: Rows, request: Request, worker: string, code: string, limit: int, now: int)
    ensures SameTargets(rows, Release(rows, request, worker, code, limit, now).0)
  {
  }

  lemma StepKeepsTargets(c: Config, sys: System, step: Step)
    requires Enabled(c, sys, step)
    ensures SameTargets(sys.rows, Do(c, sys, step).rows)
  {
    match step
    case Enqueue(_, _, _) =>
    case ClaimStep(w, id, lease, now) => ClaimKeepsTargets(sys.rows, id, c.names(w), lease, now);
    case FailStep(_, _) =>
    case ArchiveStep(_, _, _, _, _, _) =>
    case FinalizeStep(w, now) =>
      var held := HeldBy(sys, w);
      FinalizeKeepsTargets(sys.rows, held.request, c.names(w), held.manifest, held.signature, now);
    case ReleaseStep(w, code, now) =>
      var held := HeldBy(sys, w);
      ReleaseKeepsTargets(sys.rows, held.request, c.names(w), code, Limit(c, held.retry), now);
    case CrashStep(_) =>
  }

  /** What a worker holds is what its rows say. */
  ghost predicate HoldsTarget(sys: System, w: nat) {
    var held := HeldBy(sys, w);
    !held.Idle? ==>
      var id := held.request.requestId;
      && id in sys.rows.requests && sys.rows.requests[id].receiptId in sys.rows.receipts
      && held.request.(attempts := 0) == TargetOf(sys.rows, id)
  }

  lemma StepKeepsHeldTarget(c: Config, sys: System, step: Step, v: nat)
    requires Enabled(c, sys, step) && HoldsTarget(sys, v)
    ensures HoldsTarget(Do(c, sys, step), v)
  {
    StepKeepsTargets(c, sys, step);
  }

  lemma {:induction false} RunKeepsHeldTarget(c: Config, sys: System, steps: seq<Step>, v: nat)
    requires Runs(c, sys, steps) && HoldsTarget(sys, v)
    ensures HoldsTarget(DoAll(c, sys, steps), v)
    decreases |steps|
  {
    if steps != [] {
      StepKeepsHeldTarget(c, sys, steps[0], v);
      RunKeepsHeldTarget(c, Do(c, sys, steps[0]), steps[1..], v);
    }
  }

  /** The manifest names the receipt's own run, ledger head, build and policy, and the signing key. */
  predicate Names(m: Manifest, r: ReceiptRow, s: Signature) {
    && m.runId == r.runId && m.ledgerHeadHash == r.ledgerHeadHash && m.eventCount == r.ledgerLastSequence
    && m.sourceSha == r.sourceSha && m.imageDigest == r.imageDigest
    && m.evaluationVersion == r.evaluationVersion && m.policyVersion == r.policyVersion
    && m.keyThumbprint == s.keyThumbprint && IsHex64(s.bundleDigest)
  }

  /** In every run, a finalization signs the receipt exactly when the worker's name still has the lease
      and its manifest names that very receipt; it then records the signature, publishes exactly a
      synthetic receipt that asks for it, and delivers the request.  Otherwise it changes nothing, and
      succeeds exactly when the request was delivered with the same signature. */
  lemma SignsExactly(c: Config, steps: seq<Step>, w: nat, now: int)
    requires c.maxAttempts > 0 && Runs(c, START, steps) && HeldBy(DoAll(c, START, steps), w).Stored?
    ensures var sys := DoAll(c, START, steps);
            var held, sys' := HeldBy(sys, w), Do(c, sys, FinalizeStep(w, now));
            var id, receipt := held.request.requestId, held.request.receiptId;
            && id in sys.rows.requests && receipt in sys.rows.receipts
            && var q, r := sys.rows.requests[id], sys.rows.receipts[receipt];
               if q.status == Processing && q.claimedBy == Some(c.names(w)) && Names(held.manifest, r, held.signature)
               then
                 && sys'.rows == Rows(sys.rows.requests[id := q.(status := Delivered, deliveredAt := Some(now), claimedBy := None,
                                                                 claimedUntil := None, lastError := None)],
                                      sys.rows.receipts[receipt := r.(status := Signed, signature := Some(held.signature),
                                                                      signedAt := Some(now), failureCode := None,
                                                                      publicAt := if r.synthetic && q.publishPublic then Some(now) else None)])
                 && HeldBy(sys', w).Idle?
               else
                 && sys'.rows == sys.rows
                 && (HeldBy(sys', w).Idle? <==> q.status == Delivered && r.signature == Some(held.signature)
                                                && Names(held.manifest, r, held.signature))
  {
    var sys := DoAll(c, START, steps);
    ReachedInv(c, steps);
    RunKeepsHeldTarget(c, START, steps, w);
    assert WorkerOk(sys, w);
    assert RequestOk(sys.rows, HeldBy(sys, w).request.requestId);
  }

  // ----- superseded workers -----

  /** No other worker runs under w's name. */
  ghost predicate Alone(c: Config, w: nat) {
    forall v :: v != w ==> c.names(v) != c.names(w)
  }

  /** A lease in a worker's own name is the lease it holds, not a later one. */
  ghost predicate OwnLease(c: Config, sys: System, w: nat) {
    var held := HeldBy(sys, w);
    !held.Idle? && held.request.requestId in sys.rows.requests
    && Holds(sys.rows.requests[held.request.requestId], c.names(w))
    ==> sys.rows.requests[held.request.requestId].attempts == held.request.attempts
  }

  lemma ClaimKeepsOwnLease(c: Config, sys: System, w: nat, id: Uuid, lease: int, now: int, v: nat)
    requires Alone(c, v) && Coupled(sys.rows) && WorkerOk(sys, v) && OwnLease(c, sys, v)
    requires id in sys.rows.requests && Claimable(sys.rows.requests[id], now)
    ensures OwnLease(c, AfterClaim(c, sys, w, id, lease, now), v)
  {
    ClaimKeepsCoupled(sys.rows, id, c.names(w), lease, now);
  }

  /** Finalizing and releasing leave every lease as it is, or end it. */
  lemma TransactionsGrantNoLease(rows: Rows, request: Request, worker: string, m: Manifest, s: Signature,
                                 code: string, limit: int, now: int, id: Uuid, name: string)
    ensures GrantsNoLease(rows, Finalize(rows, request, worker, m, s, now).0, id, name)
    ensures GrantsNoLease(rows, Release(rows, request, worker, code, limit, now).0, id, name)
  {
  }

  predicate GrantsNoLease(rows: Rows, rows': Rows, id: Uuid, name: string) {
    && (id in rows.requests <==> id in rows'.requests)
    && (id in rows.requests && Holds(rows'.requests[id], name) ==>
          Holds(rows.requests[id], name) && rows'.requests[id].attempts == rows.requests[id].attempts)
  }

  lemma StepKeepsOwnLease(c: Config, sys: System, step: Step, v: nat)
    requires Alone(c, v) && Inv(c, sys) && Enabled(c, sys, step) && OwnLease(c, sys, v)
    ensures OwnLease(c, Do(c, sys, step), v)
  {
    assert WorkerOk(sys, v);
    var id := if HeldBy(sys, v).Idle? then 0 else HeldBy(sys, v).request.requestId;
    match step
    case Enqueue(_, _, _) =>
    case ClaimStep(w, claimed, lease, now) => ClaimKeepsOwnLease(c, sys, w, claimed, lease, now, v);
    case FailStep(_, _) =>
    case ArchiveStep(_, _, _, _, _, _) =>
    case FinalizeStep(w, now) => FinalizeKeepsOwnLease(c, sys, w, now, v, id);
    case ReleaseStep(w, code, now) => ReleaseKeepsOwnLease(c, sys, w, code, now, v, id);
    case CrashStep(_) =>
  }

  lemma FinalizeKeepsOwnLease(c: Config, sys: System, w: nat, now: int, v: nat, id: Uuid)
    requires OwnLease(c, sys, v) && HeldBy(sys, w).Stored?
    requires !HeldBy(sys, v).Idle? ==> id == HeldBy(sys, v).request.requestId
    requires !HeldBy(sys, v).Idle? ==> id in sys.rows.requests
    ensures OwnLease(c, Do(c, sys, FinalizeStep(w, now)), v)
  {
    var held := HeldBy(sys, w);
    TransactionsGrantNoLease(sys.rows, held.request, c.names(w), held.manifest, held.signature, "", 0, now, id, c.names(v));
  }

  lemma ReleaseKeepsOwnLease(c: Config, sys: System, w: nat, code: string, now: int, v: nat, id: Uuid)
    requires OwnLease(c, sys, v) && HeldBy(sys, w).Failing?
    requires !HeldBy(sys, v).Idle? ==> id == HeldBy(sys, v).request.requestId
    ensures OwnLease(c, Do(c, sys, ReleaseStep(w, code, now)), v)
  {
    var held := HeldBy(sys, w);
    var rows := Release(sys.rows, held.request, c.names(w), code, Limit(c, held.retry), now).0;
    assert GrantsNoLease(sys.rows, rows, id, c.names(v));
  }

  lemma {:induction false} RunKeepsOwnLease(c: Config, sys: System, steps: seq<Step>, w: nat)
    requires Alone(c, w) && Inv(c, sys) && Runs(c, sys, steps) && OwnLease(c, sys, w) && c.maxAttempts > 0
    ensures OwnLease(c, DoAll(c, sys, steps), w)
    decreases |steps|
  {
    if steps != [] {
      StepKeepsInv(c, sys, steps[0]);
      StepKeepsOwnLease(c, sys, steps[0], w);
      RunKeepsOwnLease(c, Do(c, sys, steps[0]), steps[1..], w);
    }
  }

  /** w carries a request that has been claimed again since. */
  predicate Superseded(sys: System, w: nat) {
    var held := HeldBy(sys, w);
    !held.Idle? && held.request.requestId in sys.rows.requests
    && sys.rows.requests[held.request.requestId].attempts > held.request.attempts
  }

  /** A superseded worker whose name is its own can change neither row, whatever it tries, in any run. */
  lemma SupersededChangesNothing(c: Config, steps: seq<Step>, w: nat, code: string, now: int)
    requires Alone(c, w) && c.maxAttempts > 0 && Runs(c, START, steps) && Superseded(DoAll(c, START, steps), w)
    ensures var sys := DoAll(c, START, steps);
            && Do(c, sys, FinalizeStep(w, now)).rows == sys.rows
            && Do(c, sys, ReleaseStep(w, code, now)).rows == sys.rows
  {
    StartInv(c);
    RunKeepsOwnLease(c, START, steps, w);
  }

  // A run in which two workers share a name.

  function SharedRequest(hash: Digest): RequestRow {
    RequestRow(2, 3, "tenant", 1, hash, false, 0, Pending, 0, 0, None, None, None, None, None)
  }

  function SharedReceipt(hash: Digest): ReceiptRow {
    ReceiptRow(3, "tenant", hash, 1, "", "", "", "", true, Unsigned, None, None, None, None)
  }

  function SharedRows(hash: Digest, attempts: nat, name: string): Rows {
    Rows(map[1 := SharedRequest(hash).(status := Processing, attempts := attempts, claimedBy := Some(name),
                                  claimedUntil := Some(31 * attempts - 1))],
         map[2 := SharedReceipt(hash)])
  }

  function SharedClaim(hash: Digest, attempts: nat): Request {
    RequestFor(1, SharedRequest(hash).(attempts := attempts), SharedReceipt(hash))
  }

  lemma SharedEnqueue(c: Config, hash: Digest)
    ensures Enabled(c, START, Enqueue(1, SharedRequest(hash), SharedReceipt(hash)))
    ensures Do(c, START, Enqueue(1, SharedRequest(hash), SharedReceipt(hash)))
            == System(Rows(map[1 := SharedRequest(hash)], map[2 := SharedReceipt(hash)]), map[], map[], map[])
  {
  }

  lemma SharedFirstClaim(c: Config, hash: Digest, w: nat)
    requires c.names(w) != ""
    ensures var sys := System(Rows(map[1 := SharedRequest(hash)], map[2 := SharedReceipt(hash)]), map[], map[], map[]);
            && Enabled(c, sys, ClaimStep(w, 1, 30, 0))
            && Do(c, sys, ClaimStep(w, 1, 30, 0)) == System(SharedRows(hash, 1, c.names(w)), map[], map[w := Working(SharedClaim(hash, 1))], map[])
  {
  }

  /** The first lease has run out. */
  lemma SharedSecondClaim(c: Config, hash: Digest, v: nat, w: nat)
    requires v != w && c.names(v) == c.names(w) != ""
    ensures var sys := System(SharedRows(hash, 1, c.names(w)), map[], map[w := Working(SharedClaim(hash, 1))], map[]);
            && Enabled(c, sys, ClaimStep(v, 1, 30, 31))
            && Do(c, sys, ClaimStep(v, 1, 30, 31))
               == System(SharedRows(hash, 2, c.names(w)), map[], map[w := Working(SharedClaim(hash, 1)), v := Working(SharedClaim(hash, 2))], map[])
  {
  }

  lemma SharedRelease(c: Config, hash: Digest, v: nat, w: nat)
    requires v != w && c.names(v) == c.names(w) && c.maxAttempts > 0
    ensures var sys := System(SharedRows(hash, 2, c.names(w)), map[], map[w := Working(SharedClaim(hash, 1)), v := Working(SharedClaim(hash, 2))], map[]);
            var failing := Do(c, sys, FailStep(w, true));
            && Enabled(c, sys, FailStep(w, true)) && Superseded(failing, w)
            && Do(c, failing, ReleaseStep(w, "E", 31)).rows != failing.rows
  {
    var sys := System(SharedRows(hash, 2, c.names(w)), map[], map[w := Working(SharedClaim(hash, 1)), v := Working(SharedClaim(hash, 2))], map[]);
    var failing := Do(c, sys, FailStep(w, true));
    assert HeldBy(failing, w) == Failing(SharedClaim(hash, 1), true);
    assert Holds(failing.rows.requests[1], c.names(w));
    assert Do(c, failing, ReleaseStep(w, "E", 31)).rows.requests[1].claimedBy == None;
  }

  /** Two workers under one name: the first, superseded, still releases the second's lease. */
  lemma SharedNameReleases(c: Config, v: nat, w: nat) returns (steps: seq<Step>)
    requires v != w && c.names(v) == c.names(w) != "" && c.maxAttempts > 0
    ensures Runs(c, START, steps) && Superseded(DoAll(c, START, steps), w)
    ensures Do(c, DoAll(c, START, steps), ReleaseStep(w, "E", 31)).rows != DoAll(c, START, steps).rows
  {
    var hash: Digest := seq(64, _ => '0');
    var a, b, d, e := Enqueue(1, SharedRequest(hash), SharedReceipt(hash)), ClaimStep(w, 1, 30, 0), ClaimStep(v, 1, 30, 31), FailStep(w, true);
    SharedEnqueue(c, hash);
    SharedFirstClaim(c, hash, w);
    SharedSecondClaim(c, hash, v, w);
    SharedRelease(c, hash, v, w);
    StepsExtend(c, START, [], a);
    StepsExtend(c, START, [] + [a], b);
    StepsExtend(c, START, [] + [a] + [b], d);
    StepsExtend(c, START, [] + [a] + [b] + [d], e);
    steps := [] + [a] + [b] + [d] + [e];
  }

  /** In every run, superseded, w can change neither row. */
  ghost predicate HarmlessOnceSuperseded(c: Config, w: nat) {
    forall steps, code, now :: Runs(c, START, steps) && Superseded(DoAll(c, START, steps), w) ==>
      HarmlessAt(c, DoAll(c, START, steps), w, code, now)
  }

  predicate HarmlessAt(c: Config, sys: System, w: nat, code: string, now: int) {
    Do(c, sys, FinalizeStep(w, now)).rows == sys.rows && Do(c, sys, ReleaseStep(w, code, now)).rows == sys.rows
  }

  /** A worker is harmless once superseded exactly when no other worker runs under its name. */
  lemma HarmlessOnceSupersededIff(c: Config, w: nat)
    requires c.names(w) != "" && c.maxAttempts > 0
    ensures HarmlessOnceSuperseded(c, w) <==> Alone(c, w)
  {
    if Alone(c, w) {
      forall steps, code, now | Runs(c, START, steps) && Superseded(DoAll(c, START, steps), w)
        ensures HarmlessAt(c, DoAll(c, START, steps), w, code, now)
      {
        SupersededChangesNothing(c, steps, w, code, now);
      }
    } else {
      var v :| v != w && c.names(v) == c.names(w);
      var steps := SharedNameReleases(c, v, w);
      assert !HarmlessAt(c, DoAll(c, START, steps), w, "E", 31);
    }
  }

  lemma FinalizeKeepsAttempts(rows: Rows, request: Request, worker: string, m: Manifest, s: Signature, now: int, id: Uuid)
    requires id in rows.requests
    ensures var rows' := Finalize(rows, request, worker, m, s, now).0;
            id in rows'.requests && rows'.requests[id].attempts == rows.requests[id].attempts
  {
  }

  lemma ReleaseKeepsAttempts(rows: Rows, request: Request, worker: string, code: string, limit: int, now: int, id: Uuid)
    requires id in rows.requests
    ensures var rows' := Release(rows, request, worker, code, limit, now).0;
            id in rows'.requests && rows'.requests[id].attempts == rows.requests[id].attempts
  {
  }

  /** Being superseded is for good: the row's attempt number never goes back. */
  lemma SupersededForGood(c: Config, sys: System, step: Step, id: Uuid)
    requires Inv(c, sys) && Enabled(c, sys, step) && id in sys.rows.requests
    ensures id in Do(c, sys, step).rows.requests
    ensures Do(c, sys, step).rows.requests[id].attempts >= sys.rows.requests[id].attempts
    ensures Do(c, sys, step).rows.requests[id].attempts > sys.rows.requests[id].attempts
            <==> step.ClaimStep? && step.id == id
  {
    match step
    case Enqueue(_, _, _) =>
    case ClaimStep(w, claimed, lease, now) => ClaimKeepsCoupled(sys.rows, claimed, c.names(w), lease, now);
    case FailStep(_, _) =>
    case ArchiveStep(_, _, _, _, _, _) =>
    case FinalizeStep(w, now) =>
      var held := HeldBy(sys, w);
      FinalizeKeepsAttempts(sys.rows, held.request, c.names(w), held.manifest, held.signature, now, id);
    case ReleaseStep(w, code, now) =>
      var held := HeldBy(sys, w);
      ReleaseKeepsAttempts(sys.rows, held.request, c.names(w), code, Limit(c, held.retry), now, id);
    case CrashStep(_) =>
  }

  // ----- run_once -----

  /** What a worker computes between claiming and archiving: a signed bundle, or a failure. */
  datatype Preparation =
    | Prepared(manifest: Manifest, signature: Signature, body: seq<byte>)
    | Unprepared(code: string, retry: bool)

  /** The times at which the transactions of one run_once read the clock. */
  datatype Clock = Clock(claim: int, finalize: int, release: int)

  datatype WorkerResult = IdleResult | SignedResult(receipt: Uuid) | FailedResult(receipt: Uuid, code: string, terminal: bool)

  /** `re.sub("[^A-Z0-9_]", "_", code)[:100]`. */
  function Bounded(code: string): (r: string)
    ensures |r| == Min(|code|, 100)
    ensures forall i :: 0 <= i < |r| ==>
              if 'A' <= code[i] <= 'Z' || '0' <= code[i] <= '9' || code[i] == '_' then r[i] == code[i] else r[i] == '_'
  {
    var n := if |code| < 100 then |code| else 100;
    seq(n, i requires 0 <= i < n =>
      var ch := code[i];
      if 'A' <= ch <= 'Z' || '0' <= ch <= '9' || ch == '_' then ch else '_')
  }

  class ReceiptFinalizationWorker {
    const c: Config
    const w: nat
    const lease: int
    const outbox: Outbox
    const archive: S3AuthorityBundleArchive

    constructor (c: Config, w: nat, lease: int, outbox: Outbox, archive: S3AuthorityBundleArchive)
      ensures this.c == c && this.w == w && this.lease == lease && this.outbox == outbox && this.archive == archive
    {
      this.c, this.w, this.lease, this.outbox, this.archive := c, w, lease, outbox, archive;
    }

    /** A step of run_once: this worker's own, and no crash. */
    predicate IsOwn(step: Step) {
      !step.Enqueue? && !step.CrashStep? && step.w == w
    }

    ghost predicate Own(steps: seq<Step>) {
      forall i :: 0 <= i < |steps| ==> IsOwn(steps[i])
    }

    /** The last thing a failed run_once did: release its request under the code it reports. */
    ghost predicate EndsReleased(steps: seq<Step>, result: WorkerResult, now: int) {
      result.FailedResult? ==> steps != [] && steps[|steps| - 1] == ReleaseStep(w, result.code, now)
    }

    /** The database and the archive are where a run of the system's steps leaves them. */
    ghost predicate Tracks(sys: System, steps: seq<Step>, held: Held)
      reads outbox, archive
    {
      && Runs(c, sys, steps)
      && DoAll(c, sys, steps).rows == outbox.View() && DoAll(c, sys, steps).objects == archive.objects
      && HeldBy(DoAll(c, sys, steps), w) == held
    }

    /** _failed: exactly one release, under the bounded code. */
    method Failed(ghost sys: System, ghost before: seq<Step>, request: Request, code: string, retry: bool, now: int)
      returns (result: WorkerResult, ghost steps: seq<Step>)
      requires code != "" && Tracks(sys, before, Failing(request, retry)) && Own(before)
      modifies outbox
      ensures steps == before + [ReleaseStep(w, Bounded(code), now)] && Own(steps)
      ensures Tracks(sys, steps, Idle)
      ensures outbox.View() == Release(old(outbox.View()), request, c.names(w), Bounded(code), Limit(c, retry), now).0
      ensures result == FailedResult(request.receiptId, Bounded(code),
                          Release(old(outbox.View()), request, c.names(w), Bounded(code), Limit(c, retry), now).1 == Released(true))
    {
      var outcome := outbox.ReleaseFailure(request, c.names(w), Bounded(code), Limit(c, retry), now);
      result := FailedResult(request.receiptId, Bounded(code), outcome == Released(true));
      ghost var step := ReleaseStep(w, Bounded(code), now);
      StepsExtend(c, sys, before, step);
      steps := before + [step];
    }

    /** Record the archived result under the lease, or give the request up. */
    method Finish(ghost sys: System, ghost before: seq<Step>, request: Request, m: Manifest, s: Signature, clock: Clock)
      returns (result: WorkerResult, ghost steps: seq<Step>)
      requires Tracks(sys, before, Stored(request, m, s)) && Own(before)
      modifies outbox
      ensures before <= steps && Own(steps) && EndsReleased(steps, result, clock.release)
      ensures Tracks(sys, steps, Idle)
      ensures !result.IdleResult? && (result.SignedResult? ==> DeliveredFor(result.receipt))
    {
      ghost var step := FinalizeStep(w, clock.finalize);
      StepsExtend(c, sys, before, step);
      steps := before + [step];
      var finalized := outbox.FinalizeRequest(request, c.names(w), m, s, clock.finalize);
      if finalized == Finalized(true) {
        result := SignedResult(request.receiptId);
      } else {
        result, steps := Failed(sys, steps, request, "RECEIPT_MATERIAL_INVALID", false, clock.release);
      }
    }

    /** Archive the signed bundle, then deliver the request under the lease. */
    method Deliver(ghost sys: System, ghost before: seq<Step>, request: Request, preparation: Preparation,
                   answer: PutAnswer, headAnswers: bool, clock: Clock)
      returns (result: WorkerResult, ghost steps: seq<Step>)
      requires preparation.Prepared? && Tracks(sys, before, Working(request)) && Own(before)
      modifies outbox, archive
      ensures before <= steps && Own(steps) && EndsReleased(steps, result, clock.release)
      ensures Tracks(sys, steps, Idle)
      ensures !result.IdleResult? && (result.SignedResult? ==> DeliveredFor(result.receipt))
    {
      var m, s := preparation.manifest, preparation.signature;
      ghost var step := ArchiveStep(w, m, s, preparation.body, answer, headAnswers);
      StepsExtend(c, sys, before, step);
      steps := before + [step];
      var persisted := archive.PersistBundle(request.receiptId, preparation.body, s.bundleDigest, answer, headAnswers);
      if !persisted.Persisted? {
        var code := if persisted.Unavailable? then "DEPENDENCY_" + persisted.dependency else "RECEIPT_MATERIAL_INVALID";
        result, steps := Failed(sys, steps, request, code, persisted.Unavailable?, clock.release);
      } else {
        s := s.(bundleDigest := persisted.bundle.bundleDigest, objectKey := persisted.bundle.objectKey,
                versionId := persisted.bundle.versionId);
        result, steps := Finish(sys, steps, request, m, s, clock);
      }
    }

    /** The receipt carries a signature. */
    ghost predicate DeliveredFor(receipt: Uuid)
      reads outbox
    {
      receipt in outbox.receipts && outbox.receipts[receipt].signature.Some?
    }

    /** A preparation that failed before anything was archived. */
    method GiveUp(ghost sys: System, ghost before: seq<Step>, request: Request, code: string, retry: bool, now: int)
      returns (result: WorkerResult, ghost steps: seq<Step>)
      requires code != "" && Tracks(sys, before, Working(request)) && Own(before)
      modifies outbox
      ensures Own(steps) && EndsReleased(steps, result, now) && result.FailedResult?
      ensures Tracks(sys, steps, Idle)
    {
      ghost var step := FailStep(w, retry);
      StepsExtend(c, sys, before, step);
      steps := before + [step];
      result, steps := Failed(sys, steps, request, code, retry, now);
    }

    /** A claim that found something found a request with its receipt: it is this worker's first step. */
    method Claim(ghost sys: System, claimed: ClaimOutcome, now: int) returns (request: Request, ghost steps: seq<Step>)
      requires LeaseConfigured(c.names(w), lease) && Coupled(sys.rows) && HeldBy(sys, w).Idle?
      requires Claims(sys.rows, c.names(w), lease, now, outbox.View(), claimed) && !claimed.NothingClaimable?
      requires archive.objects == sys.objects
      ensures claimed == Claimed(request)
      ensures |steps| == 1 && Own(steps) && Tracks(sys, steps, Working(request))
    {
      ghost var id :| IsEarliest(sys.rows.requests, now, id)
        && (outbox.View(), claimed) == ClaimRequest(sys.rows, id, c.names(w), lease, now);
      ClaimKeepsCoupled(sys.rows, id, c.names(w), lease, now);
      request := claimed.request;
      ghost var step := ClaimStep(w, id, lease, now);
      StepsExtend(c, sys, [], step);
      steps := [] + [step];
    }

    /** One uninterrupted run_once is one run of this worker's own steps, none of them a crash, from
        idle to idle; it reports "signed" only for a receipt that is signed, and a failure only after
        releasing the request under the reported code. */
    method RunOnce(ghost sys: System, preparation: Preparation, answer: PutAnswer, headAnswers: bool, clock: Clock)
      returns (result: WorkerResult, ghost steps: seq<Step>)
      requires LeaseConfigured(c.names(w), lease) && (preparation.Unprepared? ==> preparation.code != "")
      requires Coupled(sys.rows) && Tracks(sys, [], Idle)
      modifies outbox, archive
      ensures Own(steps) && EndsReleased(steps, result, clock.release)
      ensures result.IdleResult? ==> steps == []
      ensures Tracks(sys, steps, Idle)
      ensures result.SignedResult? ==> DeliveredFor(result.receipt)
    {
      steps := [];
      var claimed := outbox.ClaimNext(c.names(w), lease, clock.claim);
      if claimed.NothingClaimable? {
        result := IdleResult;
        return;
      }
      var request;
      request, steps := Claim(sys, claimed, clock.claim);
      if preparation.Prepared? {
        result, steps := Deliver(sys, steps, request, preparation, answer, headAnswers, clock);
      } else {
        result, steps := GiveUp(sys, steps, request, preparation.code, preparation.retry, clock.release);
      }
    }
  }
}
