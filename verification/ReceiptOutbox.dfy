/** The lease protocol on receipt requests (receipt_outbox.py): claim, finalize and release, each one
    transaction over two coupled rows. */
module ReceiptOutbox {
  import opened Common
  import opened Canonical

  // ----- rows -----

  datatype RequestStatus = Pending | Processing | Delivered | DeadLettered

  datatype RequestRow = RequestRow(
    receiptId: Uuid, runId: Uuid, tenant: string, targetSequence: nat, targetHash: Digest, publishPublic: bool,
    createdAt: int, status: RequestStatus, availableAt: int, attempts: nat,
    claimedBy: Option<string>, claimedUntil: Option<int>,
    deliveredAt: Option<int>, deadLetteredAt: Option<int>, lastError: Option<string>)

  datatype ReceiptStatus = Unsigned | Signed | Failed

  /** What signing writes into a receipt. */
  datatype Signature = Signature(
    manifestDigest: Digest, bundleDigest: string, jws: string, keyThumbprint: string,
    objectKey: string, versionId: string)

  datatype ReceiptRow = ReceiptRow(
    runId: Uuid, tenant: string, ledgerHeadHash: Digest, ledgerLastSequence: nat, policyVersion: string,
    sourceSha: string, imageDigest: string, evaluationVersion: string, synthetic: bool,
    status: ReceiptStatus, signature: Option<Signature>, signedAt: Option<int>, publicAt: Option<int>,
    failureCode: Option<string>)

  datatype Rows = Rows(requests: map<Uuid, RequestRow>, receipts: map<Uuid, ReceiptRow>)

  /** A claimed request, as a worker carries it. */
  datatype Request = Request(
    requestId: Uuid, receiptId: Uuid, runId: Uuid, tenant: string, targetSequence: nat, targetHash: Digest,
    publishPublic: bool, attempts: nat, createdAt: int, policyVersion: string, sourceSha: string,
    imageDigest: string, evaluationVersion: string, synthetic: bool)

  datatype Manifest = Manifest(
    runId: Uuid, ledgerHeadHash: Digest, eventCount: nat, sourceSha: string, imageDigest: string,
    evaluationVersion: string, policyVersion: string, keyThumbprint: string)

  // ----- claim -----

  predicate Claimable(q: RequestRow, now: int) {
    && q.availableAt <= now && q.deadLetteredAt.None?
    && (q.status == Pending || (q.status == Processing && q.claimedUntil.Some? && q.claimedUntil.value < now))
  }

  /** ORDER BY created_at, request_id. */
  predicate Before(requests: map<Uuid, RequestRow>, a: Uuid, b: Uuid)
    requires a in requests && b in requests
  {
    requests[a].createdAt < requests[b].createdAt || (requests[a].createdAt == requests[b].createdAt && a < b)
  }

  ghost predicate IsEarliest(requests: map<Uuid, RequestRow>, now: int, id: Uuid) {
    && id in requests && Claimable(requests[id], now)
    && forall other :: other in requests && Claimable(requests[other], now) && other != id ==> Before(requests, id, other)
  }

  predicate PendingReceipt(rows: Rows, q: RequestRow) {
    && q.receiptId in rows.receipts
    && rows.receipts[q.receiptId].runId == q.runId && rows.receipts[q.receiptId].tenant == q.tenant
    && (rows.receipts[q.receiptId].status == Unsigned || rows.receipts[q.receiptId].status == Failed)
  }

  function Leased(q: RequestRow, worker: string, lease: int, now: int): RequestRow {
    q.(status := Processing, claimedBy := Some(worker), claimedUntil := Some(now + lease),
       attempts := q.attempts + 1, lastError := None)
  }

  function Reopened(r: ReceiptRow): ReceiptRow {
    if r.status == Failed then r.(status := Unsigned, failureCode := None) else r
  }

  function RequestFor(id: Uuid, q: RequestRow, r: ReceiptRow): Request {
    Request(id, q.receiptId, q.runId, q.tenant, q.targetSequence, q.targetHash, q.publishPublic, q.attempts,
            q.createdAt, r.policyVersion, r.sourceSha, r.imageDigest, r.evaluationVersion, r.synthetic)
  }

  predicate LeaseConfigured(worker: string, lease: int) {
    worker != "" && 30 <= lease <= 900
  }

  datatype ClaimOutcome = Misconfigured | NothingClaimable | Claimed(request: Request) | LostReceipt

  /** Lease request `id`: both rows change, or neither does. */
  function ClaimRequest(rows: Rows, id: Uuid, worker: string, lease: int, now: int): (Rows, ClaimOutcome)
    requires id in rows.requests
  {
    var q := Leased(rows.requests[id], worker, lease, now);
    if !PendingReceipt(rows, q) then (rows, LostReceipt)
    else
      var r := Reopened(rows.receipts[q.receiptId]);
      (Rows(rows.requests[id := q], rows.receipts[q.receiptId := r]), Claimed(RequestFor(id, q, r)))
  }

  ghost predicate Claims(rows: Rows, worker: string, lease: int, now: int, rows': Rows, outcome: ClaimOutcome) {
    if !LeaseConfigured(worker, lease) then rows' == rows && outcome == Misconfigured
    else if forall id :: id in rows.requests ==> !Claimable(rows.requests[id], now)
    then rows' == rows && outcome == NothingClaimable
    else exists id :: IsEarliest(rows.requests, now, id) && (rows', outcome) == ClaimRequest(rows, id, worker, lease, now)
  }

  // ----- finalize -----

  predicate MatchesRequest(m: Manifest, request: Request, s: Signature) {
    && m.runId == request.runId && m.ledgerHeadHash == request.targetHash && m.eventCount == request.targetSequence
    && m.sourceSha == request.sourceSha && m.imageDigest == request.imageDigest
    && m.evaluationVersion == request.evaluationVersion && m.policyVersion == request.policyVersion
    && m.keyThumbprint == s.keyThumbprint && IsHex64(s.bundleDigest)
  }

  /** The WHERE clause of the signing update. */
  predicate Signable(r: ReceiptRow, request: Request) {
    && r.runId == request.runId && r.tenant == request.tenant && r.status == Unsigned
    && r.ledgerHeadHash == request.targetHash && r.ledgerLastSequence == request.targetSequence
    && r.policyVersion == request.policyVersion && r.sourceSha == request.sourceSha
    && r.imageDigest == request.imageDigest && r.evaluationVersion == request.evaluationVersion
  }

  function SignedRow(r: ReceiptRow, s: Signature, publish: bool, now: int): ReceiptRow {
    r.(status := Signed, signature := Some(s), signedAt := Some(now), failureCode := None,
       publicAt := if r.synthetic && publish then Some(now) else None)
  }

  function DeliveredRow(q: RequestRow, now: int): RequestRow {
    q.(status := Delivered, deliveredAt := Some(now), claimedBy := None, claimedUntil := None, lastError := None)
  }

  predicate Holds(q: RequestRow, worker: string) {
    q.status == Processing && q.claimedBy == Some(worker)
  }

  /** LostLease stands for the source's last error.  Its check repeats the one made when the row was
      locked, and nothing in the transaction changes that row in between, so it is dead code. */
  datatype FinalizeOutcome = Mismatch | Finalized(ok: bool) | LostLease

  function Finalize(rows: Rows, request: Request, worker: string, m: Manifest, s: Signature, now: int): (Rows, FinalizeOutcome) {
    if !MatchesRequest(m, request, s) then (rows, Mismatch)
    else if request.requestId !in rows.requests || rows.requests[request.requestId].receiptId != request.receiptId
    then (rows, Finalized(false))
    else
      var q := rows.requests[request.requestId];
      if q.status == Delivered then
        (rows, Finalized(request.receiptId in rows.receipts && rows.receipts[request.receiptId].signature == Some(s)))
      else if !Holds(q, worker) || request.receiptId !in rows.receipts
              || !Signable(rows.receipts[request.receiptId], request)
      then (rows, Finalized(false))
      else
        var signed := Rows(rows.requests,
                           rows.receipts[request.receiptId :=
                             SignedRow(rows.receipts[request.receiptId], s, request.publishPublic, now)]);
        if !Holds(signed.requests[request.requestId], worker) then (rows, LostLease)
        else (signed.(requests := signed.requests[request.requestId := DeliveredRow(q, now)]), Finalized(true))
  }

  // ----- release -----

  function Power(n: nat): nat {
    if n == 0 then 1 else 2 * Power(n - 1)
  }

  function Min(a: int, b: int): int {
    if a < b then a else b
  }

  function RetryDelay(attempts: nat): int {
    Min(300, Power(if attempts < 8 then attempts else 8))
  }

  predicate ReleasePolicy(code: string, maxAttempts: int) {
    code != "" && |code| <= 100 && maxAttempts >= 1
  }

  function ReleasedRow(q: RequestRow, request: Request, code: string, maxAttempts: int, now: int): RequestRow {
    var terminal := request.attempts >= maxAttempts;
    q.(status := if terminal then DeadLettered else Pending, availableAt := now + RetryDelay(request.attempts),
       claimedBy := None, claimedUntil := None, lastError := Some(code),
       deadLetteredAt := if terminal then Some(now) else None)
  }

  datatype ReleaseOutcome = Invalid | Superseded | Released(terminal: bool) | LostTarget

  function Release(rows: Rows, request: Request, worker: string, code: string, maxAttempts: int, now: int): (Rows, ReleaseOutcome) {
    if !ReleasePolicy(code, maxAttempts) then (rows, Invalid)
    else if request.requestId !in rows.requests || !Holds(rows.requests[request.requestId], worker)
    then (rows, Superseded)
    else if request.receiptId !in rows.receipts || rows.receipts[request.receiptId].status == Signed
    then (rows, LostTarget)
    else
      (Rows(rows.requests[request.requestId := ReleasedRow(rows.requests[request.requestId], request, code, maxAttempts, now)],
            rows.receipts[request.receiptId := rows.receipts[request.receiptId].(status := Failed, failureCode := Some(code))]),
       Released(request.attempts >= maxAttempts))
  }

  // ----- the transactions -----

  class Outbox {
    var requests: map<Uuid, RequestRow>
    var receipts: map<Uuid, ReceiptRow>

    function View(): Rows
      reads this
    {
      Rows(requests, receipts)
    }

    constructor ()
      ensures View() == Rows(map[], map[])
    {
      requests, receipts := map[], map[];
    }

    /** The sub-select of the claim: the earliest claimable request. */
    method FindEarliest(now: int) returns (found: Option<Uuid>)
      ensures found.None? <==> forall id :: id in requests ==> !Claimable(requests[id], now)
      ensures found.Some? ==> IsEarliest(requests, now, found.value)
    {
      found := None;
      var rest := requests.Keys;
      while rest != {}
        invariant rest <= requests.Keys
        invariant found.None? ==> forall id :: id in requests && id !in rest ==> !Claimable(requests[id], now)
        invariant found.Some? ==>
                    && found.value in requests && found.value !in rest && Claimable(requests[found.value], now)
                    && forall id :: id in requests && id !in rest && Claimable(requests[id], now) && id != found.value
                                    ==> Before(requests, found.value, id)
        decreases |rest|
      {
        var id :| id in rest;
        rest := rest - {id};
        if Claimable(requests[id], now) && (found.None? || Before(requests, id, found.value)) {
          found := Some(id);
        }
      }
    }

    method ClaimNext(worker: string, lease: int, now: int) returns (outcome: ClaimOutcome)
      modifies this
      ensures Claims(old(View()), worker, lease, now, View(), outcome)
    {
      if !LeaseConfigured(worker, lease) {
        return Misconfigured;
      }
      var found := FindEarliest(now);
      if found.None? {
        return NothingClaimable;
      }
      var id, saved := found.value, requests;
      var q := Leased(requests[id], worker, lease, now);
      requests := requests[id := q];
      if !PendingReceipt(View(), q) {
        requests := saved;
        return LostReceipt;
      }
      var r := Reopened(receipts[q.receiptId]);
      receipts := receipts[q.receiptId := r];
      outcome := Claimed(RequestFor(id, q, r));
    }

    method FinalizeRequest(request: Request, worker: string, m: Manifest, s: Signature, now: int)
      returns (outcome: FinalizeOutcome)
      modifies this
      ensures (View(), outcome) == Finalize(old(View()), request, worker, m, s, now)
    {
      if !MatchesRequest(m, request, s) {
        return Mismatch;
      }
      if request.requestId !in requests || requests[request.requestId].receiptId != request.receiptId {
        return Finalized(false);
      }
      var locked := requests[request.requestId];
      if locked.status == Delivered {
        return Finalized(request.receiptId in receipts && receipts[request.receiptId].signature == Some(s));
      }
      if !Holds(locked, worker) {
        return Finalized(false);
      }
      if request.receiptId !in receipts || !Signable(receipts[request.receiptId], request) {
        return Finalized(false);
      }
      receipts := receipts[request.receiptId := SignedRow(receipts[request.receiptId], s, request.publishPublic, now)];
      // The row is locked, so the delivering update finds the lease the lock found.
      assert Holds(requests[request.requestId], worker);
      requests := requests[request.requestId := DeliveredRow(locked, now)];
      outcome := Finalized(true);
    }

    method ReleaseFailure(request: Request, worker: string, code: string, maxAttempts: int, now: int)
      returns (outcome: ReleaseOutcome)
      modifies this
      ensures (View(), outcome) == Release(old(View()), request, worker, code, maxAttempts, now)
    {
      if !ReleasePolicy(code, maxAttempts) {
        return Invalid;
      }
      if request.requestId !in requests || !Holds(requests[request.requestId], worker) {
        return Superseded;
      }
      var saved := requests;
      requests := requests[request.requestId := ReleasedRow(requests[request.requestId], request, code, maxAttempts, now)];
      if request.receiptId !in receipts || receipts[request.receiptId].status == Signed {
        requests := saved;
        return LostTarget;
      }
      receipts := receipts[request.receiptId := receipts[request.receiptId].(status := Failed, failureCode := Some(code))];
      outcome := Released(request.attempts >= maxAttempts);
    }
  }
}
