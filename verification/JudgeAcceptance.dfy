/** Which requests a judge run accepts (api.py), stated on the rows and the request and not in the order
    the routes check it, and what each accepted one leaves behind. */
module JudgeAcceptance {
  import opened Common
  import opened Canonical
  import opened Workflow
  import opened Coordinator
  import opened JudgeRun
  import opened RunInvariants
  import R = Receipts
  import G = Governance

  /** The workflow is live at the epoch and state a request names. */
  predicate StandsAt(db: Db, epoch: nat, state: State) {
    db.workflow.active && db.workflow.epoch == epoch && db.workflow.state == state
  }

  /** A WebMCP request names the epoch it read. */
  predicate Current(call: Call) {
    call.ifMatch == Some(call.readEpoch)
  }

  /** The evidence rows form one chain from the execution to the verdict. */
  predicate EvidenceBound(db: Db) {
    && db.execution.Some? && db.postcheck.Some?
    && var x, o, v := db.execution.value, db.postcheck.value.observation, db.postcheck.value.verdict;
    && o.proposalHash == x.proposalHash && o.executionDigest == x.digest && v.observationDigest == o.digest
  }

  predicate Evidenced(m: G.Memory) {
    m.assessmentDigest.Some? && m.observationDigest.Some? && m.verdictDigest.Some?
  }

  predicate SameAssessment(a: Assessment, subject: string, b: Assessment) {
    a.subject == subject && a.classification == b.classification && a.rationale == b.rationale
  }

  predicate StageAccepted(run: Run, db: Db, call: Call) {
    && run.actionHash.Some? && run.requiresApproval
    && if (ProposalRoute, call.key) in db.replies then db.replies[(ProposalRoute, call.key)].requestDigest == call.digest
       else Current(call) && StandsAt(db, call.readEpoch, Investigating)
  }

  predicate AssessAccepted(run: Run, db: Db, call: Call, a: Assessment) {
    && EvidenceBound(db)
    && if (AssessmentRoute, call.key) in db.replies then db.replies[(AssessmentRoute, call.key)].requestDigest == call.digest
       else
         && Current(call) && StandsAt(db, call.readEpoch, PostcheckReady)
         && (db.assessment.Some? ==> SameAssessment(db.assessment.value, run.agentSubject, a))
         && (db.memory.Some? ==> Evidenced(db.memory.value))
  }

  predicate ApproveAccepted(run: Run, db: Db, epoch: nat, hash: Digest) {
    run.requiresApproval && run.actionHash == Some(hash) && db.approval.None? && StandsAt(db, epoch, AwaitingOperatorApproval)
  }

  predicate ExecuteAccepted(run: Run, db: Db, epoch: nat, x: Execution) {
    && run.commandAllowed && run.actionHash == Some(x.proposalHash) && db.workflow.proposalHash == Some(x.proposalHash)
    && db.approval.Some? && db.approval.value.approved && db.approval.value.proposalHash == x.proposalHash
    && StandsAt(db, epoch, ApprovedAwaitingExecution)
    && (db.execution.Some? ==>
          db.execution.value.proposalHash == x.proposalHash && db.execution.value.idempotencyKey == x.idempotencyKey)
  }

  predicate ObserveAccepted(db: Db, epoch: nat, digest: Digest) {
    && db.execution.Some? && StandsAt(db, epoch, ObservingPostcheck)
    && (db.postcheck.Some? ==> db.postcheck.value.observation.digest == digest)
  }

  predicate DisposeAccepted(run: Run, db: Db, v: Review) {
    && v.ifMatch == Some(v.readEpoch) && StandsAt(db, v.readEpoch, PendingReview)
    && db.memory.Some? && db.memory.value.memoryDigest == v.memoryDigest && db.memory.value.state == G.Pending
    && v.subject != run.operatorSubject && Some(v.subject) != db.workflow.operatorSubject
    && Some(v.subject) != db.memory.value.observedBy
    && (v.decision == R.Certify ==> db.memory.value.outcomeScore != 0.0 && v.reasonCode == G.EvidenceAccepted)
  }

  predicate RevokeAccepted(run: Run, db: Db, v: Revocation, now: int) {
    && v.ifMatch == Some(v.readEpoch) && StandsAt(db, v.readEpoch, Reviewed)
    && db.memory.Some? && db.memory.value.memoryDigest == v.memoryDigest
    && db.memory.value.state == G.Active && db.memory.value.valid
    && (db.memory.value.expiresAt.Some? ==> now < db.memory.value.expiresAt.value)
    && v.subject != run.operatorSubject && Some(v.subject) != db.memory.value.observedBy
    && !G.ReviewReason(v.reasonCode)
  }

  predicate Acceptable(run: Run, db: Db, t: Timed) {
    match t.step
    case StageStep(call) => StageAccepted(run, db, call)
    case ApproveStep(_, epoch, _, hash) => ApproveAccepted(run, db, epoch, hash)
    case ExecuteStep(_, epoch, x) => ExecuteAccepted(run, db, epoch, x)
    case UnavailableStep(epoch) => StandsAt(db, epoch, ObservingPostcheck)
    case RetryStep(_, epoch) => StandsAt(db, epoch, PostcheckUnavailable) && db.execution.Some?
    case ObserveStep(epoch, digest, _) => ObserveAccepted(db, epoch, digest)
    case AssessStep(call, a, _) => AssessAccepted(run, db, call, a)
    case DisposeStep(v) => DisposeAccepted(run, db, v)
    case RevokeStep(v) => RevokeAccepted(run, db, v, t.now)
    case ResetStep(_, epoch) => db.active && db.workflow.active && db.workflow.epoch == epoch
  }

  lemma StageExactly(run: Run, db: Db, t: Timed)
    requires t.step.StageStep?
    ensures Transact(run, db, t).Ok? <==> StageAccepted(run, db, t.step.call)
  {
  }

  lemma OperationExactly(run: Run, db: Db, call: Call, a: Assessment, prepared: G.Memory, id: Uuid, now: int)
    requires Evidenced(prepared) && a.subject == run.agentSubject
    ensures AssessOperation(run, db, call, a, prepared, id, now).Ok?
            <==> Current(call) && StandsAt(db, call.readEpoch, PostcheckReady)
                 && (db.assessment.Some? ==> SameAssessment(db.assessment.value, run.agentSubject, a))
                 && (db.memory.Some? ==> Evidenced(db.memory.value))
  {
  }

  lemma PreparedExactly(db: Db, post: Postcheck, a: Assessment, m: G.Memory)
    requires db.postcheck == Some(post) && a.observationDigest == post.observation.digest
    ensures var prepared := PrepareOutcome(db, post, a, m);
            (prepared.Ok? <==> EvidenceBound(db)) && (prepared.Ok? ==> Evidenced(prepared.value))
  {
  }

  lemma AssessExactly(run: Run, db: Db, t: Timed)
    requires t.step.AssessStep?
    ensures Transact(run, db, t).Ok? <==> AssessAccepted(run, db, t.step.call, t.step.assessment)
  {
    if db.postcheck.Some? {
      var a := t.step.assessment.(subject := run.agentSubject, observationDigest := db.postcheck.value.observation.digest);
      var prepared := PrepareOutcome(db, db.postcheck.value, a, t.step.memory);
      PreparedExactly(db, db.postcheck.value, a, t.step.memory);
      if prepared.Ok? {
        OperationExactly(run, db, t.step.call, a, prepared.value, t.id, t.now);
      }
    }
  }

  lemma OperatorExactly(run: Run, db: Db, t: Timed)
    requires t.step.ApproveStep? || t.step.ExecuteStep? || t.step.RetryStep? || t.step.ResetStep?
    ensures Transact(run, db, t).Ok? <==> Acceptable(run, db, t)
  {
  }

  lemma SystemExactly(run: Run, db: Db, t: Timed)
    requires t.step.UnavailableStep? || t.step.ObserveStep?
    ensures Transact(run, db, t).Ok? <==> Acceptable(run, db, t)
  {
  }

  /** A note that is blank is replaced by the reason's name, which is not. */
  lemma ReasonIsNeverBlank(note: string, code: G.ReasonCode)
    ensures !G.IsBlank(ReasonText(note, code))
  {
    var name := ReasonCodeName(code);
    assert !G.IsSpace(name[0]) && name[0] in name;
  }

  lemma ReviewIsGranted(m: G.Memory, request: G.Request, now: int)
    requires request.replacement.None? && !G.IsBlank(request.reason)
    requires request.action in {G.Certify, G.Quarantine, G.Reject, G.Revoke}
    ensures G.GovernanceTarget(m, request, [m], now).Ok? <==>
            && G.MayFollow(m.state, G.TargetOf(request.action))
            && (request.action == G.Certify ==>
                  m.outcomeScore != 0.0 && request.reasonCode == G.EvidenceAccepted && m.observedBy != Some(request.actor))
            && (request.action == G.Revoke ==> !G.ReviewReason(request.reasonCode))
  {
    G.GrantedExactly(m, request, [m], now);
    assert exists c :: c in request.reason && !G.IsSpace(c);
  }

  lemma ReviewMoves(run: Run, mid: Db, v: Review, id: Uuid, now: int)
    requires Faithful(run) && StandsAt(mid, v.readEpoch, PendingReview) && Some(v.subject) != mid.workflow.operatorSubject
    ensures var moved := Advance(run, mid, v.readEpoch, PendingReview, Reviewed, ReviewEntry(run, v), id, now);
            moved.Ok? && RequestReceipt(moved.value).Ok?
  {
    var after := MovedBy(mid.workflow, Reviewed, Reviewer, v.subject);
    var e := run.write(mid.events, mid.workflow, after, ReviewEntry(run, v), id, now);
    assert Records(run, mid.events, mid.workflow, after, ReviewEntry(run, v), now, e);
    assert (mid.events + [e])[|mid.events|] == e;
  }

  function DispositionRequest(run: Run, v: Review): G.Request {
    G.Request(run.tenant, v.subject, GovernanceAction(v.decision), ReasonText(v.note, v.reasonCode), v.reasonCode, None)
  }

  lemma DispositionIsGranted(run: Run, m: G.Memory, v: Review, now: int)
    requires m.state == G.Pending && Some(v.subject) != m.observedBy
    ensures G.GovernanceTarget(m, DispositionRequest(run, v), [m], now).Ok?
            <==> (v.decision == R.Certify ==> m.outcomeScore != 0.0 && v.reasonCode == G.EvidenceAccepted)
  {
    ReasonIsNeverBlank(v.note, v.reasonCode);
    ReviewIsGranted(m, DispositionRequest(run, v), now);
  }

  lemma DisposeNeeds(run: Run, db: Db, t: Timed)
    requires t.step.DisposeStep? && Transact(run, db, t).Ok?
    ensures DisposeAccepted(run, db, t.step.review)
  {
    DispositionIsGranted(run, db.memory.value, t.step.review, t.now);
  }

  lemma ReviewerMayMove(db: Db, v: Review)
    requires StandsAt(db, v.readEpoch, PendingReview) && Some(v.subject) != db.workflow.operatorSubject
    ensures ValidateTransition(Some(db.workflow), v.readEpoch, PendingReview, Ui, v.subject, Reviewer).Ok?
  {
  }

  lemma DisposeSucceeds(run: Run, db: Db, v: Review, id: Uuid, now: int)
    requires Faithful(run) && DisposeAccepted(run, db, v)
    ensures Dispose(run, db, v, id, now).Ok?
  {
    var m, request := db.memory.value, DispositionRequest(run, v);
    DispositionIsGranted(run, m, v, now);
    ReviewerMayMove(db, v);
    var target := G.GovernanceTarget(m, request, [m], now).value;
    ReviewMoves(run, db.(memory := Some(G.Governed(m, request, target, now))), v, id, now);
  }

  lemma DisposeTransacts(run: Run, db: Db, v: Review, id: Uuid, now: int)
    ensures Transact(run, db, Timed(DisposeStep(v), id, now)) == Dispose(run, db, v, id, now)
  {
  }

  lemma DisposeSuffices(run: Run, db: Db, t: Timed)
    requires Faithful(run) && t.step.DisposeStep? && DisposeAccepted(run, db, t.step.review)
    ensures Transact(run, db, t).Ok?
  {
    DisposeSucceeds(run, db, t.step.review, t.id, t.now);
    DisposeTransacts(run, db, t.step.review, t.id, t.now);
    assert t == Timed(DisposeStep(t.step.review), t.id, t.now);
  }

  lemma DisposeExactly(run: Run, db: Db, t: Timed)
    requires Faithful(run) && t.step.DisposeStep?
    ensures Transact(run, db, t).Ok? <==> DisposeAccepted(run, db, t.step.review)
  {
    if Transact(run, db, t).Ok? {
      DisposeNeeds(run, db, t);
    }
    if DisposeAccepted(run, db, t.step.review) {
      DisposeSuffices(run, db, t);
    }
  }

  lemma RevokeExactly(run: Run, db: Db, t: Timed)
    requires t.step.RevokeStep?
    ensures Transact(run, db, t).Ok? <==> RevokeAccepted(run, db, t.step.revocation, t.now)
  {
    var v := t.step.revocation;
    ReasonIsNeverBlank(v.note, v.reasonCode);
    if db.memory.Some? {
      ReviewIsGranted(db.memory.value, RevocationRequest(run, v), t.now);
    }
  }

  /** A request is accepted exactly when the rows and the request meet these conditions, and a refused
      one changes nothing. */
  lemma AcceptedExactly(run: Run, db: Db, t: Timed)
    requires Faithful(run)
    ensures Transact(run, db, t).Ok? <==> Acceptable(run, db, t)
    ensures !Acceptable(run, db, t) ==> After(run, db, t) == db
  {
    match t.step
    case StageStep(_) => StageExactly(run, db, t);
    case AssessStep(_, _, _) => AssessExactly(run, db, t);
    case DisposeStep(_) => DisposeExactly(run, db, t);
    case RevokeStep(_) => RevokeExactly(run, db, t);
    case ApproveStep(_, _, _, _) => OperatorExactly(run, db, t);
    case ExecuteStep(_, _, _) => OperatorExactly(run, db, t);
    case RetryStep(_, _) => OperatorExactly(run, db, t);
    case ResetStep(_, _) => OperatorExactly(run, db, t);
    case UnavailableStep(_) => SystemExactly(run, db, t);
    case ObserveStep(_, _, _) => SystemExactly(run, db, t);
  }

  // ----- what an accepted request leaves -----

  /** The workflow one epoch on, at a new state, with one more event, and nothing else changed. */
  ghost predicate MovesTo(db: Db, db': Db, to: State, operator: Option<string>, reviewer: Option<string>) {
    && |db'.events| == |db.events| + 1 && db.events <= db'.events
    && db'.workflow == db.workflow.(state := to, epoch := db.workflow.epoch + 1,
                                    operatorSubject := OrElse(operator, db.workflow.operatorSubject),
                                    reviewerSubject := OrElse(reviewer, db.workflow.reviewerSubject))
  }

  /** The rows of db' are those of db but for the workflow, its events and what is named. */
  ghost predicate WithRows(db: Db, db': Db, approval: Option<Approval>, execution: Option<Execution>, postcheck: Option<Postcheck>) {
    db' == db.(workflow := db'.workflow, events := db'.events, approval := approval, execution := execution, postcheck := postcheck)
  }

  /** A record of the request's input and the epoch it reached stands under its key. */
  predicate Answered(db: Db, db': Db, route: Route, call: Call) {
    db'.replies == db.replies[(route, call.key) := Reply(call.digest, db.workflow.epoch + 1)]
  }

  ghost predicate OperatorLeaves(run: Run, db: Db, db': Db, step: Step)
    requires step.ApproveStep? || step.ExecuteStep? || step.RetryStep? || step.ResetStep?
  {
    match step
    case ApproveStep(subject, _, approved, hash) =>
      && MovesTo(db, db', if approved then ApprovedAwaitingExecution else Investigating, Some(subject), None)
      && WithRows(db, db', Some(Approval(approved, hash, subject)), db.execution, db.postcheck)
    case ExecuteStep(subject, _, x) =>
      && MovesTo(db, db', ObservingPostcheck, Some(subject), None)
      && WithRows(db, db', db.approval, if db.execution.Some? then db.execution else Some(x), db.postcheck)
    case RetryStep(subject, _) =>
      MovesTo(db, db', ObservingPostcheck, Some(subject), None) && WithRows(db, db', db.approval, db.execution, db.postcheck)
    case ResetStep(_, _) =>
      && |db'.events| == |db.events| + 1 && db.events <= db'.events
      && db' == db.(active := false, workflow := db.workflow.(active := false, epoch := db.workflow.epoch + 1), events := db'.events)
  }

  lemma ApproveLeavesExactly(run: Run, db: Db, t: Timed)
    requires t.step.ApproveStep? && Transact(run, db, t).Ok?
    ensures OperatorLeaves(run, db, Transact(run, db, t).value, t.step)
  {
  }

  lemma ExecuteLeavesExactly(run: Run, db: Db, t: Timed)
    requires t.step.ExecuteStep? && Transact(run, db, t).Ok?
    ensures OperatorLeaves(run, db, Transact(run, db, t).value, t.step)
  {
  }

  lemma OperatorLeavesExactly(run: Run, db: Db, t: Timed)
    requires t.step.ApproveStep? || t.step.ExecuteStep? || t.step.RetryStep? || t.step.ResetStep?
    requires Transact(run, db, t).Ok?
    ensures OperatorLeaves(run, db, Transact(run, db, t).value, t.step)
  {
    if t.step.ApproveStep? {
      ApproveLeavesExactly(run, db, t);
    } else if t.step.ExecuteStep? {
      ExecuteLeavesExactly(run, db, t);
    }
  }

  lemma SystemLeavesExactly(run: Run, db: Db, t: Timed)
    requires (t.step.UnavailableStep? || t.step.ObserveStep?) && Transact(run, db, t).Ok?
    ensures var db' := Transact(run, db, t).value;
            && MovesTo(db, db', if t.step.ObserveStep? then PostcheckReady else PostcheckUnavailable, None, None)
            && WithRows(db, db', db.approval, db.execution,
                        if t.step.UnavailableStep? || db.postcheck.Some? then db.postcheck
                        else Some(Postcheck(Observation(db.execution.value.proposalHash, db.execution.value.digest, t.step.digest),
                                            Verdict(t.step.digest, t.step.verdict))))
  {
  }

  lemma StageLeavesExactly(run: Run, db: Db, t: Timed)
    requires t.step.StageStep? && Transact(run, db, t).Ok? && (ProposalRoute, t.step.call.key) !in db.replies
    ensures var db' := Transact(run, db, t).value;
            && MovesTo(db, db', AwaitingOperatorApproval, None, None) && Answered(db, db', ProposalRoute, t.step.call)
            && WithRows(db.(replies := db'.replies), db', db.approval, db.execution, db.postcheck)
  {
  }

  /** The pending memory that an assessment prepares: bound to the observation, verdict and assessment, not
      yet an authority, observed by the agent. */
  function Prepared(run: Run, db: Db, a: Assessment, m: G.Memory): G.Memory
    requires db.postcheck.Some?
  {
    m.(state := G.Pending, valid := false, observedBy := Some(run.agentSubject),
       observationDigest := Some(db.postcheck.value.observation.digest), assessmentDigest := Some(a.digest),
       verdictDigest := Some(db.postcheck.value.verdict.digest))
  }

  lemma AssessLeavesExactly(run: Run, db: Db, t: Timed)
    requires t.step.AssessStep? && Transact(run, db, t).Ok? && (AssessmentRoute, t.step.call.key) !in db.replies
    ensures var db', a := Transact(run, db, t).value, t.step.assessment;
            && db.postcheck.Some?
            && MovesTo(db, db', PendingReview, None, None) && Answered(db, db', AssessmentRoute, t.step.call)
            && WithRows(db.(replies := db'.replies, assessment := db'.assessment, memory := db'.memory), db',
                        db.approval, db.execution, db.postcheck)
            && db'.assessment == (if db.assessment.Some? then db.assessment
                                  else Some(a.(subject := run.agentSubject, observationDigest := db.postcheck.value.observation.digest)))
            && db'.memory == (if db.memory.Some? then db.memory else Some(Prepared(run, db, a, t.step.memory)))
  {
  }

  /** A reviewed memory: decided by the reviewer now, an authority exactly when certified. */
  predicate ReviewedAs(m: G.Memory, m': G.Memory, subject: string, state: G.MemoryState, now: int) {
    m' == m.(state := state, valid := state == G.Active, reviewedBy := Some(subject), reviewedAt := Some(now),
             supersededBy := None, governanceVersion := m.governanceVersion + 1,
             revokedAt := if state == G.Revoked then Some(now) else m.revokedAt)
  }

  function Decided(d: R.Disposition): G.MemoryState {
    match d
    case Certify => G.Active
    case Quarantine => G.Quarantined
    case Reject => G.Rejected
  }

  lemma GovernedAsReviewed(m: G.Memory, request: G.Request, memories: seq<G.Memory>, now: int)
    requires G.GovernanceTarget(m, request, memories, now).Ok? && request.replacement.None?
    requires request.action in {G.Certify, G.Quarantine, G.Reject, G.Revoke}
    ensures ReviewedAs(m, G.Governed(m, request, G.TargetOf(request.action), now), request.actor, G.TargetOf(request.action), now)
  {
  }

  lemma DisposeLeaves(run: Run, db: Db, v: Review, id: Uuid, now: int)
    requires Dispose(run, db, v, id, now).Ok?
    ensures var db' := Dispose(run, db, v, id, now).value;
            && MovesTo(db, db', Reviewed, None, Some(v.subject))
            && WithRows(db.(memory := db'.memory, receipt := db'.receipt), db', db.approval, db.execution, db.postcheck)
            && db.memory.Some? && db'.memory.Some?
            && ReviewedAs(db.memory.value, db'.memory.value, v.subject, Decided(v.decision), now)
            && var head := db'.events[|db'.events| - 1];
               db'.receipt == Some(ReceiptTarget(head.sequence, head.eventHash))
  {
    GovernedAsReviewed(db.memory.value, DispositionRequest(run, v), [db.memory.value], now);
  }

  lemma DisposeLeavesExactly(run: Run, db: Db, t: Timed)
    requires t.step.DisposeStep? && Transact(run, db, t).Ok?
    ensures var db', v := Transact(run, db, t).value, t.step.review;
            && MovesTo(db, db', Reviewed, None, Some(v.subject))
            && WithRows(db.(memory := db'.memory, receipt := db'.receipt), db', db.approval, db.execution, db.postcheck)
            && db.memory.Some? && db'.memory.Some?
            && ReviewedAs(db.memory.value, db'.memory.value, v.subject, Decided(v.decision), t.now)
            && var head := db'.events[|db'.events| - 1];
               db'.receipt == Some(ReceiptTarget(head.sequence, head.eventHash))
  {
    assert t == Timed(DisposeStep(t.step.review), t.id, t.now);
    DisposeTransacts(run, db, t.step.review, t.id, t.now);
    DisposeLeaves(run, db, t.step.review, t.id, t.now);
  }

  lemma RevokeLeavesExactly(run: Run, db: Db, t: Timed)
    requires t.step.RevokeStep? && Transact(run, db, t).Ok?
    ensures var db', v := Transact(run, db, t).value, t.step.revocation;
            && db.memory.Some? && db'.memory.Some? && db' == db.(memory := db'.memory)
            && ReviewedAs(db.memory.value, db'.memory.value, v.subject, G.Revoked, t.now)
  {
  }
}
