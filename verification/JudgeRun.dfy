/** One isolated judge run (api.py): every route's transaction body as an atomic step on the run's
    rows and ledger.  A refused step is rolled back.  The invariants of runs are in RunInvariants. */
module JudgeRun {
  import opened Common
  import opened Canonical
  import opened Workflow
  import opened Ledger
  import opened Coordinator
  import R = Receipts
  import G = Governance

  // ----- rows -----

  datatype Approval = Approval(approved: bool, proposalHash: Digest, actor: string)

  datatype Execution = Execution(proposalHash: Digest, idempotencyKey: string, digest: Digest)

  datatype Observation = Observation(proposalHash: Digest, executionDigest: Digest, digest: Digest)

  datatype Verdict = Verdict(observationDigest: Digest, digest: Digest)

  datatype Postcheck = Postcheck(observation: Observation, verdict: Verdict)

  datatype Assessment = Assessment(subject: string, classification: nat, rationale: string,
                                   observationDigest: Digest, digest: Digest)

  datatype Route = ProposalRoute | AssessmentRoute

  /** A completed idempotent request: the digest of its input and the epoch its reply names. */
  datatype Reply = Reply(requestDigest: Digest, epoch: nat)

  datatype ReceiptTarget = ReceiptTarget(sequence: nat, headHash: Digest)

  /** The reviewer's decision as submitted, with the epoch read and named by If-Match. */
  datatype Review = Review(
    subject: string, readEpoch: nat, ifMatch: Option<nat>, memoryDigest: Digest,
    decision: R.Disposition, reasonCode: G.ReasonCode, note: string)

  /** The reviewer's revocation as submitted. */
  datatype Revocation = Revocation(
    subject: string, readEpoch: nat, ifMatch: Option<nat>, memoryDigest: Digest, reasonCode: G.ReasonCode, note: string)

  /** The digests the routes write into events; RealDigests supplies them. */
  datatype Digests = Digests(
    execution: (Digest, Digest) -> Digest,
    observation: (Digest, Digest, Digest) -> Digest,
    outcome: (Digest, Digest, Digest, Digest) -> Digest,
    review: (R.Disposition, Digest, Digest) -> Digest,
    decision: Review -> Digest)

  /** What the allocator fixes for a run.  `hash` and `write` are the ledger's event hash and
      event constructor; MakeRun supplies the real ones. */
  datatype Run = Run(
    hash: Hasher,
    write: (seq<Event>, Snapshot, Snapshot, Entry, Uuid, int) -> Event,
    digests: Digests,
    binding: RunBinding,
    generation: nat,
    tenant: string,
    workflowId: Uuid,
    operatorSubject: string,
    agentSubject: string,
    actionHash: Option<Digest>,
    requiresApproval: bool,
    commandAllowed: bool)

  datatype Db = Db(
    workflow: Snapshot,
    events: seq<Event>,
    approval: Option<Approval>,
    execution: Option<Execution>,
    postcheck: Option<Postcheck>,
    assessment: Option<Assessment>,
    memory: Option<G.Memory>,
    receipt: Option<ReceiptTarget>,
    replies: map<(Route, string), Reply>,
    active: bool)

  function MakeRun(p: Primitives, binding: RunBinding, generation: nat, tenant: string, workflowId: Uuid,
                   operatorSubject: string, agentSubject: string, actionHash: Option<Digest>,
                   requiresApproval: bool, commandAllowed: bool): Run
  {
    Run(EventHasher(p),
        (events: seq<Event>, before: Snapshot, after: Snapshot, entry: Entry, id: Uuid, now: int) =>
          NextEvent(p, binding, events, before, after, entry, id, now),
        RealDigests(p, binding.runId, generation, workflowId),
        binding, generation, tenant, workflowId, operatorSubject, agentSubject, actionHash, requiresApproval, commandAllowed)
  }

  const OBSERVER := "recallops-observer"

  // ----- the binding digests the routes write -----

  function ExecutionBinding(p: Primitives, execution: Digest, proposal: Digest): Digest {
    ContentDigest(p, "recallops-execution-binding-v1", JObj(ExecutionBindingKeys, [JStr(execution), JStr(proposal)]))
  }

  function ObservationBinding(p: Primitives, execution: Digest, observation: Digest, verdict: Digest): Digest {
    ContentDigest(p, "recallops-observation-binding-v1",
                  JObj(ObservationBindingKeys, [JStr(execution), JStr(observation), JStr(verdict)]))
  }

  function OutcomeBinding(p: Primitives, assessment: Digest, memory: Digest, observation: Digest, verdict: Digest): Digest {
    ContentDigest(p, "recallops-outcome-binding-v1",
                  JObj(OutcomeBindingKeys, [JStr(assessment), JStr(memory), JStr(observation), JStr(verdict)]))
  }

  function ReviewBinding(p: Primitives, disposition: R.Disposition, memory: Digest, review: Digest): Digest {
    ContentDigest(p, "recallops-review-binding-v1",
                  JObj(ReviewBindingKeys,
                       [JStr(p.sha256(Ascii(R.DispositionName(disposition)))), JStr(memory), JStr(review)]))
  }

  function ReasonCodeName(c: G.ReasonCode): string {
    match c
    case EvidenceAccepted => "EVIDENCE_ACCEPTED"
    case NeedsInvestigation => "NEEDS_INVESTIGATION"
    case InvalidBinding => "INVALID_BINDING"
    case InsufficientEvidence => "INSUFFICIENT_EVIDENCE"
    case PolicyConflict => "POLICY_CONFLICT"
    case NewContradictoryEvidence => "NEW_CONTRADICTORY_EVIDENCE"
    case PolicyChange => "POLICY_CHANGE"
    case CompatibilityInvalidated => "COMPATIBILITY_INVALIDATED"
    case DataQuality => "DATA_QUALITY"
    case OtherBounded => "OTHER_BOUNDED"
  }

  function DecisionDigest(p: Primitives, runId: Uuid, generation: nat, workflowId: Uuid, v: Review): Digest {
    ContentDigest(p, "recallops-review-decision-v1",
                  JObj(ReviewDecisionKeys,
                       [JStr(R.DispositionName(v.decision)), JStr(Decimal(generation)), JStr(v.memoryDigest),
                        JStr(v.note), JStr(ReasonCodeName(v.reasonCode)), JStr(v.subject), JStr(p.uuidText(runId)), JStr(p.uuidText(workflowId))]))
  }

  function RealDigests(p: Primitives, runId: Uuid, generation: nat, workflowId: Uuid): Digests {
    Digests((execution, proposal) => ExecutionBinding(p, execution, proposal),
            (execution, observation, verdict) => ObservationBinding(p, execution, observation, verdict),
            (assessment, memory, observation, verdict) => OutcomeBinding(p, assessment, memory, observation, verdict),
            (disposition, memory, review) => ReviewBinding(p, disposition, memory, review),
            v => DecisionDigest(p, runId, generation, workflowId, v))
  }

  // ----- one workflow transition inside a transaction -----

  function Advance(run: Run, db: Db, epoch: nat, from: State, to: State, entry: Entry, id: Uuid, now: int): Result<Db> {
    var checked := ValidateTransition(Some(db.workflow), epoch, from, entry.channel, entry.actorSubject, entry.actorRole);
    if checked.Err? then Err(checked.reason)
    else
      var after := MovedBy(db.workflow, to, entry.actorRole, entry.actorSubject);
      Ok(db.(workflow := after, events := db.events + [run.write(db.events, db.workflow, after, entry, id, now)]))
  }

  function OperatorEntry(subject: string, reason: string, objectType: Option<string>, objectDigest: Option<Digest>): Entry {
    Entry(subject, Operator, Ui, reason, objectType, None, objectDigest)
  }

  function SystemEntry(reason: string, objectType: Option<string>, objectDigest: Option<Digest>): Entry {
    Entry(OBSERVER, SystemRole, SystemChannel, reason, objectType, None, objectDigest)
  }

  function AgentEntry(run: Run, reason: string, objectType: string, objectDigest: Digest): Entry {
    Entry(run.agentSubject, Agent, Webmcp, reason, Some(objectType), None, Some(objectDigest))
  }

  // ----- allocation -----

  /** allocate_run: the workflow row at epoch one and the genesis event, in one transaction. */
  function Allocate(run: Run, id: Uuid, now: int): Db {
    var row := Snapshot(run.workflowId, run.tenant, Investigating, 1, true, run.actionHash, None, None);
    Db(row, [run.write([], BeforeGenesis(row), row, GENESIS_ENTRY, id, now)],
       None, None, None, None, None, None, map[], true)
  }

  // ----- WebMCP routes behind idempotent_webmcp_mutation -----

  /** The request side of a WebMCP mutation: its key, the digest of its input, the epoch of the
      workflow it read, and the epoch its If-Match header names. */
  datatype Call = Call(key: string, digest: Digest, readEpoch: nat, ifMatch: Option<nat>)

  /** A completed key answers from its record, or refuses different input; a new key runs the
      operation and records its reply in the same transaction. */
  function Idempotent(db: Db, route: Route, call: Call, operation: Result<Db>): Result<Db> {
    if (route, call.key) in db.replies then
      if db.replies[(route, call.key)].requestDigest != call.digest
      then Err("idempotency key is bound to different input")
      else Ok(db)
    else if operation.Err? then operation
    else
      var done := operation.value;
      Ok(done.(replies := done.replies[(route, call.key) := Reply(call.digest, done.workflow.epoch)]))
  }

  function StageOperation(run: Run, db: Db, call: Call, id: Uuid, now: int): Result<Db>
    requires run.actionHash.Some?
  {
    if call.ifMatch != Some(call.readEpoch) then Err("stale workflow precondition")
    else Advance(run, db, call.readEpoch, Investigating, AwaitingOperatorApproval,
                 AgentEntry(run, "PROPOSAL_STAGED", "proposal", run.actionHash.value), id, now)
  }

  function Stage(run: Run, db: Db, call: Call, id: Uuid, now: int): Result<Db> {
    if run.actionHash.None? || !run.requiresApproval then Err("bounded proposal is unavailable")
    else Idempotent(db, ProposalRoute, call, StageOperation(run, db, call, id, now))
  }

  /** prepare_verified_outcome: the pending memory bound to one observation, verdict and assessment. */
  function PrepareOutcome(db: Db, post: Postcheck, assessment: Assessment, memory: G.Memory): Result<G.Memory> {
    if db.execution.None? then Err("sandbox execution required before postcheck assessment")
    else
      var x := db.execution.value;
      if post.observation.proposalHash != x.proposalHash || post.observation.executionDigest != x.digest
      then Err("observation is not bound to the sandbox execution")
      else if post.verdict.observationDigest != post.observation.digest
              || assessment.observationDigest != post.observation.digest
      then Err("assessment or verdict is not bound to the observation")
      else Ok(memory.(state := G.Pending, valid := false, observedBy := Some(assessment.subject),
                      observationDigest := Some(post.observation.digest),
                      assessmentDigest := Some(assessment.digest),
                      verdictDigest := Some(post.verdict.digest)))
  }

  /** record_postcheck_assessment: one assessment per incident. */
  function RecordAssessment(db: Db, a: Assessment): Result<Assessment> {
    if db.assessment.None? then Ok(a)
    else
      var stored := db.assessment.value;
      if stored.subject != a.subject || stored.classification != a.classification || stored.rationale != a.rationale
      then Err("observation already has a different assessment")
      else Ok(stored)
  }

  function AssessOperation(run: Run, db: Db, call: Call, a: Assessment, prepared: G.Memory, id: Uuid, now: int): Result<Db> {
    if call.ifMatch != Some(call.readEpoch) then Err("stale workflow precondition")
    else
      var recorded := RecordAssessment(db, a);
      if recorded.Err? then Err(recorded.reason)
      else
        var memory := if db.memory.Some? then db.memory.value else prepared;
        if memory.assessmentDigest.None? || memory.observationDigest.None? || memory.verdictDigest.None?
        then Err("outcome memory lacks evidence digests")
        else
          Advance(run, db.(assessment := Some(recorded.value), memory := Some(memory)), call.readEpoch,
                  PostcheckReady, PendingReview,
                  AgentEntry(run, "POSTCHECK_ASSESSMENT_RECORDED", "outcome_binding",
                             run.digests.outcome(memory.assessmentDigest.value, memory.memoryDigest,
                                            memory.observationDigest.value, memory.verdictDigest.value)),
                  id, now)
  }

  function Assess(run: Run, db: Db, call: Call, a: Assessment, memory: G.Memory, id: Uuid, now: int): Result<Db> {
    if db.postcheck.None? then Err("verified postcheck not found")
    else
      var assessment := a.(subject := run.agentSubject, observationDigest := db.postcheck.value.observation.digest);
      var prepared := PrepareOutcome(db, db.postcheck.value, assessment, memory);
      if prepared.Err? then Err(prepared.reason)
      else Idempotent(db, AssessmentRoute, call,
                      AssessOperation(run, db, call, assessment, prepared.value, id, now))
  }

  // ----- operator, system and reviewer routes -----

  /** decide_approval and record_approval: the one decision, on exactly the analysed action. */
  function DecideApproval(run: Run, db: Db, approved: bool, hash: Digest, actor: string): Result<Approval> {
    if !run.requiresApproval then Err("read-only action does not require approval")
    else if run.actionHash.None? then Err("analysis lacks a proposal digest")
    else if hash != run.actionHash.value then Err("approval does not match the proposed action")
    else if db.approval.Some? then Err("incident not found or already decided")
    else Ok(Approval(approved, hash, actor))
  }

  function Approve(run: Run, db: Db, subject: string, epoch: nat, approved: bool, hash: Digest, id: Uuid, now: int): Result<Db> {
    var checked := ValidateTransition(Some(db.workflow), epoch, AwaitingOperatorApproval, Ui, subject, Operator);
    if checked.Err? then Err(checked.reason)
    else
      var decided := DecideApproval(run, db, approved, hash, subject);
      if decided.Err? then Err(decided.reason)
      else
        Advance(run, db.(approval := Some(decided.value)), epoch, AwaitingOperatorApproval,
                if approved then ApprovedAwaitingExecution else Investigating,
                OperatorEntry(subject, if approved then "PROPOSAL_APPROVED" else "PROPOSAL_REJECTED",
                              Some("proposal"), Some(hash)), id, now)
  }

  /** record_sandbox_execution: the first execution stays; a different one is refused. */
  function RecordExecution(db: Db, x: Execution): Result<Execution> {
    if db.execution.None? then Ok(x)
    else if db.execution.value.proposalHash != x.proposalHash || db.execution.value.idempotencyKey != x.idempotencyKey
    then Err("incident already has a different sandbox execution")
    else Ok(db.execution.value)
  }

  function Execute(run: Run, db: Db, subject: string, epoch: nat, x: Execution, id: Uuid, now: int): Result<Db> {
    if run.actionHash != Some(x.proposalHash) then Err("sandbox request is not bound to the proposed action")
    else if !run.commandAllowed then Err("proposed action is not in the sandbox allowlist")
    else
      var checked := ValidateTransition(Some(db.workflow), epoch, ApprovedAwaitingExecution, Ui, subject, Operator);
      if checked.Err? then Err(checked.reason)
      else if db.workflow.proposalHash != Some(x.proposalHash) || db.approval.None?
              || !db.approval.value.approved || db.approval.value.proposalHash != x.proposalHash
      then Err("approval is not bound to this proposal")
      else
        var recorded := RecordExecution(db, x);
        if recorded.Err? then Err(recorded.reason)
        else
          Advance(run, db.(execution := Some(recorded.value)), epoch, ApprovedAwaitingExecution, ObservingPostcheck,
                  OperatorEntry(subject, "SANDBOX_EXECUTION_APPLIED", Some("execution_binding"),
                                Some(run.digests.execution(recorded.value.digest, recorded.value.proposalHash))), id, now)
  }

  /** mark_unavailable and retry_unavailable. */
  function MarkUnavailable(run: Run, db: Db, epoch: nat, id: Uuid, now: int): Result<Db> {
    Advance(run, db, epoch, ObservingPostcheck, PostcheckUnavailable,
            SystemEntry("STATE_TRANSITION_ACCEPTED", None, None), id, now)
  }

  function StartRetry(run: Run, db: Db, subject: string, epoch: nat, id: Uuid, now: int): Result<Db> {
    var checked := ValidateTransition(Some(db.workflow), epoch, PostcheckUnavailable, Ui, subject, Operator);
    if checked.Err? then Err(checked.reason)
    else if db.execution.None? then Err("sandbox execution not found")
    else Advance(run, db, epoch, PostcheckUnavailable, ObservingPostcheck,
                 OperatorEntry(subject, "STATE_TRANSITION_ACCEPTED", None, None), id, now)
  }

  /** record_postcheck: the first observation stays; a different one, or an unbound verdict, is refused. */
  function RecordPostcheck(db: Db, post: Postcheck): Result<Postcheck> {
    if db.postcheck.Some? then
      if db.postcheck.value.observation.digest != post.observation.digest
      then Err("incident already has a different postcheck")
      else Ok(db.postcheck.value)
    else if post.verdict.observationDigest != post.observation.digest
    then Err("policy verdict is not bound to the observation")
    else Ok(post)
  }

  /** The provider copies the execution it observed, and the policy binds its verdict to the
      observation; only the two digests are outside the model. */
  function Collect(x: Execution, digest: Digest, verdict: Digest): Postcheck {
    Postcheck(Observation(x.proposalHash, x.digest, digest), Verdict(digest, verdict))
  }

  /** record_observation_atomically and complete_retry_atomically. */
  function Observe(run: Run, db: Db, epoch: nat, digest: Digest, verdict: Digest, id: Uuid, now: int): Result<Db> {
    if db.execution.None? then Err("sandbox execution not found")
    else
      var checked := ValidateTransition(Some(db.workflow), epoch, ObservingPostcheck, SystemChannel, OBSERVER, SystemRole);
      if checked.Err? then Err(checked.reason)
      else
        var recorded := RecordPostcheck(db, Collect(db.execution.value, digest, verdict));
        if recorded.Err? then Err(recorded.reason)
        else
          var o := recorded.value.observation;
          Advance(run, db.(postcheck := Some(recorded.value)), epoch, ObservingPostcheck, PostcheckReady,
                  SystemEntry("VERIFIED_OBSERVATION_RECORDED", Some("observation_binding"),
                              Some(run.digests.observation(o.executionDigest, o.digest, recorded.value.verdict.digest))), id, now)
  }

  function GovernanceAction(d: R.Disposition): G.Action {
    match d
    case Certify => G.Certify
    case Quarantine => G.Quarantine
    case Reject => G.Reject
  }

  function ReasonFor(d: R.Disposition): string {
    match d
    case Certify => "MEMORY_CERTIFY"
    case Quarantine => "MEMORY_QUARANTINE"
    case Reject => "MEMORY_REJECT"
  }

  /** `note.strip() or reason_code`. */
  function ReasonText(note: string, code: G.ReasonCode): string {
    if G.IsBlank(note) then ReasonCodeName(code) else note
  }

  function ReviewEntry(run: Run, v: Review): Entry {
    Entry(v.subject, Reviewer, Ui, ReasonFor(v.decision), Some("review_binding"), Some(run.digests.decision(v)),
          Some(run.digests.review(v.decision, v.memoryDigest, run.digests.decision(v))))
  }

  /** disposition_atomically, behind the reviewer's scope checks: govern the pending memory, move
      the workflow to REVIEWED, and request a receipt for the new ledger head. */
  function Dispose(run: Run, db: Db, v: Review, id: Uuid, now: int): Result<Db> {
    if v.ifMatch != Some(v.readEpoch) then Err("stale workflow precondition")
    else if db.memory.None? || db.memory.value.memoryDigest != v.memoryDigest
            || db.memory.value.state != G.Pending
    then Err("review target is stale or unavailable")
    else if v.subject == run.operatorSubject || Some(v.subject) == db.memory.value.observedBy
    then Err("independent reviewer required")
    else
      var checked := ValidateTransition(Some(db.workflow), v.readEpoch, PendingReview, Ui, v.subject, Reviewer);
      if checked.Err? then Err(checked.reason)
      else
        var m := db.memory.value;
        var request := G.Request(run.tenant, v.subject, GovernanceAction(v.decision), ReasonText(v.note, v.reasonCode), v.reasonCode, None);
        var target := G.GovernanceTarget(m, request, [m], now);
        if target.Err? then Err(target.reason)
        else
          var moved := Advance(run, db.(memory := Some(G.Governed(m, request, target.value, now))), v.readEpoch,
                               PendingReview, Reviewed, ReviewEntry(run, v), id, now);
          if moved.Err? then moved
          else RequestReceipt(moved.value)
  }

  /** request_receipt: only the last event of a reviewed workflow can be a receipt's target. */
  function RequestReceipt(db: Db): Result<Db> {
    if db.events == [] then Err("receipt target event is unavailable")
    else
      var head := db.events[|db.events| - 1];
      if head.stateAfter != "REVIEWED" then Err("receipt target is not the finalized ledger head")
      else Ok(db.(receipt := Some(ReceiptTarget(head.sequence, head.eventHash))))
  }

  function RevocationRequest(run: Run, v: Revocation): G.Request {
    G.Request(run.tenant, v.subject, G.Revoke, ReasonText(v.note, v.reasonCode), v.reasonCode, None)
  }

  /** revoke_atomically: a reviewed memory loses its authority.  No transition, no event. */
  function Revoke(run: Run, db: Db, v: Revocation, now: int): Result<Db> {
    if db.memory.None? then Err("review evidence not found")
    else
      var m := db.memory.value;
      if v.subject == run.operatorSubject || Some(v.subject) == m.observedBy then Err("independent reviewer required")
      else if v.ifMatch != Some(v.readEpoch) then Err("stale workflow precondition")
      else if !db.workflow.active || db.workflow.state != Reviewed || db.workflow.epoch != v.readEpoch
      then Err("stale workflow state or epoch")
      else if m.memoryDigest != v.memoryDigest || m.state != G.Active || !m.valid
              || (m.expiresAt.Some? && m.expiresAt.value <= now)
      then Err("revocation target is stale or unavailable")
      else
        var target := G.GovernanceTarget(m, RevocationRequest(run, v), [m], now);
        if target.Err? then Err(target.reason)
        else Ok(db.(memory := Some(G.Governed(m, RevocationRequest(run, v), target.value, now))))
  }

  /** reset_atomically: end the run and invalidate its workflow together. */
  function Reset(run: Run, db: Db, subject: string, epoch: nat, id: Uuid, now: int): Result<Db> {
    if !db.active then Err("judge run reset already resolved")
    else
      var invalidated := InvalidateRow(Some(db.workflow), epoch);
      if invalidated.Err? then Err(invalidated.reason)
      else
        var entry := Entry(subject, Operator, Ui, "WORKFLOW_RESET_ACCEPTED");
        Ok(db.(active := false, workflow := invalidated.value,
               events := db.events + [run.write(db.events, db.workflow, invalidated.value, entry, id, now)]))
  }

  // ----- steps and runs -----

  datatype Step =
    | StageStep(call: Call)
    | ApproveStep(subject: string, epoch: nat, approved: bool, hash: Digest)
    | ExecuteStep(subject: string, epoch: nat, execution: Execution)
    | UnavailableStep(epoch: nat)
    | RetryStep(subject: string, epoch: nat)
    | ObserveStep(epoch: nat, digest: Digest, verdict: Digest)
    | AssessStep(call: Call, assessment: Assessment, memory: G.Memory)
    | DisposeStep(review: Review)
    | RevokeStep(revocation: Revocation)
    | ResetStep(subject: string, epoch: nat)

  /** A request together with the id and time its transaction would use. */
  datatype Timed = Timed(step: Step, id: Uuid, now: int)

  function Transact(run: Run, db: Db, t: Timed): Result<Db> {
    match t.step
    case StageStep(call) => Stage(run, db, call, t.id, t.now)
    case ApproveStep(subject, epoch, approved, hash) => Approve(run, db, subject, epoch, approved, hash, t.id, t.now)
    case ExecuteStep(subject, epoch, x) => Execute(run, db, subject, epoch, x, t.id, t.now)
    case UnavailableStep(epoch) => MarkUnavailable(run, db, epoch, t.id, t.now)
    case RetryStep(subject, epoch) => StartRetry(run, db, subject, epoch, t.id, t.now)
    case ObserveStep(epoch, digest, verdict) => Observe(run, db, epoch, digest, verdict, t.id, t.now)
    case AssessStep(call, a, m) => Assess(run, db, call, a, m, t.id, t.now)
    case DisposeStep(v) => Dispose(run, db, v, t.id, t.now)
    case RevokeStep(v) => Revoke(run, db, v, t.now)
    case ResetStep(subject, epoch) => Reset(run, db, subject, epoch, t.id, t.now)
  }

  /** A refused or aborted transaction restores the old rows. */
  function After(run: Run, db: Db, t: Timed): Db {
    var r := Transact(run, db, t);
    if r.Ok? then r.value else db
  }

  function AfterAll(run: Run, db: Db, ts: seq<Timed>): Db
    decreases |ts|
  {
    if ts == [] then db else After(run, AfterAll(run, db, ts[..|ts| - 1]), ts[|ts| - 1])
  }
}
