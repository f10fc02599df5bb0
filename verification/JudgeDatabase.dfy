/** The transaction bodies of api.py as they run: rows are written one after another, and a body
    that fails after a write restores what its transaction found.  A body whose transition repeats a
    check it already passed cannot fail there, so it needs no restoring.  Each body is proved against its
    step function in JudgeRun. */
module JudgeDatabase {
  import opened Common
  import opened Canonical
  import opened Workflow
  import opened Ledger
  import opened Coordinator
  import opened JudgeRun
  import R = Receipts
  import G = Governance

  /** A body ends as its step function says: committed, or rolled back with that error. */
  predicate Settles(r: Result<Db>, before: Db, after: Db, error: Option<string>) {
    match r
    case Ok(value) => error.None? && after == value
    case Err(reason) => error == Some(reason) && after == before
  }

  class RunRows {
    const run: Run
    var workflow: Snapshot
    var events: seq<Event>
    var approval: Option<Approval>
    var execution: Option<Execution>
    var postcheck: Option<Postcheck>
    var assessment: Option<Assessment>
    var memory: Option<G.Memory>
    var receipt: Option<ReceiptTarget>
    var replies: map<(Route, string), Reply>
    var active: bool

    function View(): Db
      reads this
    {
      Db(workflow, events, approval, execution, postcheck, assessment, memory, receipt, replies, active)
    }

    /** allocate_run. */
    constructor (run: Run, id: Uuid, now: int)
      ensures this.run == run && View() == Allocate(run, id, now)
    {
      var row := Snapshot(run.workflowId, run.tenant, Investigating, 1, true, run.actionHash, None, None);
      this.run, workflow, active := run, row, true;
      events := [run.write([], BeforeGenesis(row), row, GENESIS_ENTRY, id, now)];
      approval, execution, postcheck, assessment, memory, receipt := None, None, None, None, None, None;
      replies := map[];
    }

    /** The abort of a transaction. */
    method Restore(saved: Db)
      modifies this
      ensures View() == saved
    {
      workflow, events, approval, execution := saved.workflow, saved.events, saved.approval, saved.execution;
      postcheck, assessment, memory := saved.postcheck, saved.assessment, saved.memory;
      receipt, replies, active := saved.receipt, saved.replies, saved.active;
    }

    /** WorkflowCoordinator.transition inside a transaction: check, swap the row, append the event. */
    method Transition(epoch: nat, from: State, to: State, entry: Entry, id: Uuid, now: int) returns (error: Option<string>)
      modifies `workflow, `events
      ensures Settles(Advance(run, old(View()), epoch, from, to, entry, id, now), old(View()), View(), error)
    {
      var checked := ValidateTransition(Some(workflow), epoch, from, entry.channel, entry.actorSubject, entry.actorRole);
      if checked.Err? {
        return Some(checked.reason);
      }
      var before := workflow;
      workflow := MovedBy(before, to, entry.actorRole, entry.actorSubject);
      events := events + [run.write(events, before, workflow, entry, id, now)];
      error := None;
    }

    /** stage, behind idempotent_webmcp_mutation. */
    method StageProposal(call: Call, id: Uuid, now: int) returns (error: Option<string>)
      modifies this
      ensures Settles(Stage(run, old(View()), call, id, now), old(View()), View(), error)
    {
      if run.actionHash.None? || !run.requiresApproval {
        return Some("bounded proposal is unavailable");
      }
      if (ProposalRoute, call.key) in replies {
        return if replies[(ProposalRoute, call.key)].requestDigest != call.digest
          then Some("idempotency key is bound to different input") else None;
      }
      if call.ifMatch != Some(call.readEpoch) {
        return Some("stale workflow precondition");
      }
      error := Transition(call.readEpoch, Investigating, AwaitingOperatorApproval,
                          AgentEntry(run, "PROPOSAL_STAGED", "proposal", run.actionHash.value), id, now);
      if error.None? {
        replies := replies[(ProposalRoute, call.key) := Reply(call.digest, workflow.epoch)];
      }
    }

    method ApproveAtomically(subject: string, epoch: nat, approved: bool, hash: Digest, id: Uuid, now: int)
      returns (error: Option<string>)
      modifies this
      ensures Settles(Approve(run, old(View()), subject, epoch, approved, hash, id, now), old(View()), View(), error)
    {
      var checked := ValidateTransition(Some(workflow), epoch, AwaitingOperatorApproval, Ui, subject, Operator);
      if checked.Err? {
        return Some(checked.reason);
      }
      var decided := DecideApproval(run, View(), approved, hash, subject);
      if decided.Err? {
        return Some(decided.reason);
      }
      approval := Some(decided.value);
      error := Transition(epoch, AwaitingOperatorApproval, if approved then ApprovedAwaitingExecution else Investigating,
                          OperatorEntry(subject, if approved then "PROPOSAL_APPROVED" else "PROPOSAL_REJECTED",
                                        Some("proposal"), Some(hash)), id, now);
    }

    method ExecuteSandboxAtomically(subject: string, epoch: nat, x: Execution, id: Uuid, now: int)
      returns (error: Option<string>)
      modifies this
      ensures Settles(Execute(run, old(View()), subject, epoch, x, id, now), old(View()), View(), error)
    {
      if run.actionHash != Some(x.proposalHash) {
        return Some("sandbox request is not bound to the proposed action");
      }
      if !run.commandAllowed {
        return Some("proposed action is not in the sandbox allowlist");
      }
      var checked := ValidateTransition(Some(workflow), epoch, ApprovedAwaitingExecution, Ui, subject, Operator);
      if checked.Err? {
        return Some(checked.reason);
      }
      if workflow.proposalHash != Some(x.proposalHash) || approval.None?
         || !approval.value.approved || approval.value.proposalHash != x.proposalHash {
        return Some("approval is not bound to this proposal");
      }
      var recorded := RecordExecution(View(), x);
      if recorded.Err? {
        return Some(recorded.reason);
      }
      execution := Some(recorded.value);
      error := Transition(epoch, ApprovedAwaitingExecution, ObservingPostcheck,
                          OperatorEntry(subject, "SANDBOX_EXECUTION_APPLIED", Some("execution_binding"),
                                        Some(run.digests.execution(recorded.value.digest, recorded.value.proposalHash))), id, now);
    }

    /** mark_unavailable and retry_unavailable. */
    method MarkPostcheckUnavailable(epoch: nat, id: Uuid, now: int) returns (error: Option<string>)
      modifies this
      ensures Settles(MarkUnavailable(run, old(View()), epoch, id, now), old(View()), View(), error)
    {
      error := Transition(epoch, ObservingPostcheck, PostcheckUnavailable,
                          SystemEntry("STATE_TRANSITION_ACCEPTED", None, None), id, now);
    }

    method StartRetryAtomically(subject: string, epoch: nat, id: Uuid, now: int) returns (error: Option<string>)
      modifies this
      ensures Settles(StartRetry(run, old(View()), subject, epoch, id, now), old(View()), View(), error)
    {
      var checked := ValidateTransition(Some(workflow), epoch, PostcheckUnavailable, Ui, subject, Operator);
      if checked.Err? {
        return Some(checked.reason);
      }
      if execution.None? {
        return Some("sandbox execution not found");
      }
      error := Transition(epoch, PostcheckUnavailable, ObservingPostcheck,
                          OperatorEntry(subject, "STATE_TRANSITION_ACCEPTED", None, None), id, now);
    }

    /** record_observation_atomically and complete_retry_atomically. */
    method RecordObservationAtomically(epoch: nat, digest: Digest, verdict: Digest, id: Uuid, now: int)
      returns (error: Option<string>)
      modifies this
      ensures Settles(Observe(run, old(View()), epoch, digest, verdict, id, now), old(View()), View(), error)
    {
      if execution.None? {
        return Some("sandbox execution not found");
      }
      var checked := ValidateTransition(Some(workflow), epoch, ObservingPostcheck, SystemChannel, OBSERVER, SystemRole);
      if checked.Err? {
        return Some(checked.reason);
      }
      var recorded := RecordPostcheck(View(), Collect(execution.value, digest, verdict));
      if recorded.Err? {
        return Some(recorded.reason);
      }
      postcheck := Some(recorded.value);
      var o := recorded.value.observation;
      error := Transition(epoch, ObservingPostcheck, PostcheckReady,
                          SystemEntry("VERIFIED_OBSERVATION_RECORDED", Some("observation_binding"),
                                      Some(run.digests.observation(o.executionDigest, o.digest, recorded.value.verdict.digest))),
                          id, now);
    }

    /** persist: the assessment row, the memory row, then the transition. */
    method Persist(call: Call, a: Assessment, prepared: G.Memory, id: Uuid, now: int) returns (error: Option<string>)
      modifies this
      ensures Settles(AssessOperation(run, old(View()), call, a, prepared, id, now), old(View()), View(), error)
      ensures replies == old(replies)
    {
      if call.ifMatch != Some(call.readEpoch) {
        return Some("stale workflow precondition");
      }
      var saved := View();
      var recorded := RecordAssessment(saved, a);
      if recorded.Err? {
        return Some(recorded.reason);
      }
      assessment := Some(recorded.value);
      if memory.None? {
        memory := Some(prepared);
      }
      var m := memory.value;
      if m.assessmentDigest.None? || m.observationDigest.None? || m.verdictDigest.None? {
        Restore(saved);
        return Some("outcome memory lacks evidence digests");
      }
      error := Transition(call.readEpoch, PostcheckReady, PendingReview,
                          AgentEntry(run, "POSTCHECK_ASSESSMENT_RECORDED", "outcome_binding",
                                     run.digests.outcome(m.assessmentDigest.value, m.memoryDigest,
                                                         m.observationDigest.value, m.verdictDigest.value)), id, now);
      if error.Some? {
        Restore(saved);
      }
    }

    method AssessPostcheck(call: Call, a: Assessment, memory: G.Memory, id: Uuid, now: int) returns (error: Option<string>)
      modifies this
      ensures Settles(Assess(run, old(View()), call, a, memory, id, now), old(View()), View(), error)
    {
      if postcheck.None? {
        return Some("verified postcheck not found");
      }
      var bound := a.(subject := run.agentSubject, observationDigest := postcheck.value.observation.digest);
      var prepared := PrepareOutcome(View(), postcheck.value, bound, memory);
      if prepared.Err? {
        return Some(prepared.reason);
      }
      if (AssessmentRoute, call.key) in replies {
        return if replies[(AssessmentRoute, call.key)].requestDigest != call.digest
          then Some("idempotency key is bound to different input") else None;
      }
      error := Persist(call, bound, prepared.value, id, now);
      if error.None? {
        replies := replies[(AssessmentRoute, call.key) := Reply(call.digest, workflow.epoch)];
      }
    }

    /** disposition_atomically: govern the memory, transition, then request the receipt. */
    method DispositionAtomically(v: Review, id: Uuid, now: int) returns (error: Option<string>)
      modifies this
      ensures Settles(Dispose(run, old(View()), v, id, now), old(View()), View(), error)
    {
      if v.ifMatch != Some(v.readEpoch) {
        return Some("stale workflow precondition");
      }
      if memory.None? || memory.value.memoryDigest != v.memoryDigest || memory.value.state != G.Pending {
        return Some("review target is stale or unavailable");
      }
      var m, saved := memory.value, View();
      if v.subject == run.operatorSubject || Some(v.subject) == m.observedBy {
        return Some("independent reviewer required");
      }
      var checked := ValidateTransition(Some(workflow), v.readEpoch, PendingReview, Ui, v.subject, Reviewer);
      if checked.Err? {
        return Some(checked.reason);
      }
      var request := G.Request(run.tenant, v.subject, GovernanceAction(v.decision), ReasonText(v.note, v.reasonCode), v.reasonCode, None);
      var target := G.GovernanceTarget(m, request, [m], now);
      if target.Err? {
        return Some(target.reason);
      }
      memory := Some(G.Governed(m, request, target.value, now));
      error := Transition(v.readEpoch, PendingReview, Reviewed, ReviewEntry(run, v), id, now);
      if error.None? {
        error := RequestReceiptForHead();
      }
      if error.Some? {
        Restore(saved);
      }
    }

    method RevokeAtomically(v: Revocation, now: int) returns (error: Option<string>)
      modifies `memory
      ensures Settles(Revoke(run, old(View()), v, now), old(View()), View(), error)
    {
      if memory.None? {
        return Some("review evidence not found");
      }
      var m := memory.value;
      if v.subject == run.operatorSubject || Some(v.subject) == m.observedBy {
        return Some("independent reviewer required");
      }
      if v.ifMatch != Some(v.readEpoch) {
        return Some("stale workflow precondition");
      }
      if !workflow.active || workflow.state != Reviewed || workflow.epoch != v.readEpoch {
        return Some("stale workflow state or epoch");
      }
      if m.memoryDigest != v.memoryDigest || m.state != G.Active || !m.valid
         || (m.expiresAt.Some? && m.expiresAt.value <= now) {
        return Some("revocation target is stale or unavailable");
      }
      var target := G.GovernanceTarget(m, RevocationRequest(run, v), [m], now);
      if target.Err? {
        return Some(target.reason);
      }
      memory := Some(G.Governed(m, RevocationRequest(run, v), target.value, now));
      error := None;
    }

    /** request_receipt. */
    method RequestReceiptForHead() returns (error: Option<string>)
      modifies `receipt
      ensures Settles(RequestReceipt(old(View())), old(View()), View(), error)
    {
      if events == [] {
        return Some("receipt target event is unavailable");
      }
      var head := events[|events| - 1];
      if head.stateAfter != "REVIEWED" {
        return Some("receipt target is not the finalized ledger head");
      }
      receipt := Some(ReceiptTarget(head.sequence, head.eventHash));
      error := None;
    }

    /** reset_atomically: the run row first, then the workflow and its last event. */
    method ResetAtomically(subject: string, epoch: nat, id: Uuid, now: int) returns (error: Option<string>)
      modifies this
      ensures Settles(Reset(run, old(View()), subject, epoch, id, now), old(View()), View(), error)
    {
      if !active {
        return Some("judge run reset already resolved");
      }
      active := false;
      var invalidated := InvalidateRow(Some(workflow), epoch);
      if invalidated.Err? {
        active := true;
        return Some(invalidated.reason);
      }
      var before := workflow;
      workflow := invalidated.value;
      events := events + [run.write(events, before, workflow, Entry(subject, Operator, Ui, "WORKFLOW_RESET_ACCEPTED"), id, now)];
      error := None;
    }
  }
}
