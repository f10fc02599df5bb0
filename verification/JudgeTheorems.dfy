/** The theorems about whole judge runs: every run that reaches REVIEWED is accepted by both
    offline checkers for the digests its rows hold, and what no run can do. */
module JudgeTheorems {
  import opened Common
  import opened Canonical
  import opened Workflow
  import opened Ledger
  import opened Coordinator
  import opened Receipts
  import opened JudgeRun
  import opened RunInvariants
  import G = Governance

  // ----- one step -----

  /** The epoch a request names. */
  function NamedEpoch(step: Step): nat {
    match step
    case StageStep(call) => call.readEpoch
    case ApproveStep(_, epoch, _, _) => epoch
    case ExecuteStep(_, epoch, _) => epoch
    case UnavailableStep(epoch) => epoch
    case RetryStep(_, epoch) => epoch
    case ObserveStep(epoch, _, _) => epoch
    case AssessStep(call, _, _) => call.readEpoch
    case DisposeStep(v) => v.readEpoch
    case RevokeStep(v) => v.readEpoch
    case ResetStep(_, epoch) => epoch
  }

  /** The subject of a step taken by the operator's session. */
  function OperatorOf(step: Step): Option<string> {
    match step
    case ApproveStep(subject, _, _, _) => Some(subject)
    case ExecuteStep(subject, _, _) => Some(subject)
    case RetryStep(subject, _) => Some(subject)
    case ResetStep(subject, _) => Some(subject)
    case StageStep(_) => None
    case UnavailableStep(_) => None
    case ObserveStep(_, _, _) => None
    case AssessStep(_, _, _) => None
    case DisposeStep(_) => None
    case RevokeStep(_) => None
  }

  predicate SameEvidence(m: G.Memory, m': G.Memory) {
    && m'.memoryDigest == m.memoryDigest && m'.observationDigest == m.observationDigest
    && m'.assessmentDigest == m.assessmentDigest && m'.verdictDigest == m.verdictDigest
  }

  /** Evidence rows are written once; the outcome memory keeps its digests. */
  predicate WriteOnce(db: Db, db': Db) {
    && (db.approval.Some? ==> db'.approval == db.approval)
    && (db.execution.Some? ==> db'.execution == db.execution)
    && (db.postcheck.Some? ==> db'.postcheck == db.postcheck)
    && (db.assessment.Some? ==> db'.assessment == db.assessment)
    && (db.memory.Some? ==> db'.memory.Some? && SameEvidence(db.memory.value, db'.memory.value))
    && (forall k :: k in db.replies ==> k in db'.replies && db'.replies[k] == db.replies[k])
  }

  ghost predicate Extends(db: Db, db': Db) {
    && db.events <= db'.events
    && db.workflow.epoch <= db'.workflow.epoch
    && (!db.workflow.active ==> db' == db)
    && WriteOnce(db, db')
  }

  /** A step that commits: it named the current epoch, and adds one event for one epoch. */
  ghost predicate Commits(db: Db, db': Db, t: Timed) {
    && db.workflow.active && NamedEpoch(t.step) == db.workflow.epoch
    && db'.workflow.epoch == db.workflow.epoch + 1
    && |db'.events| == |db.events| + 1 && db.events <= db'.events
    && WriteOnce(db, db')
    && (db.active == db.workflow.active ==> db'.active == db'.workflow.active)
    && (OperatorOf(t.step).Some? ==>
          Last(db'.events).actorRole == Operator && Last(db'.events).actorSubject == OperatorOf(t.step).value)
    && (OperatorOf(t.step).None? ==> Last(db'.events).actorRole != Operator)
    && Last(db'.events).recordedAt == t.now
  }

  /** The transaction's own writes before its transition: new evidence rows and nothing else. */
  ghost predicate Prepares(db: Db, mid: Db) {
    mid.workflow == db.workflow && mid.events == db.events && mid.active == db.active && WriteOnce(db, mid)
  }

  predicate ByOperator(step: Step, entry: Entry) {
    match OperatorOf(step)
    case Some(subject) => entry.actorRole == Operator && entry.actorSubject == subject
    case None => entry.actorRole != Operator
  }

  lemma AdvanceCommits(run: Run, db: Db, mid: Db, t: Timed, from: State, to: State, entry: Entry)
    requires Faithful(run) && Prepares(db, mid) && ByOperator(t.step, entry)
    requires Advance(run, mid, NamedEpoch(t.step), from, to, entry, t.id, t.now).Ok?
    ensures Commits(db, Advance(run, mid, NamedEpoch(t.step), from, to, entry, t.id, t.now).value, t)
  {
    var after := MovedBy(mid.workflow, to, entry.actorRole, entry.actorSubject);
    var e := run.write(mid.events, mid.workflow, after, entry, t.id, t.now);
    assert Records(run, mid.events, mid.workflow, after, entry, t.now, e);
    assert db.events <= db.events + [e];
  }

  lemma StageCommits(run: Run, db: Db, t: Timed)
    requires Faithful(run) && t.step.StageStep? && Transact(run, db, t).Ok?
    ensures Transact(run, db, t).value == db || Commits(db, Transact(run, db, t).value, t)
  {
    if StageOperation(run, db, t.step.call, t.id, t.now).Ok? {
      AdvanceCommits(run, db, db, t, Investigating, AwaitingOperatorApproval,
                     AgentEntry(run, "PROPOSAL_STAGED", "proposal", run.actionHash.value));
    }
  }

  lemma ApproveCommits(run: Run, db: Db, t: Timed)
    requires Faithful(run) && t.step.ApproveStep? && Transact(run, db, t).Ok?
    ensures Commits(db, Transact(run, db, t).value, t)
  {
    var subject, approved, hash := t.step.subject, t.step.approved, t.step.hash;
    AdvanceCommits(run, db, db.(approval := Some(Approval(approved, hash, subject))), t, AwaitingOperatorApproval,
                   if approved then ApprovedAwaitingExecution else Investigating,
                   OperatorEntry(subject, if approved then "PROPOSAL_APPROVED" else "PROPOSAL_REJECTED",
                                 Some("proposal"), Some(hash)));
  }

  lemma ExecuteCommits(run: Run, db: Db, t: Timed)
    requires Faithful(run) && t.step.ExecuteStep? && Transact(run, db, t).Ok?
    ensures Commits(db, Transact(run, db, t).value, t)
  {
    var x := RecordExecution(db, t.step.execution).value;
    AdvanceCommits(run, db, db.(execution := Some(x)), t, ApprovedAwaitingExecution, ObservingPostcheck,
                   OperatorEntry(t.step.subject, "SANDBOX_EXECUTION_APPLIED", Some("execution_binding"),
                                 Some(run.digests.execution(x.digest, x.proposalHash))));
  }

  lemma ObserveCommits(run: Run, db: Db, t: Timed)
    requires Faithful(run) && t.step.ObserveStep? && Transact(run, db, t).Ok?
    ensures Commits(db, Transact(run, db, t).value, t)
  {
    var post := RecordPostcheck(db, Collect(db.execution.value, t.step.digest, t.step.verdict)).value;
    var o := post.observation;
    AdvanceCommits(run, db, db.(postcheck := Some(post)), t, ObservingPostcheck, PostcheckReady,
                   SystemEntry("VERIFIED_OBSERVATION_RECORDED", Some("observation_binding"),
                               Some(run.digests.observation(o.executionDigest, o.digest, post.verdict.digest))));
  }

  lemma LoopCommits(run: Run, db: Db, t: Timed)
    requires Faithful(run) && (t.step.UnavailableStep? || t.step.RetryStep?) && Transact(run, db, t).Ok?
    ensures Commits(db, Transact(run, db, t).value, t)
  {
    if t.step.UnavailableStep? {
      AdvanceCommits(run, db, db, t, ObservingPostcheck, PostcheckUnavailable,
                     SystemEntry("STATE_TRANSITION_ACCEPTED", None, None));
    } else {
      AdvanceCommits(run, db, db, t, PostcheckUnavailable, ObservingPostcheck,
                     OperatorEntry(t.step.subject, "STATE_TRANSITION_ACCEPTED", None, None));
    }
  }

  lemma AssessOperationCommits(run: Run, db: Db, t: Timed, a: Assessment, prepared: G.Memory)
    requires Faithful(run) && t.step.AssessStep? && AssessOperation(run, db, t.step.call, a, prepared, t.id, t.now).Ok?
    ensures Commits(db, AssessOperation(run, db, t.step.call, a, prepared, t.id, t.now).value, t)
  {
    var recorded := RecordAssessment(db, a).value;
    var m := if db.memory.Some? then db.memory.value else prepared;
    AdvanceCommits(run, db, db.(assessment := Some(recorded), memory := Some(m)), t, PostcheckReady, PendingReview,
                   AgentEntry(run, "POSTCHECK_ASSESSMENT_RECORDED", "outcome_binding",
                              run.digests.outcome(m.assessmentDigest.value, m.memoryDigest,
                                                  m.observationDigest.value, m.verdictDigest.value)));
  }

  lemma AssessCommits(run: Run, db: Db, t: Timed)
    requires Faithful(run) && t.step.AssessStep? && Transact(run, db, t).Ok?
    ensures Transact(run, db, t).value == db || Commits(db, Transact(run, db, t).value, t)
  {
    var a := t.step.assessment.(subject := run.agentSubject, observationDigest := db.postcheck.value.observation.digest);
    var prepared := PrepareOutcome(db, db.postcheck.value, a, t.step.memory).value;
    if AssessOperation(run, db, t.step.call, a, prepared, t.id, t.now).Ok? {
      AssessOperationCommits(run, db, t, a, prepared);
    }
  }

  lemma DisposeCommits(run: Run, db: Db, t: Timed)
    requires Faithful(run) && t.step.DisposeStep? && Transact(run, db, t).Ok?
    ensures Commits(db, Transact(run, db, t).value, t)
  {
    var v, m := t.step.review, db.memory.value;
    var request := G.Request(run.tenant, v.subject, GovernanceAction(v.decision), ReasonText(v.note, v.reasonCode), v.reasonCode, None);
    var target := G.GovernanceTarget(m, request, [m], t.now);
    AdvanceCommits(run, db, db.(memory := Some(G.Governed(m, request, target.value, t.now))), t, PendingReview, Reviewed,
                   ReviewEntry(run, v));
  }

  lemma ResetCommits(run: Run, db: Db, t: Timed)
    requires Faithful(run) && t.step.ResetStep? && Transact(run, db, t).Ok?
    ensures Commits(db, Transact(run, db, t).value, t)
  {
    var e := ResetAppends(run, db, t.step.subject, t.step.epoch, t.id, t.now);
  }

  /** A revocation touches only the governed memory. */
  ghost predicate OnlyRevokes(db: Db, db': Db, step: Step) {
    && step.RevokeStep? && db.workflow.active && db.memory.Some? && db'.memory.Some?
    && SameEvidence(db.memory.value, db'.memory.value)
    && db' == db.(memory := db'.memory)
  }

  /** Every step leaves all rows as they were, commits exactly one event, or revokes the memory. */
  lemma StepCommitsOrNot(run: Run, db: Db, t: Timed)
    requires Faithful(run)
    ensures After(run, db, t) == db || Commits(db, After(run, db, t), t) || OnlyRevokes(db, After(run, db, t), t.step)
  {
    if Transact(run, db, t).Ok? {
      match t.step
      case StageStep(_) => StageCommits(run, db, t);
      case ApproveStep(_, _, _, _) => ApproveCommits(run, db, t);
      case ExecuteStep(_, _, _) => ExecuteCommits(run, db, t);
      case UnavailableStep(_) => LoopCommits(run, db, t);
      case RetryStep(_, _) => LoopCommits(run, db, t);
      case ObserveStep(_, _, _) => ObserveCommits(run, db, t);
      case AssessStep(_, _, _) => AssessCommits(run, db, t);
      case DisposeStep(_) => DisposeCommits(run, db, t);
      case RevokeStep(_) =>
      case ResetStep(_, _) => ResetCommits(run, db, t);
    }
  }

  // ----- whole runs -----

  lemma ExtendsTransitive(a: Db, b: Db, c: Db)
    requires Extends(a, b) && Extends(b, c)
    ensures Extends(a, c)
  {
    assert c.events[..|a.events|] == b.events[..|a.events|];
  }

  /** The ledger is append-only, evidence and replies are write-once, and an inactive run is
      frozen, over any stretch of any run. */
  lemma {:induction false} RunExtends(run: Run, db: Db, ts: seq<Timed>)
    requires Faithful(run)
    ensures Extends(db, AfterAll(run, db, ts))
    decreases |ts|
  {
    if ts != [] {
      var before := AfterAll(run, db, ts[..|ts| - 1]);
      RunExtends(run, db, ts[..|ts| - 1]);
      StepCommitsOrNot(run, before, ts[|ts| - 1]);
      ExtendsTransitive(db, before, AfterAll(run, db, ts));
    }
  }

  lemma {:induction false} AfterAllSplit(run: Run, db: Db, ts: seq<Timed>, us: seq<Timed>)
    ensures AfterAll(run, db, ts + us) == AfterAll(run, AfterAll(run, db, ts), us)
    decreases |us|
  {
    if us == [] {
      assert ts + us == ts;
    } else {
      AfterAllSplit(run, db, ts, us[..|us| - 1]);
      assert (ts + us)[..|ts + us| - 1] == ts + us[..|us| - 1];
    }
  }

  /** The clock never goes back, and an operator's session has a subject. */
  ghost predicate Admissible(start: int, ts: seq<Timed>) {
    && (forall i :: 0 <= i < |ts| ==> start <= ts[i].now && OperatorOf(ts[i].step) != Some(""))
    && (forall i, j :: 0 <= i < j < |ts| ==> ts[i].now <= ts[j].now)
  }

  function Reached(run: Run, id: Uuid, start: int, ts: seq<Timed>): Db {
    AfterAll(run, Allocate(run, id, start), ts)
  }

  function LastTime(start: int, ts: seq<Timed>): int {
    if ts == [] then start else ts[|ts| - 1].now
  }

  lemma OperatorStepKeepsInv(run: Run, db: Db, t: Timed)
    requires Faithful(run) && Inv(run, db) && Timely(db, t.now)
    requires OperatorOf(t.step).Some? && OperatorOf(t.step) != Some("")
    ensures Inv(run, After(run, db, t))
  {
    match t.step
    case ApproveStep(subject, epoch, approved, hash) => ApproveKeepsInv(run, db, subject, epoch, approved, hash, t.id, t.now);
    case ExecuteStep(subject, epoch, x) => ExecuteKeepsInv(run, db, subject, epoch, x, t.id, t.now);
    case RetryStep(subject, epoch) => RetryKeepsInv(run, db, subject, epoch, t.id, t.now);
    case ResetStep(subject, epoch) => ResetKeepsInv(run, db, subject, epoch, t.id, t.now);
  }

  lemma OtherStepKeepsInv(run: Run, db: Db, t: Timed)
    requires Faithful(run) && Inv(run, db) && Timely(db, t.now) && OperatorOf(t.step).None?
    ensures Inv(run, After(run, db, t))
  {
    match t.step
    case StageStep(call) => StageKeepsInv(run, db, call, t.id, t.now);
    case UnavailableStep(epoch) => UnavailableKeepsInv(run, db, epoch, t.id, t.now);
    case ObserveStep(epoch, digest, verdict) => ObserveKeepsInv(run, db, epoch, digest, verdict, t.id, t.now);
    case AssessStep(call, a, m) => AssessKeepsInv(run, db, call, a, m, t.id, t.now);
    case DisposeStep(v) => DisposeKeepsInv(run, db, v, t.id, t.now);
    case RevokeStep(v) => RevokeKeepsInv(run, db, v, t.now);
  }

  lemma StepKeepsInv(run: Run, db: Db, t: Timed)
    requires Faithful(run) && Inv(run, db) && Timely(db, t.now) && OperatorOf(t.step) != Some("")
    ensures Inv(run, After(run, db, t))
  {
    if OperatorOf(t.step).Some? {
      OperatorStepKeepsInv(run, db, t);
    } else {
      OtherStepKeepsInv(run, db, t);
    }
  }

  lemma AllocateInv(run: Run, id: Uuid, start: int)
    requires Faithful(run)
    ensures Inv(run, Allocate(run, id, start))
  {
    AllocateLedger(run, id, start);
    var db := Allocate(run, id, start);
    var e := run.write([], BeforeGenesis(db.workflow), db.workflow, GENESIS_ENTRY, id, start);
    assert Records(run, [], BeforeGenesis(db.workflow), db.workflow, GENESIS_ENTRY, start, e);
    forall s
      ensures FirstOf(db.events, s) == if s == Investigating then Some(e) else None
    {
      AppendFirsts([], e, Investigating, s);
      assert [] + [e] == [e];
    }
    assert [] + [e] == db.events;
    SubjectsAppend([], e, Reviewer);
    forall s
      ensures FirstOk(run, db, s)
    {
    }
  }

  lemma {:induction false} ReachableInv(run: Run, id: Uuid, start: int, ts: seq<Timed>)
    requires Faithful(run) && Admissible(start, ts)
    ensures Inv(run, Reached(run, id, start, ts))
    ensures Last(Reached(run, id, start, ts).events).recordedAt <= LastTime(start, ts)
    decreases |ts|
  {
    var db := Reached(run, id, start, ts);
    if ts == [] {
      AllocateInv(run, id, start);
      var row := db.workflow;
      assert Records(run, [], BeforeGenesis(row), row, GENESIS_ENTRY, start,
                     run.write([], BeforeGenesis(row), row, GENESIS_ENTRY, id, start));
    } else {
      var t := ts[|ts| - 1];
      var before := Reached(run, id, start, ts[..|ts| - 1]);
      ReachableInv(run, id, start, ts[..|ts| - 1]);
      StepKeepsInv(run, before, t);
      StepCommitsOrNot(run, before, t);
    }
  }

  // ----- every reviewed run is accepted -----

  function DispositionFor(reason: string): Option<Disposition> {
    if reason == "MEMORY_CERTIFY" then Some(Certify)
    else if reason == "MEMORY_QUARANTINE" then Some(Quarantine)
    else if reason == "MEMORY_REJECT" then Some(Reject)
    else None
  }

  /** The joins of the evidence query: one bound chain of rows. */
  predicate Joined(db: Db) {
    && db.execution.Some? && db.approval.Some? && db.postcheck.Some? && db.assessment.Some? && db.memory.Some?
    && var x, post, m := db.execution.value, db.postcheck.value, db.memory.value;
    && db.approval.value.approved && db.approval.value.proposalHash == x.proposalHash
    && post.observation.proposalHash == x.proposalHash && post.observation.executionDigest == x.digest
    && post.verdict.observationDigest == post.observation.digest
    && db.assessment.value.observationDigest == post.observation.digest
    && m.observationDigest == Some(post.observation.digest)
    && m.assessmentDigest == Some(db.assessment.value.digest)
    && m.verdictDigest == Some(post.verdict.digest)
  }

  /** The digests the rows of a reviewed run hold. */
  function RecordedDigests(db: Db): DigestBindings
    requires db.events != [] && Last(db.events).objectId.Some? && IsHex64(Last(db.events).objectId.value) && Joined(db)
  {
    DigestBindings(db.execution.value.proposalHash, db.execution.value.digest,
                   db.postcheck.value.observation.digest, db.assessment.value.digest,
                   db.postcheck.value.verdict.digest, db.memory.value.memoryDigest, Last(db.events).objectId.value)
  }

  predicate Lives(m: G.Memory, requestedAt: int) {
    m.expiresAt.Some? && m.expiresAt.value > requestedAt
  }

  datatype Material = Material(digests: DigestBindings, disposition: Disposition)

  /** PostgresReceiptMaterialLoader.load: resolve a receipt target to the digests its rows hold. */
  function LoadMaterial(db: Db, target: ReceiptTarget, requestedAt: int): Result<Material> {
    if |db.events| != target.sequence || db.events == [] then Err("claimed receipt target is not the exact review prefix")
    else
      var last := Last(db.events);
      if last.eventHash != target.headHash || last.stateAfter != "REVIEWED"
         || last.objectType != Some("review_binding") || last.objectId.None? || !IsHex64(last.objectId.value)
      then Err("claimed receipt target is not the exact review prefix")
      else if !Joined(db) then Err("receipt requires exactly one bound execution and evidence chain")
      else if !Lives(db.memory.value, requestedAt) then Err("stored evidence digests or lifetime do not verify")
      else
        var disposition := DispositionFor(last.reasonCode);
        if disposition.None? || !GovernedAs(db.memory.value, disposition.value)
        then Err("review disposition differs from governed memory state")
        else
          Ok(Material(RecordedDigests(db), disposition.value))
  }

  lemma DomainNames()
    ensures "recallops-" + "execution" + "-binding-v1" == "recallops-execution-binding-v1"
    ensures "recallops-" + "observation" + "-binding-v1" == "recallops-observation-binding-v1"
    ensures "recallops-" + "outcome" + "-binding-v1" == "recallops-outcome-binding-v1"
    ensures "recallops-" + "review" + "-binding-v1" == "recallops-review-binding-v1"
  {
  }

  /** The routes and the offline verifier compute the same binding digests, each with its own code. */
  lemma BindingDigestsAgree(p: Primitives, x: Digest, proposal: Digest, o: Digest, v: Digest, a: Digest, m: Digest,
                            d: Disposition, review: Digest)
    ensures ExecutionBinding(p, x, proposal) == TransitionBindingDigest(p, "execution", ExecutionBindingKeys, [x, proposal])
    ensures ObservationBinding(p, x, o, v) == TransitionBindingDigest(p, "observation", ObservationBindingKeys, [x, o, v])
    ensures OutcomeBinding(p, a, m, o, v) == TransitionBindingDigest(p, "outcome", OutcomeBindingKeys, [a, m, o, v])
    ensures ReviewBinding(p, d, m, review)
            == TransitionBindingDigest(p, "review", ReviewBindingKeys, [DispositionDigest(p, DispositionName(d)), m, review])
  {
    DomainNames();
    assert TextMembers([x, proposal]) == [JStr(x), JStr(proposal)];
    assert TextMembers([x, o, v]) == [JStr(x), JStr(o), JStr(v)];
    assert TextMembers([a, m, o, v]) == [JStr(a), JStr(m), JStr(o), JStr(v)];
    var f := DispositionDigest(p, DispositionName(d));
    assert TextMembers([f, m, review]) == [JStr(f), JStr(m), JStr(review)];
  }

  /** A run whose hash, events and digests are the ones MakeRun fixes. */
  ghost predicate Real(p: Primitives, run: Run) {
    run == MakeRun(p, run.binding, run.generation, run.tenant, run.workflowId, run.operatorSubject, run.agentSubject,
                   run.actionHash, run.requiresApproval, run.commandAllowed)
  }

  lemma RealIsFaithful(p: Primitives, run: Run)
    requires Real(p, run)
    ensures Faithful(run)
  {
    MakeRunIsFaithful(p, run.binding, run.generation, run.tenant, run.workflowId, run.operatorSubject, run.agentSubject,
                      run.actionHash, run.requiresApproval, run.commandAllowed);
  }

  lemma ReviewedDigestsBind(p: Primitives, run: Run, db: Db, v: Review)
    requires Real(p, run) && Joined(db) && run.actionHash == Some(db.execution.value.proposalHash)
    requires db.workflow.state == Reviewed && db.events != [] && FirstsInv(run, db) && ReviewedBy(run, db, v)
    ensures Last(db.events).objectId.Some? && IsHex64(Last(db.events).objectId.value)
    ensures CausalOk(p, db.events, RecordedDigests(db), DispositionName(v.decision))
  {
    var d := RecordedDigests(db);
    forall s
      ensures BindingOk(p, db.events, d, DispositionName(v.decision), s)
    {
      assert FirstOk(run, db, s);
      RecordedIsRequired(p, run, db, d, v.decision, s);
    }
  }

  /** What the routes recorded for each state is what the verifier requires of it. */
  lemma RecordedIsRequired(p: Primitives, run: Run, db: Db, d: DigestBindings, decision: Disposition, s: State)
    requires Real(p, run) && Joined(db) && run.actionHash == Some(db.execution.value.proposalHash)
    requires d.proposal == db.execution.value.proposalHash && d.execution == db.execution.value.digest
    requires d.observation == db.postcheck.value.observation.digest
    requires d.policyVerdict == db.postcheck.value.verdict.digest
    requires d.assessment == db.assessment.value.digest && d.memory == db.memory.value.memoryDigest
    ensures Bound(s) ==> Recorded(run, db, s) == Required(p, d, DispositionName(decision), s)
    ensures Required(p, d, DispositionName(decision), Reviewed)
            == Some(Binding("review_binding", run.digests.review(decision, d.memory, d.review)))
  {
    BindingDigestsAgree(p, d.execution, d.proposal, d.observation, d.policyVerdict, d.assessment, d.memory, decision, d.review);
  }

  lemma ReviewedPrefixOk(run: Run, db: Db)
    requires Inv(run, db) && db.workflow.state == Reviewed && db.workflow.active
    ensures PrefixOk(run.hash, db.events) <==> |Subjects(db.events, Operator)| == 1
  {
    var operators := Subjects(db.events, Operator);
    var operator := db.workflow.operatorSubject.value;
    var r :| Subjects(db.events, Reviewer) == {r} && operator != r;
    if |operators| == 1 {
      SingletonMember(operators, operator);
    }
  }

  /** The causal verifier accepts the ledger for the digests its rows hold and the disposition its
      last event names. */
  ghost predicate CausallyBound(p: Primitives, db: Db) {
    && db.events != [] && Joined(db)
    && var last := Last(db.events);
    && last.objectId.Some? && IsHex64(last.objectId.value) && DispositionFor(last.reasonCode).Some?
    && CausalOk(p, db.events, RecordedDigests(db), DispositionName(DispositionFor(last.reasonCode).value))
  }

  /** Whatever the routes do on the way, and whatever has become of the memory since, a run that
      stands at REVIEWED has a well-formed chain and causal bindings that verify for the digests its
      rows record.  The prefix verifier accepts it exactly when one operator subject acted.  Its
      receipt target resolves exactly while the memory lives and is not revoked, and then to those
      digests and that disposition. */
  lemma ReviewedRunIsAccepted(p: Primitives, run: Run, id: Uuid, start: int, ts: seq<Timed>, requestedAt: int)
    requires Real(p, run) && Admissible(start, ts)
    requires Reached(run, id, start, ts).workflow.state == Reviewed && Reached(run, id, start, ts).active
    ensures var db := Reached(run, id, start, ts);
            && ChainOk(EventHasher(p), db.events) && CausallyBound(p, db)
            && (PrefixOk(EventHasher(p), db.events) <==> |Subjects(db.events, Operator)| == 1)
    ensures var db := Reached(run, id, start, ts);
            && db.receipt.Some?
            && var m := LoadMaterial(db, db.receipt.value, requestedAt);
            && (m.Ok? <==> Lives(db.memory.value, requestedAt) && !Revoked(db.memory.value))
            && (m.Ok? ==> m.value == Material(RecordedDigests(db), DispositionFor(Last(db.events).reasonCode).value))
  {
    var db := Reached(run, id, start, ts);
    RealIsFaithful(p, run);
    ReachableInv(run, id, start, ts);
    ActiveTogether(run, id, start, ts);
    ReviewedPrefixOk(run, db);
    var v :| ReviewedBy(run, db, v);
    ReviewedRowsJoin(run, db);
    ReviewedMaterial(run, db, v, requestedAt);
    ReviewedDigestsBind(p, run, db, v);
  }

  lemma ReviewedRowsJoin(run: Run, db: Db)
    requires Inv(run, db) && db.workflow.state == Reviewed && db.workflow.active
    ensures Joined(db) && Last(db.events).sequence == |db.events| && Last(db.events).stateAfter == "REVIEWED"
  {
    assert LinkOk(run.hash, db.events, |db.events| - 1);
  }

  lemma ReviewedMaterial(run: Run, db: Db, v: Review, requestedAt: int)
    requires db.events != [] && Joined(db) && ReviewedBy(run, db, v)
    requires Last(db.events).sequence == |db.events| && Last(db.events).stateAfter == "REVIEWED"
    ensures DispositionFor(Last(db.events).reasonCode) == Some(v.decision)
    ensures db.receipt.Some?
    ensures LoadMaterial(db, db.receipt.value, requestedAt)
            == if !Lives(db.memory.value, requestedAt) then Err("stored evidence digests or lifetime do not verify")
               else if Revoked(db.memory.value) then Err("review disposition differs from governed memory state")
               else Ok(Material(RecordedDigests(db), v.decision))
  {
    assert DispositionFor(ReasonFor(v.decision)) == Some(v.decision);
  }

  /** The run row and its workflow are invalidated together. */
  lemma {:induction false} ActiveTogether(run: Run, id: Uuid, start: int, ts: seq<Timed>)
    requires Faithful(run)
    ensures var db := Reached(run, id, start, ts); db.active <==> db.workflow.active
    decreases |ts|
  {
    if ts != [] {
      ActiveTogether(run, id, start, ts[..|ts| - 1]);
      StepCommitsOrNot(run, Reached(run, id, start, ts[..|ts| - 1]), ts[|ts| - 1]);
    }
  }

  // ----- which targets load -----

  lemma OperatorKeepsActive(run: Run, db: Db, t: Timed)
    requires t.step.ApproveStep? || t.step.ExecuteStep? || t.step.RetryStep?
    ensures After(run, db, t).active == db.active
  {
  }

  lemma AgentKeepsActive(run: Run, db: Db, t: Timed)
    requires t.step.StageStep? || t.step.AssessStep?
    ensures After(run, db, t).active == db.active
  {
  }

  lemma SystemKeepsActive(run: Run, db: Db, t: Timed)
    requires t.step.UnavailableStep? || t.step.ObserveStep?
    ensures After(run, db, t).active == db.active
  {
  }

  lemma ReviewerKeepsActive(run: Run, db: Db, t: Timed)
    requires t.step.DisposeStep? || t.step.RevokeStep?
    ensures After(run, db, t).active == db.active
  {
  }

  lemma OnlyResetEnds(run: Run, db: Db, t: Timed)
    requires !t.step.ResetStep?
    ensures After(run, db, t).active == db.active
  {
    if t.step.StageStep? || t.step.AssessStep? {
      AgentKeepsActive(run, db, t);
    } else if t.step.UnavailableStep? || t.step.ObserveStep? {
      SystemKeepsActive(run, db, t);
    } else if t.step.DisposeStep? || t.step.RevokeStep? {
      ReviewerKeepsActive(run, db, t);
    } else {
      OperatorKeepsActive(run, db, t);
    }
  }

  lemma ResetEndsLedger(run: Run, db: Db, t: Timed)
    requires Faithful(run) && db.active && !After(run, db, t).active
    ensures After(run, db, t).events != [] && Last(After(run, db, t).events).objectType == None
  {
    if !t.step.ResetStep? {
      OnlyResetEnds(run, db, t);
    } else {
      var e := ResetAppends(run, db, t.step.subject, t.step.epoch, t.id, t.now);
    }
  }

  /** An ended run's last event is its reset, which names no object. */
  lemma {:induction false} EndedLedgerNamesNothing(run: Run, id: Uuid, start: int, ts: seq<Timed>)
    requires Faithful(run) && Admissible(start, ts)
    requires !Reached(run, id, start, ts).active
    ensures Reached(run, id, start, ts).events != [] && Last(Reached(run, id, start, ts).events).objectType == None
    decreases |ts|
  {
    if ts != [] {
      var init, t := ts[..|ts| - 1], ts[|ts| - 1];
      var before := Reached(run, id, start, init);
      ReachableInv(run, id, start, ts);
      ActiveTogether(run, id, start, init);
      if before.active {
        ResetEndsLedger(run, before, t);
      } else {
        EndedLedgerNamesNothing(run, id, start, init);
        FrozenStays(run, before, t);
      }
    }
  }

  lemma FrozenStays(run: Run, db: Db, t: Timed)
    requires Faithful(run) && !db.workflow.active
    ensures After(run, db, t) == db
  {
    StepCommitsOrNot(run, db, t);
  }

  lemma NotReviewedNeverLoads(run: Run, db: Db, target: ReceiptTarget, requestedAt: int)
    requires Inv(run, db) && (db.workflow.state != Reviewed || Last(db.events).objectType.None?)
    ensures LoadMaterial(db, target, requestedAt).Err?
  {
    assert StateName(Reviewed) == "REVIEWED";
    StateNamesDistinct(db.workflow.state, Reviewed);
    LastNamesState(run, db);
  }

  lemma LastNamesState(run: Run, db: Db)
    requires Inv(run, db)
    ensures Last(db.events).stateAfter == StateName(db.workflow.state)
  {
  }

  lemma OnlyTheHeadLoads(db: Db, target: ReceiptTarget, requestedAt: int)
    requires LoadMaterial(db, target, requestedAt).Ok?
    ensures target.sequence == |db.events| > 0 && target.headHash == Last(db.events).eventHash
  {
  }

  /** In every run, and for every target a request could carry, the loader resolves it exactly when the run
      is live at REVIEWED, the target is the one the review stored, and the memory lives unrevoked. */
  lemma LoadsExactly(p: Primitives, run: Run, id: Uuid, start: int, ts: seq<Timed>, target: ReceiptTarget, requestedAt: int)
    requires Real(p, run) && Admissible(start, ts)
    ensures var db := Reached(run, id, start, ts);
            LoadMaterial(db, target, requestedAt).Ok? <==>
              && db.active && db.workflow.state == Reviewed && db.receipt == Some(target)
              && db.memory.Some? && Lives(db.memory.value, requestedAt) && !Revoked(db.memory.value)
  {
    var db := Reached(run, id, start, ts);
    RealIsFaithful(p, run);
    ReachableInv(run, id, start, ts);
    if !db.active {
      EndedLedgerNamesNothing(run, id, start, ts);
      NotReviewedNeverLoads(run, db, target, requestedAt);
    } else if db.workflow.state != Reviewed {
      NotReviewedNeverLoads(run, db, target, requestedAt);
    } else {
      ReviewedRunIsAccepted(p, run, id, start, ts, requestedAt);
      ReviewedTargetIs(run, id, start, ts);
      if LoadMaterial(db, target, requestedAt).Ok? {
        OnlyTheHeadLoads(db, target, requestedAt);
      }
    }
  }

  lemma ReviewedTargetIs(run: Run, id: Uuid, start: int, ts: seq<Timed>)
    requires Faithful(run) && Admissible(start, ts)
    requires Reached(run, id, start, ts).workflow.state == Reviewed && Reached(run, id, start, ts).active
    ensures var db := Reached(run, id, start, ts);
            db.events != [] && db.memory.Some? && db.receipt == Some(ReceiptTarget(|db.events|, Last(db.events).eventHash))
  {
    var db := Reached(run, id, start, ts);
    ReachableInv(run, id, start, ts);
    ActiveTogether(run, id, start, ts);
    var v :| ReviewedBy(run, db, v);
    ReviewedRowsJoin(run, db);
  }

  // ----- revocation before finalization -----

  lemma OperatorLeavesMemory(run: Run, db: Db, t: Timed)
    requires OperatorOf(t.step).Some?
    ensures After(run, db, t).memory == db.memory
  {
  }

  lemma SystemLeavesMemory(run: Run, db: Db, t: Timed)
    requires t.step.StageStep? || t.step.UnavailableStep? || t.step.ObserveStep?
    ensures After(run, db, t).memory == db.memory
  {
  }

  lemma AssessmentLeavesStoredMemory(run: Run, db: Db, t: Timed)
    requires t.step.AssessStep? && db.memory.Some?
    ensures After(run, db, t).memory == db.memory
  {
  }

  lemma ReviewLeavesRevokedMemory(run: Run, db: Db, t: Timed)
    requires t.step.DisposeStep? || t.step.RevokeStep?
    requires db.memory.Some? && Revoked(db.memory.value)
    ensures After(run, db, t).memory == db.memory
  {
  }

  lemma RevokedStays(run: Run, db: Db, t: Timed)
    requires db.memory.Some? && Revoked(db.memory.value)
    ensures After(run, db, t).memory == db.memory
  {
    if OperatorOf(t.step).Some? {
      OperatorLeavesMemory(run, db, t);
    } else if t.step.AssessStep? {
      AssessmentLeavesStoredMemory(run, db, t);
    } else if t.step.DisposeStep? || t.step.RevokeStep? {
      ReviewLeavesRevokedMemory(run, db, t);
    } else {
      SystemLeavesMemory(run, db, t);
    }
  }

  lemma {:induction false} RevokedStaysForGood(run: Run, db: Db, ts: seq<Timed>)
    requires db.memory.Some? && Revoked(db.memory.value)
    ensures AfterAll(run, db, ts).memory == db.memory
    decreases |ts|
  {
    if ts != [] {
      RevokedStaysForGood(run, db, ts[..|ts| - 1]);
      RevokedStays(run, AfterAll(run, db, ts[..|ts| - 1]), ts[|ts| - 1]);
    }
  }

  /** Once a reviewed memory is revoked, no receipt target of its run ever resolves again, whatever
      follows and whenever the receipt was requested. */
  lemma RevokedNeverLoads(run: Run, db: Db, ts: seq<Timed>, target: ReceiptTarget, requestedAt: int)
    requires db.memory.Some? && Revoked(db.memory.value)
    ensures LoadMaterial(AfterAll(run, db, ts), target, requestedAt).Err?
  {
    RevokedStaysForGood(run, db, ts);
  }

  // ----- one operator session -----

  ghost predicate OneOperator(run: Run, ts: seq<Timed>) {
    forall i :: 0 <= i < |ts| && OperatorOf(ts[i].step).Some? ==> OperatorOf(ts[i].step).value == run.operatorSubject
  }

  lemma {:induction false} OneOperatorActs(run: Run, id: Uuid, start: int, ts: seq<Timed>)
    requires Faithful(run) && OneOperator(run, ts)
    ensures Subjects(Reached(run, id, start, ts).events, Operator) <= {run.operatorSubject}
    decreases |ts|
  {
    var db := Reached(run, id, start, ts);
    if ts == [] {
      var row := db.workflow;
      assert Records(run, [], BeforeGenesis(row), row, GENESIS_ENTRY, start,
                     run.write([], BeforeGenesis(row), row, GENESIS_ENTRY, id, start));
      assert db.events[..0] == [];
    } else {
      var before := Reached(run, id, start, ts[..|ts| - 1]);
      OneOperatorActs(run, id, start, ts[..|ts| - 1]);
      StepCommitsOrNot(run, before, ts[|ts| - 1]);
      if db.events != before.events {
        assert db.events[..|db.events| - 1] == before.events;
      }
    }
  }

  /** Judge sessions fix the operator's subject; every reviewed run they drive is accepted by both
      offline checkers. */
  lemma JudgeSessionRunIsAccepted(p: Primitives, run: Run, id: Uuid, start: int, ts: seq<Timed>)
    requires Real(p, run) && Admissible(start, ts) && OneOperator(run, ts)
    requires Reached(run, id, start, ts).workflow.state == Reviewed && Reached(run, id, start, ts).active
    ensures PrefixOk(EventHasher(p), Reached(run, id, start, ts).events)
    ensures CausallyBound(p, Reached(run, id, start, ts))
  {
    var db := Reached(run, id, start, ts);
    RealIsFaithful(p, run);
    ReachableInv(run, id, start, ts);
    OneOperatorActs(run, id, start, ts);
    assert Subjects(db.events, Operator) == {run.operatorSubject};
    ReviewedRunIsAccepted(p, run, id, start, ts, 0);
  }

  // ----- lockstep, replays, resets -----

  lemma LockstepInEveryRun(run: Run, id: Uuid, start: int, ts: seq<Timed>)
    requires Faithful(run) && Admissible(start, ts)
    ensures var db := Reached(run, id, start, ts);
            && |db.events| == db.workflow.epoch > 0
            && Last(db.events).stateAfter == StateName(db.workflow.state)
            && Last(db.events).epochAfter == db.workflow.epoch
            && Last(db.events).capabilitiesAfter == db.workflow.AvailableTools()
  {
    ReachableInv(run, id, start, ts);
  }

  lemma CommitAt(run: Run, db: Db, ts: seq<Timed>, i: nat)
    requires Faithful(run) && i < |ts|
    requires AfterAll(run, db, ts[..i + 1]).events != AfterAll(run, db, ts[..i]).events
    ensures NamedEpoch(ts[i].step) == AfterAll(run, db, ts[..i]).workflow.epoch
    ensures AfterAll(run, db, ts[..i + 1]).workflow.epoch == NamedEpoch(ts[i].step) + 1
  {
    assert ts[..i + 1][..i] == ts[..i];
    StepCommitsOrNot(run, AfterAll(run, db, ts[..i]), ts[i]);
  }

  lemma EpochsGrow(run: Run, db: Db, ts: seq<Timed>, us: seq<Timed>)
    requires Faithful(run)
    ensures AfterAll(run, db, ts).workflow.epoch <= AfterAll(run, db, ts + us).workflow.epoch
  {
    AfterAllSplit(run, db, ts, us);
    RunExtends(run, AfterAll(run, db, ts), us);
  }

  /** Of all requests that name one epoch, at most one ever commits. */
  lemma OneCommitPerEpoch(run: Run, db: Db, ts: seq<Timed>, i: nat, j: nat)
    requires Faithful(run) && i < j < |ts|
    requires AfterAll(run, db, ts[..i + 1]).events != AfterAll(run, db, ts[..i]).events
    requires AfterAll(run, db, ts[..j + 1]).events != AfterAll(run, db, ts[..j]).events
    ensures NamedEpoch(ts[i].step) < NamedEpoch(ts[j].step)
  {
    CommitAt(run, db, ts, i);
    CommitAt(run, db, ts, j);
    assert ts[..j] == ts[..i + 1] + ts[i + 1..j];
    EpochsGrow(run, db, ts[..i + 1], ts[i + 1..j]);
  }

  /** The idempotency record a WebMCP request is looked up by. */
  function ReplayKey(step: Step): Option<(Route, string)> {
    match step
    case StageStep(call) => Some((ProposalRoute, call.key))
    case AssessStep(call, _, _) => Some((AssessmentRoute, call.key))
    case ApproveStep(_, _, _, _) => None
    case ExecuteStep(_, _, _) => None
    case UnavailableStep(_) => None
    case RetryStep(_, _) => None
    case ObserveStep(_, _, _) => None
    case DisposeStep(_) => None
    case RevokeStep(_) => None
    case ResetStep(_, _) => None
  }

  lemma CompletedKeyWritesNothing(run: Run, db: Db, t: Timed)
    requires ReplayKey(t.step).Some? && ReplayKey(t.step).value in db.replies
    ensures After(run, db, t) == db
  {
  }

  lemma CommitRecordsKey(run: Run, db: Db, t: Timed)
    requires ReplayKey(t.step).Some? && After(run, db, t) != db
    ensures ReplayKey(t.step).value in After(run, db, t).replies
  {
  }

  /** After a WebMCP request committed, the same key never writes again, whatever runs in between
      and whatever input it carries. */
  lemma ReplayedKeyWritesNothing(run: Run, db: Db, t: Timed, us: seq<Timed>, again: Timed)
    requires Faithful(run)
    requires ReplayKey(t.step).Some? && ReplayKey(again.step) == ReplayKey(t.step)
    requires After(run, db, t) != db
    ensures AfterAll(run, After(run, db, t), us + [again]) == AfterAll(run, After(run, db, t), us)
  {
    CommitRecordsKey(run, db, t);
    RunExtends(run, After(run, db, t), us);
    assert (us + [again])[..|us|] == us;
    CompletedKeyWritesNothing(run, AfterAll(run, After(run, db, t), us), again);
  }

  /** The digest of the input a WebMCP request carries. */
  function InputDigest(step: Step): Digest
    requires ReplayKey(step).Some?
  {
    match step
    case StageStep(call) => call.digest
    case AssessStep(call, _, _) => call.digest
  }

  /** A committed WebMCP request leaves its own input and the epoch it reached under its key. */
  lemma CommitIsRecorded(run: Run, db: Db, t: Timed)
    requires ReplayKey(t.step).Some? && After(run, db, t) != db
    ensures ReplayKey(t.step).value in After(run, db, t).replies
    ensures After(run, db, t).replies[ReplayKey(t.step).value]
            == Reply(InputDigest(t.step), After(run, db, t).workflow.epoch)
  {
  }

  /** What the proposal route and the assessment route check before they look at the record. */
  predicate RouteReady(run: Run, db: Db, route: Route) {
    match route
    case ProposalRoute => run.actionHash.Some? && run.requiresApproval
    case AssessmentRoute =>
      && db.execution.Some? && db.postcheck.Some?
      && var o, v := db.postcheck.value.observation, db.postcheck.value.verdict;
      && o.proposalHash == db.execution.value.proposalHash && o.executionDigest == db.execution.value.digest
      && v.observationDigest == o.digest
  }

  lemma CommitWasReady(run: Run, db: Db, t: Timed)
    requires Faithful(run) && ReplayKey(t.step).Some? && After(run, db, t) != db
    ensures RouteReady(run, After(run, db, t), ReplayKey(t.step).value.0)
  {
    StepCommitsOrNot(run, db, t);
  }

  lemma RecordAnswers(run: Run, db: Db, again: Timed)
    requires ReplayKey(again.step).Some? && ReplayKey(again.step).value in db.replies
    requires RouteReady(run, db, ReplayKey(again.step).value.0)
    ensures Transact(run, db, again).Ok? <==> db.replies[ReplayKey(again.step).value].requestDigest == InputDigest(again.step)
    ensures Transact(run, db, again).Ok? ==> Transact(run, db, again).value == db
  {
  }

  /** After a WebMCP request committed, whatever runs in between, a request under its key is answered
      exactly when it carries the same input, and the answer is the first one's record: nothing
      changes, and the epoch it names is the one the first request reached. */
  lemma RepeatedKeyIsAnsweredIff(run: Run, db: Db, t: Timed, us: seq<Timed>, again: Timed)
    requires Faithful(run)
    requires ReplayKey(t.step).Some? && ReplayKey(again.step) == ReplayKey(t.step)
    requires After(run, db, t) != db
    ensures var later := AfterAll(run, After(run, db, t), us);
            && (Transact(run, later, again).Ok? <==> InputDigest(again.step) == InputDigest(t.step))
            && (Transact(run, later, again).Ok? ==> Transact(run, later, again).value == later)
            && ReplayKey(t.step).value in later.replies
            && later.replies[ReplayKey(t.step).value] == Reply(InputDigest(t.step), db.workflow.epoch + 1)
  {
    var later := AfterAll(run, After(run, db, t), us);
    CommitIsRecorded(run, db, t);
    CommitWasReady(run, db, t);
    EpochAfterCommit(run, db, t);
    ReadyStays(run, After(run, db, t), us, ReplayKey(t.step).value.0);
    RecordStays(run, After(run, db, t), us, ReplayKey(t.step).value);
    RecordAnswers(run, later, again);
  }

  lemma EpochAfterCommit(run: Run, db: Db, t: Timed)
    requires Faithful(run) && ReplayKey(t.step).Some? && After(run, db, t) != db
    ensures After(run, db, t).workflow.epoch == db.workflow.epoch + 1
  {
    StepCommitsOrNot(run, db, t);
  }

  lemma ReadyStays(run: Run, db: Db, us: seq<Timed>, route: Route)
    requires Faithful(run) && RouteReady(run, db, route)
    ensures RouteReady(run, AfterAll(run, db, us), route)
  {
    RunExtends(run, db, us);
  }

  lemma RecordStays(run: Run, db: Db, us: seq<Timed>, key: (Route, string))
    requires Faithful(run) && key in db.replies
    ensures key in AfterAll(run, db, us).replies && AfterAll(run, db, us).replies[key] == db.replies[key]
  {
    RunExtends(run, db, us);
  }

  /** In particular a request repeated after it committed is never refused. */
  lemma RepeatIsNeverRefused(run: Run, db: Db, t: Timed, us: seq<Timed>)
    requires Faithful(run) && ReplayKey(t.step).Some? && After(run, db, t) != db
    ensures Transact(run, AfterAll(run, After(run, db, t), us), t).Ok?
  {
    RepeatedKeyIsAnsweredIff(run, db, t, us, t);
  }

  /** An accepted reset is the last thing that ever happens to the run. */
  lemma NothingFollowsReset(run: Run, db: Db, t: Timed, ts: seq<Timed>)
    requires Faithful(run) && t.step.ResetStep? && Transact(run, db, t).Ok?
    ensures AfterAll(run, After(run, db, t), ts) == After(run, db, t)
  {
    RunExtends(run, After(run, db, t), ts);
  }

  lemma ReviewedTargetIsHead(run: Run, id: Uuid, start: int, ts: seq<Timed>)
    requires Faithful(run) && Admissible(start, ts)
    requires Reached(run, id, start, ts).workflow.state == Reviewed && Reached(run, id, start, ts).active
    ensures var db := Reached(run, id, start, ts); db.receipt.Some? && db.receipt.value.sequence == |db.events|
  {
    var db := Reached(run, id, start, ts);
    ReachableInv(run, id, start, ts);
    ActiveTogether(run, id, start, ts);
    var v :| ReviewedBy(run, db, v);
    assert LinkOk(run.hash, db.events, |db.events| - 1);
  }

  lemma ResetLeavesAllButTheHead(run: Run, db: Db, t: Timed)
    requires Faithful(run) && t.step.ResetStep? && Transact(run, db, t).Ok?
    ensures var db' := After(run, db, t);
            db'.receipt == db.receipt && db'.memory == db.memory && |db'.events| == |db.events| + 1 && db.events <= db'.events
  {
    var e := ResetAppends(run, db, t.step.subject, t.step.epoch, t.id, t.now);
  }

  /** A run that is reviewed and then reset before its receipt is finalized keeps its receipt target
      and its memory as they were, but the target never resolves again, whatever follows and
      whenever the receipt was requested: the reset's event stands behind the reviewed head. */
  lemma ResetNeverLoads(run: Run, id: Uuid, start: int, ts: seq<Timed>, t: Timed, us: seq<Timed>, requestedAt: int)
    requires Faithful(run) && Admissible(start, ts)
    requires Reached(run, id, start, ts).workflow.state == Reviewed && Reached(run, id, start, ts).active
    requires t.step.ResetStep? && Transact(run, Reached(run, id, start, ts), t).Ok?
    ensures var db := Reached(run, id, start, ts);
            var after := AfterAll(run, After(run, db, t), us);
            && db.receipt.Some? && after.receipt == db.receipt && after.memory == db.memory
            && |after.events| == |db.events| + 1 && db.events <= after.events
            && LoadMaterial(after, after.receipt.value, requestedAt).Err?
  {
    var db := Reached(run, id, start, ts);
    ReviewedTargetIsHead(run, id, start, ts);
    ResetLeavesAllButTheHead(run, db, t);
    NothingFollowsReset(run, db, t, us);
  }

  // ----- approval and order -----

  /** No state at or past APPROVED_AWAITING_EXECUTION without the one stored approval, given and
      bound to the workflow's proposal. */
  lemma NoPassageWithoutApproval(run: Run, id: Uuid, start: int, ts: seq<Timed>)
    requires Faithful(run) && Admissible(start, ts)
    ensures var db := Reached(run, id, start, ts);
            Rank(db.workflow.state) >= Rank(ApprovedAwaitingExecution) ==>
              && db.approval.Some? && db.approval.value.approved
              && db.workflow.proposalHash == Some(db.approval.value.proposalHash)
  {
    ReachableInv(run, id, start, ts);
  }

  /** A rejected run never gets past AWAITING_OPERATOR_APPROVAL, however often it is re-proposed. */
  lemma RejectionIsFinal(run: Run, id: Uuid, start: int, ts: seq<Timed>, us: seq<Timed>)
    requires Faithful(run) && Admissible(start, ts + us)
    requires Reached(run, id, start, ts).approval.Some? && !Reached(run, id, start, ts).approval.value.approved
    ensures Reached(run, id, start, ts + us).workflow.state in {Investigating, AwaitingOperatorApproval}
    ensures Reached(run, id, start, ts + us).approval == Reached(run, id, start, ts).approval
  {
    AfterAllSplit(run, Allocate(run, id, start), ts, us);
    RunExtends(run, Reached(run, id, start, ts), us);
    ReachableInv(run, id, start, ts + us);
  }

  /** Every trace to REVIEWED shows propose, approve, execute, observe, assess, review, in order. */
  lemma ReviewedTookEveryMilestone(run: Run, id: Uuid, start: int, ts: seq<Timed>) returns (at: seq<nat>)
    requires Faithful(run) && Admissible(start, ts)
    requires Reached(run, id, start, ts).workflow.state == Reviewed
    ensures |at| == 6 && MilestonesAt(Reached(run, id, start, ts).events, at)
  {
    ReachableInv(run, id, start, ts);
    at := DoneMeansInOrder(Reached(run, id, start, ts).events);
  }
}
