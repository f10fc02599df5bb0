/** The invariant of a judge run, and that every route's transaction keeps it.  What follows for whole
    runs is in JudgeTheorems. */
module RunInvariants {
  import opened Common
  import opened Canonical
  import opened Workflow
  import opened Ledger
  import opened Coordinator
  import opened Receipts
  import opened JudgeRun
  import G = Governance

  // ----- what the ledger's constructor guarantees -----

  ghost predicate Records(run: Run, events: seq<Event>, before: Snapshot, after: Snapshot, entry: Entry, now: int, e: Event) {
    && e.sequence == |events| + 1 && e.outcome == Accepted && e.recordedAt == now
    && e.runId == run.binding.runId && e.buildSha == run.binding.buildSha
    && e.policyVersion == run.binding.policyVersion
    && e.tenant == before.tenant && e.workflowId == before.workflowId
    && e.actorSubject == entry.actorSubject && e.actorRole == entry.actorRole && e.channel == entry.channel
    && e.epochBefore == before.epoch && e.epochAfter == after.epoch
    && e.stateBefore == OrText(entry.stateBefore, StateName(before.state))
    && e.stateAfter == StateName(after.state)
    && e.capabilitiesBefore == before.AvailableTools() && e.capabilitiesAfter == after.AvailableTools()
    && e.objectType == entry.objectType && e.objectId == entry.objectId && e.objectDigest == entry.objectDigest
    && e.reasonCode == entry.reasonCode
    && (entry.eventType.Some? && entry.eventType.value != "" ==> e.eventType == entry.eventType.value)
    && VerifyEvent(run.hash, e, HeadHash(events))
  }

  ghost predicate Faithful(run: Run) {
    forall events, before, after, entry, id, now ::
      Records(run, events, before, after, entry, now, run.write(events, before, after, entry, id, now))
  }

  lemma MakeRunIsFaithful(p: Primitives, binding: RunBinding, generation: nat, tenant: string, workflowId: Uuid,
                          operator: string, agent: string, actionHash: Option<Digest>, approval: bool, allowed: bool)
    ensures Faithful(MakeRun(p, binding, generation, tenant, workflowId, operator, agent, actionHash, approval, allowed))
  {
    var run := MakeRun(p, binding, generation, tenant, workflowId, operator, agent, actionHash, approval, allowed);
    forall events, before, after, entry, id, now
      ensures Records(run, events, before, after, entry, now, run.write(events, before, after, entry, id, now))
    {
      NextEventRecords(run, p, events, before, after, entry, id, now);
    }
  }

  lemma NextEventRecords(run: Run, p: Primitives, events: seq<Event>, before: Snapshot, after: Snapshot, entry: Entry, id: Uuid, now: int)
    requires run.hash == EventHasher(p)
    ensures Records(run, events, before, after, entry, now, NextEvent(p, run.binding, events, before, after, entry, id, now))
  {
  }

  // ----- the ledger half of the invariant -----

  function Last(events: seq<Event>): Event
    requires events != []
  {
    events[|events| - 1]
  }

  ghost predicate LedgerInv(run: Run, db: Db) {
    && ChainOk(run.hash, db.events)
    && InLockstep(db.workflow, db.events)
    && db.events[0].runId == run.binding.runId
    && db.events[0].buildSha == run.binding.buildSha
    && db.events[0].policyVersion == run.binding.policyVersion
    && db.events[0].tenant == db.workflow.tenant
    && db.events[0].workflowId == db.workflow.workflowId
    && db.workflow.proposalHash == run.actionHash
  }

  /** One event appended for one epoch keeps the ledger half, whatever the move. */
  lemma AppendKeepsLedger(run: Run, db: Db, db': Db, entry: Entry, e: Event, now: int)
    requires LedgerInv(run, db)
    requires Records(run, db.events, db.workflow, db'.workflow, entry, now, e)
    requires entry.stateBefore.None? && entry.channel == ExpectedChannel(entry.actorRole)
    requires db'.events == db.events + [e]
    requires db'.workflow.epoch == db.workflow.epoch + 1
    requires db'.workflow.tenant == db.workflow.tenant && db'.workflow.workflowId == db.workflow.workflowId
    requires db'.workflow.proposalHash == db.workflow.proposalHash
    requires now >= Last(db.events).recordedAt
    ensures LedgerInv(run, db')
  {
    ChainExtends(run.hash, db.events, e);
  }

  lemma AllocateLedger(run: Run, id: Uuid, now: int)
    requires Faithful(run)
    ensures LedgerInv(run, Allocate(run, id, now))
  {
    var db := Allocate(run, id, now);
    var e := db.events[0];
    var row := db.workflow;
    assert Records(run, [], BeforeGenesis(row), row, GENESIS_ENTRY, now, run.write([], BeforeGenesis(row), row, GENESIS_ENTRY, id, now));
    assert db.events[..0] == [];
    assert LinkOk(run.hash, db.events, 0);
  }

  // ----- one move -----

  /** A committed transition: `mid` is the run's rows after the transaction's own writes. */
  ghost predicate Move(run: Run, mid: Db, db': Db, from: State, to: State, entry: Entry, id: Uuid, now: int) {
    var after := MovedBy(mid.workflow, to, entry.actorRole, entry.actorSubject);
    && mid.workflow.active && mid.workflow.state == from
    && HoldsAuthority(from, entry.channel, entry.actorRole, false)
    && (from == PendingReview ==> mid.workflow.operatorSubject != Some(entry.actorSubject))
    && entry.stateBefore.None?
    && db' == mid.(workflow := after, events := mid.events + [run.write(mid.events, mid.workflow, after, entry, id, now)])
  }

  lemma AdvanceIsMove(run: Run, mid: Db, epoch: nat, from: State, to: State, entry: Entry, id: Uuid, now: int)
    requires Advance(run, mid, epoch, from, to, entry, id, now).Ok? && entry.stateBefore.None?
    ensures Move(run, mid, Advance(run, mid, epoch, from, to, entry, id, now).value, from, to, entry, id, now)
  {
  }

  lemma MoveKeepsLedger(run: Run, mid: Db, db': Db, from: State, to: State, entry: Entry, id: Uuid, now: int)
    requires Faithful(run) && LedgerInv(run, mid) && Move(run, mid, db', from, to, entry, id, now)
    requires now >= Last(mid.events).recordedAt
    ensures LedgerInv(run, db')
    ensures Records(run, mid.events, mid.workflow, db'.workflow, entry, now, Last(db'.events))
    ensures db'.events == mid.events + [Last(db'.events)]
  {
    var e := run.write(mid.events, mid.workflow, db'.workflow, entry, id, now);
    assert Records(run, mid.events, mid.workflow, db'.workflow, entry, now, e);
    AppendKeepsLedger(run, mid, db', entry, e, now);
  }

  // ----- progress: the six milestones in order -----

  function Rank(s: State): nat {
    match s
    case Investigating => 0
    case AwaitingOperatorApproval => 1
    case ApprovedAwaitingExecution => 2
    case ObservingPostcheck => 3
    case PostcheckUnavailable => 3
    case PostcheckReady => 4
    case PendingReview => 5
    case Reviewed => 6
  }

  datatype Edge = Edge(from: State, to: State, role: Role)

  /** Propose, approve, execute, observe, assess, review. */
  function Milestone(k: nat): Edge
    requires k < 6
  {
    if k == 0 then Edge(Investigating, AwaitingOperatorApproval, Agent)
    else if k == 1 then Edge(AwaitingOperatorApproval, ApprovedAwaitingExecution, Operator)
    else if k == 2 then Edge(ApprovedAwaitingExecution, ObservingPostcheck, Operator)
    else if k == 3 then Edge(ObservingPostcheck, PostcheckReady, SystemRole)
    else if k == 4 then Edge(PostcheckReady, PendingReview, Agent)
    else Edge(PendingReview, Reviewed, Reviewer)
  }

  predicate Takes(e: Event, edge: Edge) {
    e.stateBefore == StateName(edge.from) && e.stateAfter == StateName(edge.to) && e.actorRole == edge.role
  }

  /** How many milestones, in order, a ledger shows. */
  function Done(events: seq<Event>): (k: nat)
    ensures k <= 6
  {
    if events == [] then 0
    else
      var k := Done(events[..|events| - 1]);
      if k < 6 && Takes(Last(events), Milestone(k)) then k + 1 else k
  }

  /** Increasing positions at which the first |at| milestones stand. */
  predicate MilestonesAt(events: seq<Event>, at: seq<nat>) {
    && |at| <= 6
    && (forall i :: 0 <= i < |at| ==> at[i] < |events| && Takes(events[at[i]], Milestone(i)))
    && (forall i, j :: 0 <= i < j < |at| ==> at[i] < at[j])
  }

  lemma {:induction false} DoneMeansInOrder(events: seq<Event>) returns (at: seq<nat>)
    ensures |at| == Done(events) && MilestonesAt(events, at)
    decreases |events|
  {
    if events == [] {
      at := [];
    } else {
      var init := events[..|events| - 1];
      at := DoneMeansInOrder(init);
      if Done(events) > Done(init) {
        at := at + [|events| - 1];
      }
    }
  }

  ghost predicate ProgressInv(db: Db) {
    Done(db.events) >= Rank(db.workflow.state)
  }

  lemma AppendKeepsProgress(db: Db, db': Db, e: Event)
    requires ProgressInv(db) && db'.events == db.events + [e]
    requires Rank(db'.workflow.state) <= Rank(db.workflow.state)
             || (Rank(db.workflow.state) < 6 && Rank(db'.workflow.state) == Rank(db.workflow.state) + 1
                 && Takes(e, Milestone(Rank(db.workflow.state))))
    ensures ProgressInv(db')
  {
    assert db'.events[..|db.events|] == db.events;
  }

  // ----- records -----

  ghost predicate RecordsInv(run: Run, db: Db) {
    var r := Rank(db.workflow.state);
    && (r >= 1 ==> run.actionHash.Some?)
    && (db.approval.Some? ==> run.actionHash == Some(db.approval.value.proposalHash))
    && (r >= 2 ==> db.approval.Some? && db.approval.value.approved)
    && (db.execution.Some? <==> r >= 3)
    && (db.execution.Some? ==> run.actionHash == Some(db.execution.value.proposalHash))
    && (db.postcheck.Some? <==> r >= 4)
    && (r >= 4 ==> PostcheckBound(db.execution.value, db.postcheck.value))
    && (db.assessment.Some? <==> r >= 5)
    && (db.memory.Some? <==> r >= 5)
    && (r >= 5 ==> MemoryBound(db.postcheck.value, db.assessment.value, db.memory.value))
    && (r == 5 ==> db.memory.value.state == G.Pending)
  }

  predicate PostcheckBound(x: Execution, post: Postcheck) {
    && post.observation.executionDigest == x.digest
    && post.observation.proposalHash == x.proposalHash
    && post.verdict.observationDigest == post.observation.digest
  }

  predicate MemoryBound(post: Postcheck, a: Assessment, m: G.Memory) {
    && a.observationDigest == post.observation.digest
    && m.observationDigest == Some(post.observation.digest)
    && m.assessmentDigest == Some(a.digest)
    && m.verdictDigest == Some(post.verdict.digest)
  }

  // ----- first events carry the recorded objects -----

  function FirstOf(events: seq<Event>, s: State): Option<Event> {
    FirstInto(events, StateName(s))
  }

  lemma AppendFirsts(events: seq<Event>, e: Event, to: State, s: State)
    requires e.stateAfter == StateName(to)
    ensures FirstOf(events + [e], s)
            == if FirstOf(events, s).Some? then FirstOf(events, s) else if s == to then Some(e) else None
  {
    FirstIntoAppend(events, e, StateName(s));
    StateNamesDistinct(s, to);
  }

  /** The object that the first event into a state must name, from the rows recorded so far. */
  function Recorded(run: Run, db: Db, s: State): Option<Binding> {
    match s
    case AwaitingOperatorApproval => if run.actionHash.Some? then Some(Binding("proposal", run.actionHash.value)) else None
    case ApprovedAwaitingExecution => if run.actionHash.Some? then Some(Binding("proposal", run.actionHash.value)) else None
    case ObservingPostcheck =>
      if db.execution.None? then None
      else Some(Binding("execution_binding",
                        run.digests.execution(db.execution.value.digest, db.execution.value.proposalHash)))
    case PostcheckReady =>
      if db.postcheck.None? then None
      else
        var o := db.postcheck.value.observation;
        Some(Binding("observation_binding",
                     run.digests.observation(o.executionDigest, o.digest, db.postcheck.value.verdict.digest)))
    case PendingReview =>
      if db.memory.None? || db.memory.value.assessmentDigest.None? || db.memory.value.observationDigest.None?
         || db.memory.value.verdictDigest.None? then None
      else
        var m := db.memory.value;
        Some(Binding("outcome_binding",
                     run.digests.outcome(m.assessmentDigest.value, m.memoryDigest, m.observationDigest.value, m.verdictDigest.value)))
    case Reviewed => None
    case Investigating => None
    case PostcheckUnavailable => None
  }

  /** The states that carry a binding before review. */
  predicate Bound(s: State) {
    s != Investigating && s != PostcheckUnavailable && s != Reviewed
  }

  ghost predicate FirstOk(run: Run, db: Db, s: State) {
    var first := FirstOf(db.events, s);
    && (first.Some? && Bound(s) ==> Recorded(run, db, s).Some? && Carries(first.value, Recorded(run, db, s).value))
    && (Bound(s) && Rank(s) <= Rank(db.workflow.state) ==> first.Some?)
  }

  ghost predicate FirstsInv(run: Run, db: Db) {
    forall s :: FirstOk(run, db, s)
  }

  /** What one appended event must carry for the first-event invariant to survive: if it is the
      first into a bound state, the object recorded for that state. */
  lemma AppendKeepsFirsts(run: Run, db: Db, db': Db, e: Event)
    requires FirstsInv(run, db) && db'.events == db.events + [e]
    requires e.stateAfter == StateName(db'.workflow.state)
    requires forall s :: Recorded(run, db, s).Some? ==> Recorded(run, db', s) == Recorded(run, db, s)
    requires Rank(db'.workflow.state) <= Rank(db.workflow.state)
             || (Rank(db'.workflow.state) == Rank(db.workflow.state) + 1
                 && (Bound(db'.workflow.state) ==>
                       && Recorded(run, db', db'.workflow.state).Some?
                       && Carries(e, Recorded(run, db', db'.workflow.state).value))
                 && db'.workflow.state != PostcheckUnavailable)
    ensures FirstsInv(run, db')
  {
    forall s
      ensures FirstOk(run, db', s)
    {
      AppendFirsts(db.events, e, db'.workflow.state, s);
      assert FirstOk(run, db, s);
    }
  }

  // ----- subjects -----

  ghost predicate SubjectsInv(db: Db) {
    var operators, reviewers := Subjects(db.events, Operator), Subjects(db.events, Reviewer);
    && (db.workflow.operatorSubject.Some? ==> db.workflow.operatorSubject.value in operators)
    && (Rank(db.workflow.state) >= 2 ==> db.workflow.operatorSubject.Some?)
    && (db.workflow.state != Reviewed ==> reviewers == {})
    && (db.workflow.state == Reviewed ==>
          exists r :: reviewers == {r} && (db.workflow.active ==> db.workflow.operatorSubject != Some(r)))
  }

  lemma MoveKeepsSubjects(run: Run, mid: Db, db': Db, from: State, to: State, entry: Entry, e: Event)
    requires SubjectsInv(mid)
    requires mid.workflow.active && mid.workflow.state == from && from != Reviewed
    requires HoldsAuthority(from, entry.channel, entry.actorRole, false)
    requires from == PendingReview ==> mid.workflow.operatorSubject != Some(entry.actorSubject)
    requires to == Reviewed <==> from == PendingReview
    requires Rank(to) >= 2 ==> Rank(from) >= 2 || entry.actorRole == Operator
    requires entry.actorRole == Operator ==> entry.actorSubject != ""
    requires db'.events == mid.events + [e] && e.actorRole == entry.actorRole && e.actorSubject == entry.actorSubject
    requires db'.workflow == MovedBy(mid.workflow, to, entry.actorRole, entry.actorSubject)
    ensures SubjectsInv(db')
  {
    SubjectsAppend(mid.events, e, Operator);
    SubjectsAppend(mid.events, e, Reviewer);
    if from == PendingReview {
      assert Subjects(db'.events, Reviewer) == {entry.actorSubject};
    }
  }

  // ----- review -----

  predicate Revoked(m: G.Memory) {
    m.state == G.Revoked && !m.valid
  }

  predicate GovernedAs(m: G.Memory, d: Disposition) {
    match d
    case Certify => m.state == G.Active && m.valid
    case Quarantine => m.state == G.Quarantined && !m.valid
    case Reject => m.state == G.Rejected && !m.valid
  }

  ghost predicate ReviewedBy(run: Run, db: Db, v: Review)
    requires db.events != []
  {
    var last := Last(db.events);
    && FirstOf(db.events, Reviewed) == Some(last)
    && last.objectType == Some("review_binding")
    && last.objectId == Some(run.digests.decision(v))
    && last.objectDigest == Some(run.digests.review(v.decision, v.memoryDigest, run.digests.decision(v)))
    && last.reasonCode == ReasonFor(v.decision)
    && db.memory.Some? && db.memory.value.memoryDigest == v.memoryDigest
    && (Revoked(db.memory.value) ==> v.decision == Certify)
    && (!Revoked(db.memory.value) ==> GovernedAs(db.memory.value, v.decision))
    && db.receipt == Some(ReceiptTarget(last.sequence, last.eventHash))
  }

  ghost predicate ReviewInv(run: Run, db: Db)
    requires db.events != []
  {
    && (db.workflow.state != Reviewed ==> FirstOf(db.events, Reviewed).None? && db.receipt.None?)
    && (db.workflow.state == Reviewed && db.workflow.active ==> exists v :: ReviewedBy(run, db, v))
  }

  // ----- the invariant -----

  ghost predicate Inv(run: Run, db: Db) {
    && LedgerInv(run, db) && ProgressInv(db) && RecordsInv(run, db) && FirstsInv(run, db)
    && SubjectsInv(db) && ReviewInv(run, db)
  }

  /** The move either stays within reach already, or takes the next milestone and carries the
      object recorded for the state it enters. */
  ghost predicate Earned(run: Run, mid: Db, to: State, entry: Entry) {
    var from := mid.workflow.state;
    || Rank(to) <= Rank(from)
    || (&& Rank(from) < 5 && Milestone(Rank(from)) == Edge(from, to, entry.actorRole)
        && entry.objectType.Some? && entry.objectDigest.Some?
        && Recorded(run, mid, to) == Some(Binding(entry.objectType.value, entry.objectDigest.value)))
  }

  /** The transaction only added records. */
  ghost predicate Grows(run: Run, db: Db, mid: Db) {
    && mid.workflow == db.workflow && mid.events == db.events && mid.receipt == db.receipt
    && forall s :: Recorded(run, db, s).Some? ==> Recorded(run, mid, s) == Recorded(run, db, s)
  }

  lemma EarnedKeepsFirsts(run: Run, db: Db, mid: Db, db': Db, to: State, entry: Entry, e: Event)
    requires FirstsInv(run, db) && Grows(run, db, mid) && Earned(run, mid, to, entry)
    requires ProgressInv(db)
    requires db'.workflow.state == to && db'.events == db.events + [e]
    requires db' == mid.(workflow := db'.workflow, events := db'.events)
    requires e.stateBefore == StateName(db.workflow.state) && e.stateAfter == StateName(to) && e.actorRole == entry.actorRole
    requires e.objectType == entry.objectType && e.objectDigest == entry.objectDigest
    ensures FirstsInv(run, db') && ProgressInv(db')
  {
    AppendKeepsProgress(db, db', e);
    forall s
      ensures Recorded(run, mid, s) == Recorded(run, db', s)
    {
    }
    AppendKeepsFirsts(run, db, db', e);
  }

  /** Every move but the reviewer's: what its route must show about the rows it wrote. */
  lemma MoveKeepsInv(run: Run, db: Db, mid: Db, db': Db, to: State, entry: Entry, id: Uuid, now: int)
    requires Faithful(run) && Inv(run, db) && Grows(run, db, mid)
    requires Move(run, mid, db', db.workflow.state, to, entry, id, now)
    requires now >= Last(db.events).recordedAt
    requires entry.actorRole == Operator ==> entry.actorSubject != ""
    requires db.workflow.state != PendingReview && db.workflow.state != Reviewed && to != Reviewed
    requires Earned(run, mid, to, entry)
    requires RecordsInv(run, db')
    ensures Inv(run, db')
  {
    assert LedgerInv(run, mid);
    MoveKeepsLedger(run, mid, db', db.workflow.state, to, entry, id, now);
    var e := Last(db'.events);
    EarnedKeepsFirsts(run, db, mid, db', to, entry, e);
    assert SubjectsInv(mid);
    MoveKeepsSubjects(run, mid, db', db.workflow.state, to, entry, e);
    AppendFirsts(db.events, e, to, Reviewed);
  }

  // ----- every step keeps the invariant -----

  ghost predicate Timely(db: Db, now: int)
    requires db.events != []
  {
    now >= Last(db.events).recordedAt
  }

  lemma RepliesDoNotMatter(run: Run, db: Db, replies: map<(Route, string), Reply>)
    requires Inv(run, db)
    ensures Inv(run, db.(replies := replies))
  {
    var db' := db.(replies := replies);
    forall s
      ensures FirstOk(run, db', s)
    {
      assert FirstOk(run, db, s);
    }
    if db.workflow.state == Reviewed && db.workflow.active {
      var v :| ReviewedBy(run, db, v);
      assert ReviewedBy(run, db', v);
    }
  }

  lemma IdempotentKeepsInv(run: Run, db: Db, route: Route, call: Call, operation: Result<Db>)
    requires Inv(run, db)
    requires operation.Ok? ==> Inv(run, operation.value)
    ensures Idempotent(db, route, call, operation).Ok? ==> Inv(run, Idempotent(db, route, call, operation).value)
  {
    var r := Idempotent(db, route, call, operation);
    if r.Ok? && (route, call.key) !in db.replies {
      RepliesDoNotMatter(run, operation.value, r.value.replies);
    }
  }

  lemma StageKeepsInv(run: Run, db: Db, call: Call, id: Uuid, now: int)
    requires Faithful(run) && Inv(run, db) && Timely(db, now)
    ensures Stage(run, db, call, id, now).Ok? ==> Inv(run, Stage(run, db, call, id, now).value)
  {
    if run.actionHash.Some? {
      var operation := StageOperation(run, db, call, id, now);
      if operation.Ok? {
        var entry := AgentEntry(run, "PROPOSAL_STAGED", "proposal", run.actionHash.value);
        AdvanceIsMove(run, db, call.readEpoch, Investigating, AwaitingOperatorApproval, entry, id, now);
        MoveKeepsInv(run, db, db, operation.value, AwaitingOperatorApproval, entry, id, now);
      }
      IdempotentKeepsInv(run, db, ProposalRoute, call, operation);
    }
  }

  lemma ApprovalEarns(run: Run, db: Db, mid: Db, db': Db, a: Approval, to: State, entry: Entry)
    requires RecordsInv(run, db) && db.workflow.state == AwaitingOperatorApproval
    requires run.actionHash == Some(a.proposalHash) && mid == db.(approval := Some(a))
    requires to == (if a.approved then ApprovedAwaitingExecution else Investigating)
    requires entry == OperatorEntry(entry.actorSubject, entry.reasonCode, Some("proposal"), Some(a.proposalHash))
    requires db'.workflow.state == to && db' == mid.(workflow := db'.workflow, events := db'.events)
    ensures Grows(run, db, mid) && Earned(run, mid, to, entry) && RecordsInv(run, db')
  {
  }

  lemma ApproveKeepsInv(run: Run, db: Db, subject: string, epoch: nat, approved: bool, hash: Digest, id: Uuid, now: int)
    requires Faithful(run) && Inv(run, db) && Timely(db, now) && subject != ""
    ensures var r := Approve(run, db, subject, epoch, approved, hash, id, now); r.Ok? ==> Inv(run, r.value)
  {
    var r := Approve(run, db, subject, epoch, approved, hash, id, now);
    if r.Ok? {
      var mid := db.(approval := Some(Approval(approved, hash, subject)));
      var to := if approved then ApprovedAwaitingExecution else Investigating;
      var entry := OperatorEntry(subject, if approved then "PROPOSAL_APPROVED" else "PROPOSAL_REJECTED", Some("proposal"), Some(hash));
      AdvanceIsMove(run, mid, epoch, AwaitingOperatorApproval, to, entry, id, now);
      ApprovalEarns(run, db, mid, r.value, mid.approval.value, to, entry);
      MoveKeepsInv(run, db, mid, r.value, to, entry, id, now);
    }
  }

  lemma ExecutionEarns(run: Run, db: Db, mid: Db, db': Db, x: Execution, entry: Entry)
    requires RecordsInv(run, db) && db.workflow.state == ApprovedAwaitingExecution
    requires run.actionHash == Some(x.proposalHash) && mid == db.(execution := Some(x))
    requires entry == OperatorEntry(entry.actorSubject, entry.reasonCode, Some("execution_binding"),
                                    Some(run.digests.execution(x.digest, x.proposalHash)))
    requires db'.workflow.state == ObservingPostcheck
    requires db' == mid.(workflow := db'.workflow, events := db'.events)
    ensures Grows(run, db, mid) && Earned(run, mid, ObservingPostcheck, entry) && RecordsInv(run, db')
  {
  }

  lemma ExecuteKeepsInv(run: Run, db: Db, subject: string, epoch: nat, x: Execution, id: Uuid, now: int)
    requires Faithful(run) && Inv(run, db) && Timely(db, now) && subject != ""
    ensures var r := Execute(run, db, subject, epoch, x, id, now); r.Ok? ==> Inv(run, r.value)
  {
    var r := Execute(run, db, subject, epoch, x, id, now);
    if r.Ok? {
      var mid := db.(execution := Some(x));
      var entry := OperatorEntry(subject, "SANDBOX_EXECUTION_APPLIED", Some("execution_binding"),
                                 Some(run.digests.execution(x.digest, x.proposalHash)));
      AdvanceIsMove(run, mid, epoch, ApprovedAwaitingExecution, ObservingPostcheck, entry, id, now);
      ExecutionEarns(run, db, mid, r.value, x, entry);
      MoveKeepsInv(run, db, mid, r.value, ObservingPostcheck, entry, id, now);
    }
  }

  lemma UnavailableKeepsInv(run: Run, db: Db, epoch: nat, id: Uuid, now: int)
    requires Faithful(run) && Inv(run, db) && Timely(db, now)
    ensures var r := MarkUnavailable(run, db, epoch, id, now); r.Ok? ==> Inv(run, r.value)
  {
    var r := MarkUnavailable(run, db, epoch, id, now);
    if r.Ok? {
      var entry := SystemEntry("STATE_TRANSITION_ACCEPTED", None, None);
      AdvanceIsMove(run, db, epoch, ObservingPostcheck, PostcheckUnavailable, entry, id, now);
      MoveKeepsInv(run, db, db, r.value, PostcheckUnavailable, entry, id, now);
    }
  }

  lemma RetryKeepsInv(run: Run, db: Db, subject: string, epoch: nat, id: Uuid, now: int)
    requires Faithful(run) && Inv(run, db) && Timely(db, now) && subject != ""
    ensures var r := StartRetry(run, db, subject, epoch, id, now); r.Ok? ==> Inv(run, r.value)
  {
    var r := StartRetry(run, db, subject, epoch, id, now);
    if r.Ok? {
      var entry := OperatorEntry(subject, "STATE_TRANSITION_ACCEPTED", None, None);
      AdvanceIsMove(run, db, epoch, PostcheckUnavailable, ObservingPostcheck, entry, id, now);
      MoveKeepsInv(run, db, db, r.value, ObservingPostcheck, entry, id, now);
    }
  }

  lemma ObserveKeepsInv(run: Run, db: Db, epoch: nat, digest: Digest, verdict: Digest, id: Uuid, now: int)
    requires Faithful(run) && Inv(run, db) && Timely(db, now)
    ensures var r := Observe(run, db, epoch, digest, verdict, id, now); r.Ok? ==> Inv(run, r.value)
  {
    var r := Observe(run, db, epoch, digest, verdict, id, now);
    if r.Ok? {
      var post := Collect(db.execution.value, digest, verdict);
      var mid := db.(postcheck := Some(post));
      var entry := SystemEntry("VERIFIED_OBSERVATION_RECORDED", Some("observation_binding"),
                               Some(run.digests.observation(post.observation.executionDigest, digest, verdict)));
      AdvanceIsMove(run, mid, epoch, ObservingPostcheck, PostcheckReady, entry, id, now);
      MoveKeepsInv(run, db, mid, r.value, PostcheckReady, entry, id, now);
    }
  }

  lemma AssessmentEarns(run: Run, db: Db, mid: Db, db': Db, a: Assessment, m: G.Memory, entry: Entry)
    requires RecordsInv(run, db) && db.workflow.state == PostcheckReady
    requires MemoryBound(db.postcheck.value, a, m) && m.state == G.Pending
    requires mid == db.(assessment := Some(a), memory := Some(m))
    requires entry == AgentEntry(run, entry.reasonCode, "outcome_binding",
                                 run.digests.outcome(a.digest, m.memoryDigest, m.observationDigest.value, m.verdictDigest.value))
    requires db'.workflow.state == PendingReview
    requires db' == mid.(workflow := db'.workflow, events := db'.events)
    ensures Grows(run, db, mid) && Earned(run, mid, PendingReview, entry) && RecordsInv(run, db')
  {
  }

  lemma AssessOperationKeepsInv(run: Run, db: Db, call: Call, a: Assessment, m: G.Memory, id: Uuid, now: int)
    requires Faithful(run) && Inv(run, db) && Timely(db, now)
    requires db.postcheck.Some? && a.observationDigest == db.postcheck.value.observation.digest
    requires MemoryBound(db.postcheck.value, a, m) && m.state == G.Pending
    ensures var r := AssessOperation(run, db, call, a, m, id, now); r.Ok? ==> Inv(run, r.value)
  {
    var r := AssessOperation(run, db, call, a, m, id, now);
    if r.Ok? {
      var mid := db.(assessment := Some(a), memory := Some(m));
      var entry := AgentEntry(run, "POSTCHECK_ASSESSMENT_RECORDED", "outcome_binding",
                              run.digests.outcome(a.digest, m.memoryDigest, m.observationDigest.value, m.verdictDigest.value));
      assert db.workflow.state == PostcheckReady && db.memory.None? && db.assessment.None?;
      AdvanceIsMove(run, mid, call.readEpoch, PostcheckReady, PendingReview, entry, id, now);
      AssessmentEarns(run, db, mid, r.value, a, m, entry);
      MoveKeepsInv(run, db, mid, r.value, PendingReview, entry, id, now);
    }
  }

  lemma AssessKeepsInv(run: Run, db: Db, call: Call, a: Assessment, m: G.Memory, id: Uuid, now: int)
    requires Faithful(run) && Inv(run, db) && Timely(db, now)
    ensures var r := Assess(run, db, call, a, m, id, now); r.Ok? ==> Inv(run, r.value)
  {
    if db.postcheck.Some? {
      var assessment := a.(subject := run.agentSubject, observationDigest := db.postcheck.value.observation.digest);
      var prepared := PrepareOutcome(db, db.postcheck.value, assessment, m);
      if prepared.Ok? {
        AssessOperationKeepsInv(run, db, call, assessment, prepared.value, id, now);
        IdempotentKeepsInv(run, db, AssessmentRoute, call, AssessOperation(run, db, call, assessment, prepared.value, id, now));
      }
    }
  }

  /** The reviewer's move. */
  lemma DisposeKeepsInv(run: Run, db: Db, v: Review, id: Uuid, now: int)
    requires Faithful(run) && Inv(run, db) && Timely(db, now)
    ensures var r := Dispose(run, db, v, id, now); r.Ok? ==> Inv(run, r.value)
  {
    var r := Dispose(run, db, v, id, now);
    if r.Ok? {
      var m := db.memory.value;
      var request := G.Request(run.tenant, v.subject, GovernanceAction(v.decision), ReasonText(v.note, v.reasonCode), v.reasonCode, None);
      var target := G.GovernanceTarget(m, request, [m], now);
      var mid := db.(memory := Some(G.Governed(m, request, target.value, now)));
      AdvanceIsMove(run, mid, v.readEpoch, PendingReview, Reviewed, ReviewEntry(run, v), id, now);
      ReviewMoveKeepsInv(run, db, mid, Advance(run, mid, v.readEpoch, PendingReview, Reviewed, ReviewEntry(run, v), id, now).value, r.value, v, id, now);
    }
  }

  lemma RevokeKeepsInv(run: Run, db: Db, v: Revocation, now: int)
    requires Inv(run, db)
    ensures var r := Revoke(run, db, v, now); r.Ok? ==> Inv(run, r.value)
  {
    var r := Revoke(run, db, v, now);
    if r.Ok? {
      RevocationKeepsInv(run, db, r.value);
    }
  }

  lemma RevocationKeepsInv(run: Run, db: Db, db': Db)
    requires Inv(run, db) && db.workflow.state == Reviewed && db.workflow.active
    requires db'.memory.Some? && db' == db.(memory := db'.memory) && Revoked(db'.memory.value)
    requires var m, m' := db.memory.value, db'.memory.value;
             && m'.memoryDigest == m.memoryDigest && m'.observationDigest == m.observationDigest
             && m'.assessmentDigest == m.assessmentDigest && m'.verdictDigest == m.verdictDigest
             && m.state == G.Active
    ensures Inv(run, db')
  {
    forall s
      ensures FirstOk(run, db', s)
    {
      assert FirstOk(run, db, s);
    }
    var v :| ReviewedBy(run, db, v);
    assert ReviewedBy(run, db', v);
  }

  lemma ReviewMoveKeepsInv(run: Run, db: Db, mid: Db, moved: Db, db': Db, v: Review, id: Uuid, now: int)
    requires Faithful(run) && Inv(run, db) && Timely(db, now)
    requires db.workflow.state == PendingReview && db.memory.Some?
    requires mid.memory.Some? && mid == db.(memory := mid.memory)
    requires var m, m' := db.memory.value, mid.memory.value;
             && m'.memoryDigest == m.memoryDigest == v.memoryDigest && m'.observationDigest == m.observationDigest
             && m'.assessmentDigest == m.assessmentDigest && m'.verdictDigest == m.verdictDigest
             && m'.state == G.TargetOf(GovernanceAction(v.decision)) && m'.valid == (m'.state == G.Active)
    requires Move(run, mid, moved, PendingReview, Reviewed, ReviewEntry(run, v), id, now)
    requires db' == moved.(receipt := Some(ReceiptTarget(Last(moved.events).sequence, Last(moved.events).eventHash)))
    ensures Inv(run, db')
  {
    assert LedgerInv(run, mid);
    MoveKeepsLedger(run, mid, moved, PendingReview, Reviewed, ReviewEntry(run, v), id, now);
    var e := Last(moved.events);
    AppendKeepsProgress(db, db', e);
    forall s
      ensures Recorded(run, db, s) == Recorded(run, db', s)
    {
    }
    AppendKeepsFirsts(run, db, db', e);
    assert SubjectsInv(mid);
    MoveKeepsSubjects(run, mid, moved, PendingReview, Reviewed, ReviewEntry(run, v), e);
    AppendFirsts(db.events, e, Reviewed, Reviewed);
    assert ReviewedBy(run, db', v);
  }

  function ResetEntry(subject: string): Entry {
    Entry(subject, Operator, Ui, "WORKFLOW_RESET_ACCEPTED")
  }

  lemma ResetAppends(run: Run, db: Db, subject: string, epoch: nat, id: Uuid, now: int) returns (e: Event)
    requires Faithful(run) && Reset(run, db, subject, epoch, id, now).Ok?
    ensures Reset(run, db, subject, epoch, id, now).value
            == db.(active := false, workflow := Invalidated(db.workflow), events := db.events + [e])
    ensures Records(run, db.events, db.workflow, Invalidated(db.workflow), ResetEntry(subject), now, e)
  {
    e := run.write(db.events, db.workflow, Invalidated(db.workflow), ResetEntry(subject), id, now);
  }

  lemma ResetKeepsInv(run: Run, db: Db, subject: string, epoch: nat, id: Uuid, now: int)
    requires Faithful(run) && Inv(run, db) && Timely(db, now)
    ensures var r := Reset(run, db, subject, epoch, id, now); r.Ok? ==> Inv(run, r.value)
  {
    var r := Reset(run, db, subject, epoch, id, now);
    if r.Ok? {
      var e := ResetAppends(run, db, subject, epoch, id, now);
      InvalidationKeepsInv(run, db, r.value, ResetEntry(subject), e, now);
    }
  }

  lemma InvalidationKeepsInv(run: Run, db: Db, db': Db, entry: Entry, e: Event, now: int)
    requires Inv(run, db) && Timely(db, now)
    requires entry == Entry(entry.actorSubject, Operator, Ui, "WORKFLOW_RESET_ACCEPTED")
    requires Records(run, db.events, db.workflow, db'.workflow, entry, now, e)
    requires db' == db.(active := false, workflow := Invalidated(db.workflow), events := db.events + [e])
    ensures Inv(run, db')
  {
    AppendKeepsLedger(run, db, db', entry, e, now);
    AppendKeepsProgress(db, db', e);
    InvalidationKeepsFirsts(run, db, db', e);
    InvalidationKeepsSubjects(run, db, db', e);
  }

  lemma InvalidationKeepsFirsts(run: Run, db: Db, db': Db, e: Event)
    requires FirstsInv(run, db) && db.events != [] && ReviewInv(run, db)
    requires db'.events == db.events + [e] && e.stateAfter == StateName(db.workflow.state)
    requires db'.workflow.state == db.workflow.state && !db'.workflow.active
    requires db' == db.(active := db'.active, workflow := db'.workflow, events := db'.events)
    ensures FirstsInv(run, db') && ReviewInv(run, db')
  {
    forall s
      ensures Recorded(run, db, s) == Recorded(run, db', s)
    {
    }
    AppendKeepsFirsts(run, db, db', e);
    AppendFirsts(db.events, e, db.workflow.state, Reviewed);
  }

  lemma InvalidationKeepsSubjects(run: Run, db: Db, db': Db, e: Event)
    requires SubjectsInv(db)
    requires db'.events == db.events + [e] && e.actorRole == Operator
    requires db'.workflow == Invalidated(db.workflow)
    ensures SubjectsInv(db')
  {
    SubjectsAppend(db.events, e, Operator);
    SubjectsAppend(db.events, e, Reviewer);
  }
}
