/** Runs that reach REVIEWED, for any two operator subjects and any decision, and that go on to revoke
    the memory: the protocol theorem is not vacuous, and each of its conditions is needed. */
module JudgeWitness {
  import opened Common
  import opened Canonical
  import opened Workflow
  import opened Ledger
  import opened Coordinator
  import opened Receipts
  import opened JudgeRun
  import opened RunInvariants
  import opened JudgeTheorems
  import G = Governance

  /** What one straight run is made of. */
  datatype Script = Script(approver: string, executor: string, reviewer: string, hash: Digest, execution: Execution,
                           observation: Digest, verdict: Digest, assessment: Assessment, memory: G.Memory, decision: Disposition, note: string, id: Uuid, now: int)

  ghost predicate Playable(run: Run, s: Script) {
    && Faithful(run) && run.actionHash == Some(s.hash) && s.execution.proposalHash == s.hash
    && run.requiresApproval && run.commandAllowed
    && s.approver != "" && s.executor != "" && (s.decision == Certify ==> s.memory.outcomeScore != 0.0)
    && s.reviewer != run.operatorSubject && s.reviewer != run.agentSubject && s.reviewer != s.executor && s.reviewer != s.approver
  }

  /** The k-th request of the straight run. */
  function Line(s: Script, k: nat): Timed
    requires k < 7
  {
    Timed(if k == 0 then StageStep(Call("s", s.hash, 1, Some(1)))
          else if k == 1 then ApproveStep(s.approver, 2, true, s.hash)
          else if k == 2 then ExecuteStep(s.executor, 3, s.execution)
          else if k == 3 then ObserveStep(4, s.observation, s.verdict)
          else if k == 4 then AssessStep(Call("a", s.hash, 5, Some(5)), s.assessment, s.memory)
          else if k == 5 then DisposeStep(FinalReview(s))
          else RevokeStep(FinalRevocation(s)),
          s.id, s.now)
  }

  function FinalReview(s: Script): Review {
    Review(s.reviewer, 6, Some(6), s.memory.memoryDigest, s.decision,
           if s.decision == Certify then G.EvidenceAccepted else G.NeedsInvestigation, s.note)
  }

  function FinalRevocation(s: Script): Revocation {
    Revocation(s.reviewer, 7, Some(7), s.memory.memoryDigest, G.PolicyChange, s.note)
  }

  function Lines(s: Script, k: nat): seq<Timed>
    requires k <= 7
  {
    seq(k, i requires 0 <= i < k => Line(s, i))
  }

  /** Where a straight run stands after k steps, subjects aside. */
  const PATH := [Investigating, AwaitingOperatorApproval, ApprovedAwaitingExecution, ObservingPostcheck,
                 PostcheckReady, PendingReview]

  ghost predicate StandsAside(run: Run, s: Script, db: Db, k: nat)
    requires k <= 5
  {
    && db.active && db.workflow.active && db.workflow.epoch == k + 1 && db.workflow.state == PATH[k]
    && db.workflow.proposalHash == run.actionHash
    && db.workflow.operatorSubject == (if k < 2 then None else if k == 2 then Some(s.approver) else Some(s.executor))
    && (k < 1 ==> db.replies == map[])
    && (k < 2 ==> db.approval.None?)
    && (k >= 2 ==> db.approval.Some? && db.approval.value.approved && db.approval.value.proposalHash == s.hash)
    && (k < 3 ==> db.execution.None?)
    && (k >= 3 ==> db.execution == Some(s.execution))
    && (k < 4 ==> db.postcheck.None?)
    && (k >= 4 ==> db.postcheck == Some(Collect(s.execution, s.observation, s.verdict)))
    && (k < 5 ==> db.assessment.None? && db.memory.None? && (AssessmentRoute, "a") !in db.replies)
    && (k == 5 ==> db.memory.Some? && db.memory.value.state == G.Pending
                   && db.memory.value.memoryDigest == s.memory.memoryDigest
                   && db.memory.value.outcomeScore == s.memory.outcomeScore
                   && db.memory.value.expiresAt == s.memory.expiresAt
                   && db.memory.value.observedBy == Some(run.agentSubject))
  }

  ghost predicate Stands(run: Run, s: Script, db: Db, k: nat)
    requires k <= 5
  {
    && StandsAside(run, s, db, k)
    && Subjects(db.events, Operator) == (if k < 2 then {} else if k == 2 then {s.approver} else {s.approver, s.executor})
  }

  lemma Starts(run: Run, s: Script)
    requires Playable(run, s)
    ensures Stands(run, s, Allocate(run, s.id, s.now), 0)
  {
    var db := Allocate(run, s.id, s.now);
    var row := db.workflow;
    assert Records(run, [], BeforeGenesis(row), row, GENESIS_ENTRY, s.now,
                   run.write([], BeforeGenesis(row), row, GENESIS_ENTRY, s.id, s.now));
    assert db.events == [] + db.events[..1];
    SubjectsAppend([], db.events[0], Operator);
  }

  lemma CommitSubjects(db: Db, db': Db, t: Timed)
    requires Commits(db, db', t)
    ensures Subjects(db'.events, Operator) == Subjects(db.events, Operator)
            + (if OperatorOf(t.step).Some? then {OperatorOf(t.step).value} else {})
  {
    assert db'.events == db.events + [Last(db'.events)];
    SubjectsAppend(db.events, Last(db'.events), Operator);
  }

  lemma StageAccepted(run: Run, s: Script, db: Db)
    requires Playable(run, s) && Stands(run, s, db, 0)
    ensures var t := Line(s, 0);
            && Transact(run, db, t).Ok?
            && StandsAside(run, s, Transact(run, db, t).value, 1)
  {
  }

  lemma StagePlays(run: Run, s: Script, db: Db)
    requires Playable(run, s) && Stands(run, s, db, 0)
    ensures Stands(run, s, After(run, db, Line(s, 0)), 1)
  {
    var t := Line(s, 0);
    StageAccepted(run, s, db);
    StageCommits(run, db, t);
    CommitSubjects(db, After(run, db, t), t);
  }

  lemma ApproveAccepted(run: Run, s: Script, db: Db)
    requires Playable(run, s) && Stands(run, s, db, 1)
    ensures var t := Line(s, 1);
            && Transact(run, db, t).Ok?
            && StandsAside(run, s, Transact(run, db, t).value, 2)
  {
  }

  lemma ApprovePlays(run: Run, s: Script, db: Db)
    requires Playable(run, s) && Stands(run, s, db, 1)
    ensures Stands(run, s, After(run, db, Line(s, 1)), 2)
  {
    var t := Line(s, 1);
    ApproveAccepted(run, s, db);
    ApproveCommits(run, db, t);
    CommitSubjects(db, After(run, db, t), t);
  }

  lemma ExecuteAccepted(run: Run, s: Script, db: Db)
    requires Playable(run, s) && Stands(run, s, db, 2)
    ensures var t := Line(s, 2);
            && Transact(run, db, t).Ok?
            && StandsAside(run, s, Transact(run, db, t).value, 3)
  {
  }

  lemma ExecutePlays(run: Run, s: Script, db: Db)
    requires Playable(run, s) && Stands(run, s, db, 2)
    ensures Stands(run, s, After(run, db, Line(s, 2)), 3)
  {
    var t := Line(s, 2);
    ExecuteAccepted(run, s, db);
    ExecuteCommits(run, db, t);
    CommitSubjects(db, After(run, db, t), t);
  }

  lemma ObserveAccepted(run: Run, s: Script, db: Db)
    requires Playable(run, s) && Stands(run, s, db, 3)
    ensures var t := Line(s, 3);
            && Transact(run, db, t).Ok?
            && StandsAside(run, s, Transact(run, db, t).value, 4)
  {
  }

  lemma ObservePlays(run: Run, s: Script, db: Db)
    requires Playable(run, s) && Stands(run, s, db, 3)
    ensures Stands(run, s, After(run, db, Line(s, 3)), 4)
  {
    var t := Line(s, 3);
    ObserveAccepted(run, s, db);
    ObserveCommits(run, db, t);
    CommitSubjects(db, After(run, db, t), t);
  }

  function BoundAssessment(run: Run, s: Script): Assessment {
    s.assessment.(subject := run.agentSubject, observationDigest := s.observation)
  }

  lemma OutcomeIsPrepared(run: Run, s: Script, db: Db)
    requires Playable(run, s) && StandsAside(run, s, db, 4)
    ensures var prepared := PrepareOutcome(db, db.postcheck.value, BoundAssessment(run, s), s.memory);
            && prepared.Ok? && prepared.value.state == G.Pending && prepared.value.observedBy == Some(run.agentSubject)
            && prepared.value.memoryDigest == s.memory.memoryDigest && prepared.value.outcomeScore == s.memory.outcomeScore
            && prepared.value.expiresAt == s.memory.expiresAt && prepared.value.assessmentDigest.Some?
            && prepared.value.observationDigest.Some? && prepared.value.verdictDigest.Some?
  {
  }

  lemma AssessAccepted(run: Run, s: Script, db: Db)
    requires Playable(run, s) && Stands(run, s, db, 4)
    ensures var t := Line(s, 4);
            && Transact(run, db, t).Ok?
            && StandsAside(run, s, Transact(run, db, t).value, 5)
  {
    OutcomeIsPrepared(run, s, db);
  }

  lemma AssessPlays(run: Run, s: Script, db: Db)
    requires Playable(run, s) && Stands(run, s, db, 4)
    ensures Stands(run, s, After(run, db, Line(s, 4)), 5)
  {
    var t := Line(s, 4);
    AssessAccepted(run, s, db);
    AssessCommits(run, db, t);
    CommitSubjects(db, After(run, db, t), t);
  }

  lemma DecisionIsOpen(m: G.Memory, request: G.Request, decision: Disposition, now: int)
    requires m.state == G.Pending && request.action == GovernanceAction(decision) && request.replacement.None?
    requires request.reasonCode == if decision == Certify then G.EvidenceAccepted else G.NeedsInvestigation
    requires decision == Certify ==> m.outcomeScore != 0.0
    requires m.observedBy != Some(request.actor)
    ensures G.GovernanceTarget(m, request, [m], now) == Ok(G.TargetOf(GovernanceAction(decision)))
  {
  }

  lemma ReviewAdvances(run: Run, v: Review, mid: Db, id: Uuid, now: int)
    requires Faithful(run) && mid.active && mid.workflow.active && mid.workflow.epoch == v.readEpoch
    requires mid.workflow.state == PendingReview && mid.workflow.operatorSubject != Some(v.subject)
    ensures var moved := Advance(run, mid, v.readEpoch, PendingReview, Reviewed, ReviewEntry(run, v), id, now);
            moved.Ok? && moved.value.active && moved.value.workflow.state == Reviewed && RequestReceipt(moved.value).Ok?
  {
    var entry := ReviewEntry(run, v);
    var after := MovedBy(mid.workflow, Reviewed, entry.actorRole, entry.actorSubject);
    assert Records(run, mid.events, mid.workflow, after, entry, now, run.write(mid.events, mid.workflow, after, entry, id, now));
  }

  /** Where the run stands once the review is in: the memory governed as decided. */
  ghost predicate Ended(run: Run, s: Script, db: Db) {
    && db.active && db.workflow.active && db.workflow.epoch == 7 && db.workflow.state == Reviewed
    && db.memory.Some? && GovernedAs(db.memory.value, s.decision)
    && db.memory.value.memoryDigest == s.memory.memoryDigest
    && db.memory.value.observedBy == Some(run.agentSubject) && db.memory.value.expiresAt == s.memory.expiresAt
  }

  lemma DisposeIs(run: Run, db: Db, v: Review, target: G.MemoryState, id: Uuid, now: int)
    requires v.ifMatch == Some(v.readEpoch) && db.memory.Some? && db.memory.value.memoryDigest == v.memoryDigest
    requires db.memory.value.state == G.Pending
    requires v.subject != run.operatorSubject && db.memory.value.observedBy != Some(v.subject)
    requires ValidateTransition(Some(db.workflow), v.readEpoch, PendingReview, Ui, v.subject, Reviewer).Ok?
    requires G.GovernanceTarget(db.memory.value, ReviewRequest(run, v), [db.memory.value], now) == Ok(target)
    requires var moved := Advance(run, db.(memory := Some(G.Governed(db.memory.value, ReviewRequest(run, v), target, now))),
                                  v.readEpoch, PendingReview, Reviewed, ReviewEntry(run, v), id, now);
             moved.Ok? && RequestReceipt(moved.value).Ok?
    ensures Dispose(run, db, v, id, now).Ok?
    ensures Dispose(run, db, v, id, now).value.workflow == MovedBy(db.workflow, Reviewed, Reviewer, v.subject)
    ensures Dispose(run, db, v, id, now).value.active == db.active
    ensures Dispose(run, db, v, id, now).value.memory == Some(G.Governed(db.memory.value, ReviewRequest(run, v), target, now))
  {
  }

  function ReviewRequest(run: Run, v: Review): G.Request {
    G.Request(run.tenant, v.subject, GovernanceAction(v.decision), ReasonText(v.note, v.reasonCode), v.reasonCode, None)
  }

  lemma DisposeAccepted(run: Run, s: Script, db: Db)
    requires Playable(run, s) && Stands(run, s, db, 5)
    ensures var r := Dispose(run, db, FinalReview(s), s.id, s.now); r.Ok? && Ended(run, s, r.value)
  {
    var v, m := FinalReview(s), db.memory.value;
    var target := G.TargetOf(GovernanceAction(s.decision));
    DecisionIsOpen(m, ReviewRequest(run, v), s.decision, s.now);
    ReviewAdvances(run, v, db.(memory := Some(G.Governed(m, ReviewRequest(run, v), target, s.now))), s.id, s.now);
    DisposeIs(run, db, v, target, s.id, s.now);
  }

  lemma FinalLineDisposes(run: Run, s: Script, db: Db)
    ensures Transact(run, db, Line(s, 5)) == Dispose(run, db, FinalReview(s), s.id, s.now)
  {
  }

  lemma DisposeRecords(run: Run, s: Script, db: Db, db': Db)
    requires Commits(db, db', Line(s, 5)) && Subjects(db.events, Operator) == {s.approver, s.executor}
    ensures Subjects(db'.events, Operator) == {s.approver, s.executor}
  {
    CommitSubjects(db, db', Line(s, 5));
  }

  lemma DisposePlays(run: Run, s: Script, db: Db)
    requires Playable(run, s) && Stands(run, s, db, 5)
    ensures var db' := After(run, db, Line(s, 5));
            Ended(run, s, db') && Subjects(db'.events, Operator) == {s.approver, s.executor}
  {
    FinalLineDisposes(run, s, db);
    DisposeAccepted(run, s, db);
    DisposeCommits(run, db, Line(s, 5));
    DisposeRecords(run, s, db, After(run, db, Line(s, 5)));
  }

  /** The rows after the first k steps of the straight run. */
  function Played(run: Run, s: Script, k: nat): Db
    requires k <= 7
  {
    Reached(run, s.id, s.now, Lines(s, k))
  }

  lemma PlayedNext(run: Run, s: Script, k: nat)
    requires k < 7
    ensures Played(run, s, k + 1) == After(run, Played(run, s, k), Line(s, k))
  {
    assert Lines(s, k + 1)[..k] == Lines(s, k);
  }

  lemma {:induction false} PlayedStands(run: Run, s: Script, k: nat)
    requires Playable(run, s) && k <= 5
    ensures Stands(run, s, Played(run, s, k), k)
  {
    if k == 0 {
      Starts(run, s);
    } else {
      PlayedStands(run, s, k - 1);
      PlayedNext(run, s, k - 1);
      StepPlays(run, s, Played(run, s, k - 1), k - 1);
    }
  }

  lemma StepPlays(run: Run, s: Script, db: Db, k: nat)
    requires Playable(run, s) && k < 5 && Stands(run, s, db, k)
    ensures Stands(run, s, After(run, db, Line(s, k)), k + 1)
  {
    if k == 0 {
      StagePlays(run, s, db);
    } else if k == 1 {
      ApprovePlays(run, s, db);
    } else if k == 2 {
      ExecutePlays(run, s, db);
    } else if k == 3 {
      ObservePlays(run, s, db);
    } else {
      AssessPlays(run, s, db);
    }
  }

  lemma ScriptIsAdmissible(run: Run, s: Script)
    requires Playable(run, s)
    ensures Admissible(s.now, Lines(s, 6)) && Admissible(s.now, Lines(s, 7))
  {
    forall i | 0 <= i < 7
      ensures OperatorOf(Line(s, i).step) != Some("")
    {
    }
  }

  /** Any script plays through: proposal, approval, execution, observation, assessment, review. */
  lemma StraightRunIsReviewed(run: Run, s: Script)
    requires Playable(run, s)
    ensures Admissible(s.now, Lines(s, 6))
    ensures Ended(run, s, Played(run, s, 6))
    ensures Subjects(Played(run, s, 6).events, Operator) == {s.approver, s.executor}
  {
    ScriptIsAdmissible(run, s);
    PlayedStands(run, s, 5);
    PlayedNext(run, s, 5);
    DisposePlays(run, s, Played(run, s, 5));
  }

  /** The coordinator compares the reviewer only with the last operator: a run approved by one
      operator and executed by another is reviewed, and the prefix verifier then refuses it. */
  lemma TwoOperatorsAreRefused(p: Primitives, run: Run, s: Script)
    requires Real(p, run) && Playable(run, s)
    ensures Played(run, s, 6).workflow.state == Reviewed
    ensures PrefixOk(EventHasher(p), Played(run, s, 6).events) <==> s.approver == s.executor
  {
    StraightRunIsReviewed(run, s);
    ReviewedRunIsAccepted(p, run, s.id, s.now, Lines(s, 6), 0);
    var operators := Subjects(Played(run, s, 6).events, Operator);
    if |operators| == 1 {
      SingletonMember(operators, s.approver);
      assert s.executor in operators;
    }
  }

  lemma RevokePlays(run: Run, s: Script, db: Db)
    requires Playable(run, s) && s.decision == Certify && Ended(run, s, db)
    requires s.memory.expiresAt.Some? ==> s.memory.expiresAt.value > s.now
    ensures var db' := After(run, db, Line(s, 6));
            && db'.memory.Some? && Revoked(db'.memory.value)
            && db'.active && db'.workflow == db.workflow && db'.events == db.events && db'.receipt == db.receipt
  {
    RevokeLineRevokes(run, s, db);
    RevocationIsOpen(run, db, FinalRevocation(s), s.now);
  }

  lemma RevokeLineRevokes(run: Run, s: Script, db: Db)
    ensures Transact(run, db, Line(s, 6)) == Revoke(run, db, FinalRevocation(s), s.now)
  {
  }

  lemma RevocationIsOpen(run: Run, db: Db, v: Revocation, now: int)
    requires db.memory.Some? && db.memory.value.state == G.Active && db.memory.value.valid
    requires v.memoryDigest == db.memory.value.memoryDigest && v.reasonCode == G.PolicyChange
    requires v.subject != run.operatorSubject && db.memory.value.observedBy != Some(v.subject)
    requires v.ifMatch == Some(v.readEpoch) && db.workflow.active && db.workflow.state == Reviewed
    requires db.workflow.epoch == v.readEpoch
    requires db.memory.value.expiresAt.Some? ==> db.memory.value.expiresAt.value > now
    ensures Revoke(run, db, v, now).Ok?
    ensures var r := Revoke(run, db, v, now).value;
            r.memory.Some? && Revoked(r.memory.value) && r == db.(memory := r.memory)
  {
  }

  lemma PlayedRevokes(run: Run, s: Script)
    requires Playable(run, s) && s.decision == Certify && s.approver == s.executor
    requires s.memory.expiresAt.Some? ==> s.memory.expiresAt.value > s.now
    ensures Admissible(s.now, Lines(s, 7))
    ensures var db := Played(run, s, 7);
            && db.workflow.state == Reviewed && db.active && db.memory.Some? && Revoked(db.memory.value)
            && |Subjects(db.events, Operator)| == 1
  {
    StraightRunIsReviewed(run, s);
    ScriptIsAdmissible(run, s);
    PlayedNext(run, s, 6);
    RevokePlays(run, s, Played(run, s, 6));
    assert Subjects(Played(run, s, 7).events, Operator) == {s.approver};
  }

  /** A run that is certified and then revoked before its receipt is finalized: both offline checkers
      accept its ledger, its receipt target stands, and no continuation ever resolves it. */
  lemma RevokedBeforeFinalization(p: Primitives, run: Run, s: Script, ts: seq<Timed>, requestedAt: int)
    requires Real(p, run) && Playable(run, s) && s.decision == Certify && s.approver == s.executor
    requires s.memory.expiresAt.Some? ==> s.memory.expiresAt.value > s.now
    ensures var db := Played(run, s, 7);
            && db.workflow.state == Reviewed && db.active && db.receipt.Some?
            && db.memory.Some? && Revoked(db.memory.value)
            && PrefixOk(EventHasher(p), db.events) && CausallyBound(p, db)
            && LoadMaterial(AfterAll(run, db, ts), db.receipt.value, requestedAt).Err?
  {
    PlayedRevokes(run, s);
    ReviewedRunIsAccepted(p, run, s.id, s.now, Lines(s, 7), requestedAt);
    RevokedNeverLoads(run, Played(run, s, 7), ts, Played(run, s, 7).receipt.value, requestedAt);
  }
}
