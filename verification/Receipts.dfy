/** Offline verification of a ledger prefix and of its causal bindings (receipts.py), and tamper
    evidence: the head hash of an accepted prefix determines the whole prefix. */
module Receipts {
  import opened Common
  import opened Canonical
  import opened Workflow
  import opened Ledger

  // ----- verify_ledger_prefix -----

  function ExpectedChannel(r: Role): Channel {
    match r
    case Agent => Webmcp
    case Operator => Ui
    case Reviewer => Ui
    case SystemRole => SystemChannel
  }

  predicate GenesisOk(e: Event) {
    e.sequence == 1 && e.eventType == "RUN_GENESIS" && e.stateBefore == ABSENT && e.epochBefore == 0
  }

  predicate SameBoundary(a: Event, b: Event) {
    && a.runId == b.runId && a.tenant == b.tenant && a.workflowId == b.workflowId
    && a.policyVersion == b.policyVersion && a.buildSha == b.buildSha
  }

  predicate Follows(e: Event, predecessor: Event) {
    && e.epochBefore == predecessor.epochAfter
    && e.stateBefore == predecessor.stateAfter
    && e.capabilitiesBefore == predecessor.capabilitiesAfter
    && e.recordedAt >= predecessor.recordedAt
  }

  /** The k-th event of a chain stands correctly on the events before it. */
  predicate LinkOk(h: Hasher, events: seq<Event>, k: nat)
    requires k < |events|
  {
    var e := events[k];
    && e.sequence == k + 1
    && e.outcome == Accepted
    && SameBoundary(e, events[0])
    && e.epochAfter == e.epochBefore + 1
    && (k > 0 ==> Follows(e, events[k - 1]))
    && e.channel == ExpectedChannel(e.actorRole)
    && VerifyEvent(h, e, HeadHash(events[..k]))
  }

  ghost predicate ChainOk(h: Hasher, events: seq<Event>) {
    && events != []
    && GenesisOk(events[0])
    && forall k :: 0 <= k < |events| ==> LinkOk(h, events, k)
  }

  /** The subjects that acted in one role. */
  function Subjects(events: seq<Event>, role: Role): set<string> {
    if events == [] then {}
    else
      var last := events[|events| - 1];
      Subjects(events[..|events| - 1], role) + (if last.actorRole == role then {last.actorSubject} else {})
  }

  /** What a prefix must be to carry a receipt. */
  ghost predicate PrefixOk(h: Hasher, events: seq<Event>) {
    && ChainOk(h, events)
    && exists operator, reviewer :: operator != reviewer
         && Subjects(events, Operator) == {operator} && Subjects(events, Reviewer) == {reviewer}
  }

  datatype VerifiedPrefix = VerifiedPrefix(
    runId: Uuid, tenant: string, workflowId: Uuid, policyVersion: string, buildSha: string,
    firstEpoch: nat, lastEpoch: nat, eventCount: nat, firstHash: Digest, headHash: Digest,
    finalState: string, operatorSubject: string, reviewerSubject: string)

  ghost predicate Summarizes(v: VerifiedPrefix, events: seq<Event>)
    requires events != []
  {
    var first, last := events[0], events[|events| - 1];
    && v.runId == first.runId && v.tenant == first.tenant && v.workflowId == first.workflowId
    && v.policyVersion == first.policyVersion && v.buildSha == first.buildSha
    && v.firstEpoch == first.epochBefore && v.lastEpoch == last.epochAfter
    && v.eventCount == |events|
    && v.firstHash == first.eventHash && v.headHash == last.eventHash
    && v.finalState == last.stateAfter
    && Subjects(events, Operator) == {v.operatorSubject}
    && Subjects(events, Reviewer) == {v.reviewerSubject}
  }

  lemma SingletonMember<T>(s: set<T>, x: T)
    requires |s| == 1 && x in s
    ensures s == {x}
  {
    assert |s - {x}| == 0;
  }

  lemma SubjectsAppend(events: seq<Event>, e: Event, role: Role)
    ensures Subjects(events + [e], role)
            == Subjects(events, role) + (if e.actorRole == role then {e.actorSubject} else {})
  {
    assert (events + [e])[..|events|] == events;
  }

  /** The first objection the verifier has to one event, in the source's order. */
  function LinkProblem(h: Hasher, e: Event, first: Event, predecessor: Option<Event>,
                       sequence: nat, expectedPrevious: Digest): (r: Option<string>)
    ensures r.None? <==>
            && e.sequence == sequence && e.outcome == Accepted && SameBoundary(e, first)
            && e.epochAfter == e.epochBefore + 1
            && (predecessor.Some? ==> Follows(e, predecessor.value))
            && e.channel == ExpectedChannel(e.actorRole)
            && VerifyEvent(h, e, expectedPrevious)
  {
    if e.sequence != sequence then Some("authority ledger sequence is not contiguous")
    else if e.outcome != Accepted then Some("receipt prefix contains non-authority evidence")
    else if !SameBoundary(e, first) then Some("authority ledger boundary changed within prefix")
    else if e.epochAfter != e.epochBefore + 1 then Some("authority ledger epoch is not contiguous")
    else if predecessor.Some? && e.epochBefore != predecessor.value.epochAfter
    then Some("authority ledger epochs contain a gap")
    else if predecessor.Some? && e.stateBefore != predecessor.value.stateAfter
    then Some("authority ledger states contain a gap")
    else if predecessor.Some? && e.capabilitiesBefore != predecessor.value.capabilitiesAfter
    then Some("authority ledger capabilities contain a gap")
    else if predecessor.Some? && e.recordedAt < predecessor.value.recordedAt
    then Some("authority ledger timestamps regress")
    else if e.channel != ExpectedChannel(e.actorRole)
    then Some("authority actor role and channel are inconsistent")
    else if !VerifyEvent(h, e, expectedPrevious) then Some("authority ledger hash chain verification failed")
    else None
  }

  /** One turn of the loop: what it finds, and whom it has seen. */
  lemma LinkIsScanned(h: Hasher, events: seq<Event>, i: nat)
    requires i < |events|
    ensures LinkProblem(h, events[i], events[0], if i > 0 then Some(events[i - 1]) else None, i + 1, HeadHash(events[..i])).None?
            <==> LinkOk(h, events, i)
    ensures HeadHash(events[..i + 1]) == events[i].eventHash
    ensures forall role :: Subjects(events[..i + 1], role)
                           == Subjects(events[..i], role) + (if events[i].actorRole == role then {events[i].actorSubject} else {})
  {
    assert events[..i + 1] == events[..i] + [events[i]];
    forall role
      ensures Subjects(events[..i + 1], role)
              == Subjects(events[..i], role) + (if events[i].actorRole == role then {events[i].actorSubject} else {})
    {
      SubjectsAppend(events[..i], events[i], role);
    }
  }

  /** The loop of verify_ledger_prefix: the first objection, and the subjects seen. */
  method ScanChain(h: Hasher, events: seq<Event>)
    returns (problem: Option<string>, operators: set<string>, reviewers: set<string>)
    requires events != []
    ensures problem.None? <==> forall k :: 0 <= k < |events| ==> LinkOk(h, events, k)
    ensures problem.None? ==> operators == Subjects(events, Operator) && reviewers == Subjects(events, Reviewer)
  {
    var expectedPrevious := ZeroEventHash();
    operators, reviewers := {}, {};
    for i := 0 to |events|
      invariant forall k :: 0 <= k < i ==> LinkOk(h, events, k)
      invariant expectedPrevious == HeadHash(events[..i])
      invariant operators == Subjects(events[..i], Operator)
      invariant reviewers == Subjects(events[..i], Reviewer)
    {
      var e := events[i];
      LinkIsScanned(h, events, i);
      problem := LinkProblem(h, e, events[0], if i > 0 then Some(events[i - 1]) else None, i + 1, expectedPrevious);
      if problem.Some? {
        return;
      }
      expectedPrevious := e.eventHash;
      if e.actorRole == Operator {
        operators := operators + {e.actorSubject};
      } else if e.actorRole == Reviewer {
        reviewers := reviewers + {e.actorSubject};
      }
    }
    assert events[..|events|] == events;
    problem := None;
  }

  /** verify_ledger_prefix accepts exactly the prefixes that satisfy PrefixOk. */
  method VerifyLedgerPrefix(h: Hasher, events: seq<Event>) returns (r: Result<VerifiedPrefix>)
    ensures r.Ok? <==> PrefixOk(h, events)
    ensures r.Ok? ==> Summarizes(r.value, events)
  {
    if events == [] {
      return Err("authority ledger prefix is empty");
    }
    var first, last := events[0], events[|events| - 1];
    if !GenesisOk(first) {
      return Err("authority ledger prefix does not begin at run genesis");
    }
    var problem, operators, reviewers := ScanChain(h, events);
    if problem.Some? {
      return Err(problem.value);
    }
    if |operators| != 1 || |reviewers| != 1 {
      return Err("receipt requires one stable operator and reviewer subject");
    }
    var operator :| operator in operators;
    var reviewer :| reviewer in reviewers;
    SingletonMember(operators, operator);
    SingletonMember(reviewers, reviewer);
    if operator == reviewer {
      return Err("receipt requires independent operator and reviewer");
    }
    r := Ok(VerifiedPrefix(first.runId, first.tenant, first.workflowId, first.policyVersion, first.buildSha,
                           first.epochBefore, last.epochAfter, |events|, first.eventHash, last.eventHash,
                           last.stateAfter, operator, reviewer));
  }

  /** A chain stays correct when the event that append_transition builds next is added. */
  lemma ChainExtends(h: Hasher, events: seq<Event>, e: Event)
    requires ChainOk(h, events)
    requires e.sequence == |events| + 1 && e.outcome == Accepted
    requires SameBoundary(e, events[0]) && e.epochAfter == e.epochBefore + 1
    requires Follows(e, events[|events| - 1])
    requires e.channel == ExpectedChannel(e.actorRole)
    requires VerifyEvent(h, e, HeadHash(events))
    ensures ChainOk(h, events + [e])
  {
    var all := events + [e];
    forall k | 0 <= k < |all|
      ensures LinkOk(h, all, k)
    {
      if k < |events| {
        assert LinkOk(h, events, k);
        assert all[..k] == events[..k];
      } else {
        assert all[..k] == events;
      }
    }
  }

  // ----- tamper evidence -----

  /** A hash that tells apart the events of the two chains, up to the stored hash itself. */
  ghost predicate TellsApart(h: Hasher, a: seq<Event>, b: seq<Event>) {
    forall x, y :: x in a && y in b && h(x.previousHash, x) == h(y.previousHash, y)
                   ==> x == y.(eventHash := x.eventHash)
  }

  /** Equal hashes stand on equal events at one position, and on equal hashes before it. */
  lemma SameHashSamePlace(h: Hasher, a: seq<Event>, b: seq<Event>, i: nat, j: nat)
    requires TellsApart(h, a, b)
    requires ChainOk(h, a) && ChainOk(h, b)
    requires i < |a| && j < |b| && a[i].eventHash == b[j].eventHash
    ensures i == j && a[i] == b[i] && (i > 0 ==> a[i - 1].eventHash == b[i - 1].eventHash)
  {
    var x, y := a[i], b[j];
    assert LinkOk(h, a, i) && LinkOk(h, b, j);
    assert x in a && y in b;
    if i > 0 {
      assert a[..i][i - 1] == a[i - 1] && b[..i][i - 1] == b[i - 1];
    }
  }

  lemma {:induction false} SameHeadSamePrefix(h: Hasher, a: seq<Event>, b: seq<Event>, i: nat, j: nat)
    requires TellsApart(h, a, b)
    requires ChainOk(h, a) && ChainOk(h, b)
    requires i < |a| && j < |b| && a[i].eventHash == b[j].eventHash
    ensures i == j && a[..i + 1] == b[..j + 1]
    decreases i
  {
    SameHashSamePlace(h, a, b, i, j);
    if i > 0 {
      SameHeadSamePrefix(h, a, b, i - 1, i - 1);
    }
    assert a[..i + 1] == a[..i] + [a[i]] && b[..i + 1] == b[..i] + [b[i]];
  }

  lemma SameHeadSameChain(h: Hasher, a: seq<Event>, b: seq<Event>)
    requires TellsApart(h, a, b)
    requires ChainOk(h, a) && ChainOk(h, b)
    requires HeadHash(a) == HeadHash(b)
    ensures a == b
  {
    SameHeadSamePrefix(h, a, b, |a| - 1, |b| - 1);
    assert a[..|a|] == a && b[..|b|] == b;
  }

  /** The bytes an offline verifier hashes while it checks a prefix. */
  ghost function HashedBytes(p: Primitives, events: seq<Event>): set<seq<byte>> {
    set e | e in events :: EventPreimage(p, e.previousHash, Payload(p, e))
  }

  lemma SameHashSameEvent(p: Primitives, x: Event, y: Event)
    requires CanonicalIsInjective(p) && TextsAreInjective(p)
    requires EventPreimage(p, x.previousHash, Payload(p, x)) == EventPreimage(p, y.previousHash, Payload(p, y))
    ensures x == y.(eventHash := x.eventHash)
  {
    PayloadIsJson(p, x);
    PayloadIsJson(p, y);
    PreimageInjective(p, x.previousHash, Payload(p, x), y.previousHash, Payload(p, y));
    PayloadInjective(p, x, y);
  }

  lemma SameDigestSameEvent(p: Primitives, x: Event, y: Event)
    requires CanonicalIsInjective(p) && TextsAreInjective(p)
    requires CollisionFree(p, {EventPreimage(p, x.previousHash, Payload(p, x)), EventPreimage(p, y.previousHash, Payload(p, y))})
    requires EventHasher(p)(x.previousHash, x) == EventHasher(p)(y.previousHash, y)
    ensures x == y.(eventHash := x.eventHash)
  {
    SameHashSameEvent(p, x, y);
  }

  lemma NoCollisionTellsApart(p: Primitives, a: seq<Event>, b: seq<Event>)
    requires CanonicalIsInjective(p) && TextsAreInjective(p)
    requires CollisionFree(p, HashedBytes(p, a) + HashedBytes(p, b))
    ensures TellsApart(EventHasher(p), a, b)
  {
    var h := EventHasher(p);
    forall x, y | x in a && y in b && h(x.previousHash, x) == h(y.previousHash, y)
      ensures x == y.(eventHash := x.eventHash)
    {
      assert {EventPreimage(p, x.previousHash, Payload(p, x)), EventPreimage(p, y.previousHash, Payload(p, y))}
          <= HashedBytes(p, a) + HashedBytes(p, b);
      SameDigestSameEvent(p, x, y);
    }
  }

  /** Two accepted prefixes that end in the same event hash are the same prefix, length included,
      unless the verifier's own inputs exhibit a SHA-256 collision. */
  lemma TamperEvidence(p: Primitives, a: seq<Event>, b: seq<Event>)
    requires CanonicalIsInjective(p) && TextsAreInjective(p)
    requires CollisionFree(p, HashedBytes(p, a) + HashedBytes(p, b))
    requires PrefixOk(EventHasher(p), a) && PrefixOk(EventHasher(p), b)
    requires HeadHash(a) == HeadHash(b)
    ensures a == b
  {
    NoCollisionTellsApart(p, a, b);
    SameHeadSameChain(EventHasher(p), a, b);
  }

  // ----- what an accepted prefix is, as a whole -----

  /** One run's history: numbered from one, one epoch an event, from the run's absence on, every event
      continuing the last in state, capabilities, time and hash, each on its actor's own channel. */
  ghost predicate IsHistory(h: Hasher, events: seq<Event>) {
    && events != [] && events[0].eventType == "RUN_GENESIS" && events[0].stateBefore == "ABSENT"
    && (forall k :: 0 <= k < |events| ==> StandsAlone(h, events[k], k))
    && (forall j, k :: 0 <= j < k < |events| ==> OneRun(events[j], events[k]))
    && (forall k :: 0 < k < |events| ==> Continues(events[k - 1], events[k]))
    && events[0].previousHash == seq(64, _ => '0')
  }

  predicate StandsAlone(h: Hasher, e: Event, k: nat) {
    && e.sequence == k + 1 && e.epochBefore == k && e.epochAfter == k + 1 && e.outcome == Accepted
    && (e.channel == Webmcp <==> e.actorRole == Agent) && (e.channel == SystemChannel <==> e.actorRole == SystemRole)
    && e.eventHash == h(e.previousHash, e)
  }

  predicate OneRun(a: Event, b: Event) {
    && a.runId == b.runId && a.tenant == b.tenant && a.workflowId == b.workflowId
    && a.policyVersion == b.policyVersion && a.buildSha == b.buildSha && a.recordedAt <= b.recordedAt
  }

  predicate Continues(a: Event, b: Event) {
    b.stateBefore == a.stateAfter && b.capabilitiesBefore == a.capabilitiesAfter && b.previousHash == a.eventHash
  }

  lemma HeadBefore(events: seq<Event>, k: nat)
    requires k < |events|
    ensures HeadHash(events[..k]) == if k == 0 then seq(64, _ => '0') else events[k - 1].eventHash
  {
  }

  /** Epochs and times add up along a chain. */
  lemma {:induction false} ChainAddsUp(h: Hasher, events: seq<Event>, k: nat)
    requires ChainOk(h, events) && k < |events|
    ensures events[k].epochBefore == k && events[k].epochAfter == k + 1
    ensures forall j :: 0 <= j < k ==> events[j].recordedAt <= events[k].recordedAt
  {
    assert LinkOk(h, events, k);
    if k > 0 {
      ChainAddsUp(h, events, k - 1);
    }
  }

  lemma ChainIsHistory(h: Hasher, events: seq<Event>)
    requires ChainOk(h, events)
    ensures IsHistory(h, events)
  {
    forall k | 0 <= k < |events|
      ensures StandsAlone(h, events[k], k) && (k > 0 ==> Continues(events[k - 1], events[k]))
    {
      assert LinkOk(h, events, k);
      ChainAddsUp(h, events, k);
      HeadBefore(events, k);
    }
    forall j, k | 0 <= j < k < |events|
      ensures OneRun(events[j], events[k])
    {
      assert LinkOk(h, events, j) && LinkOk(h, events, k);
      ChainAddsUp(h, events, k);
    }
    assert LinkOk(h, events, 0);
    HeadBefore(events, 0);
  }

  lemma HistoryIsChain(h: Hasher, events: seq<Event>)
    requires IsHistory(h, events)
    ensures ChainOk(h, events)
  {
    forall k | 0 <= k < |events|
      ensures LinkOk(h, events, k)
    {
      HeadBefore(events, k);
      assert StandsAlone(h, events[k], k);
      if k > 0 {
        assert StandsAlone(h, events[k - 1], k - 1) && Continues(events[k - 1], events[k]);
        assert OneRun(events[0], events[k]) && OneRun(events[k - 1], events[k]);
      }
    }
    assert StandsAlone(h, events[0], 0);
  }

  /** Someone acts in the role, and nobody else does. */
  ghost predicate ActsAlone(events: seq<Event>, role: Role, subject: string) {
    && (exists k :: 0 <= k < |events| && events[k].actorRole == role)
    && (forall k :: 0 <= k < |events| && events[k].actorRole == role ==> events[k].actorSubject == subject)
  }

  lemma {:induction false} SubjectsMembers(events: seq<Event>, role: Role)
    ensures forall s :: s in Subjects(events, role) <==> ActedAs(events, role, s)
  {
    if events != [] {
      var init, last := events[..|events| - 1], events[|events| - 1];
      SubjectsMembers(init, role);
      forall s
        ensures s in Subjects(events, role) <==> ActedAs(events, role, s)
      {
        if ActedAs(init, role, s) {
          var k :| 0 <= k < |init| && init[k].actorRole == role && init[k].actorSubject == s;
          assert events[k] == init[k];
        }
        if ActedAs(events, role, s) && !(last.actorRole == role && last.actorSubject == s) {
          var k :| 0 <= k < |events| && events[k].actorRole == role && events[k].actorSubject == s;
          assert init[k] == events[k];
        }
      }
    }
  }

  ghost predicate ActedAs(events: seq<Event>, role: Role, subject: string) {
    exists k :: 0 <= k < |events| && events[k].actorRole == role && events[k].actorSubject == subject
  }

  lemma OneSubjectExactly(events: seq<Event>, role: Role, subject: string)
    ensures Subjects(events, role) == {subject} <==> ActsAlone(events, role, subject)
  {
    SubjectsMembers(events, role);
    if Subjects(events, role) == {subject} {
      assert ActedAs(events, role, subject);
      forall k | 0 <= k < |events| && events[k].actorRole == role
        ensures events[k].actorSubject == subject
      {
        assert ActedAs(events, role, events[k].actorSubject);
      }
    }
    if ActsAlone(events, role, subject) {
      assert ActedAs(events, role, subject);
      assert forall s :: ActedAs(events, role, s) ==> s == subject;
    }
  }

  /** The prefix verifier accepts exactly the histories of one run in which one operator and one different
      reviewer acted. */
  lemma AcceptedIsHistoryIff(h: Hasher, events: seq<Event>)
    ensures PrefixOk(h, events) <==>
            && IsHistory(h, events)
            && exists operator, reviewer :: operator != reviewer && ActsAlone(events, Operator, operator) && ActsAlone(events, Reviewer, reviewer)
  {
    if ChainOk(h, events) {
      ChainIsHistory(h, events);
    }
    if IsHistory(h, events) {
      HistoryIsChain(h, events);
    }
    forall s
      ensures Subjects(events, Operator) == {s} <==> ActsAlone(events, Operator, s)
      ensures Subjects(events, Reviewer) == {s} <==> ActsAlone(events, Reviewer, s)
    {
      OneSubjectExactly(events, Operator, s);
      OneSubjectExactly(events, Reviewer, s);
    }
  }

  // ----- verify_causal_bindings -----

  datatype Disposition = Certify | Quarantine | Reject

  function DispositionName(d: Disposition): string {
    match d
    case Certify => "certify"
    case Quarantine => "quarantine"
    case Reject => "reject"
  }

  datatype DigestBindings = DigestBindings(
    proposal: Digest, execution: Digest, observation: Digest, assessment: Digest,
    policyVerdict: Digest, memory: Digest, review: Digest)

  function TextMembers(members: seq<Digest>): seq<Json> {
    seq(|members|, i requires 0 <= i < |members| => JStr(members[i]))
  }

  /** transition_binding_digest: the digest an event must carry, under its own domain. */
  function TransitionBindingDigest(p: Primitives, domain: string, schema: Schema, members: seq<Digest>): Digest {
    p.sha256(Ascii("recallops-" + domain + "-binding-v1") + [0]
             + p.canonical(JObj(schema, TextMembers(members))))
  }

  function DispositionDigest(p: Primitives, name: string): Digest {
    p.sha256(Ascii(name))
  }

  datatype Binding = Binding(objectType: string, digest: Digest)

  /** The object each state's first event must name. */
  function Required(p: Primitives, d: DigestBindings, final: string, state: State): Option<Binding> {
    match state
    case AwaitingOperatorApproval => Some(Binding("proposal", d.proposal))
    case ApprovedAwaitingExecution => Some(Binding("proposal", d.proposal))
    case ObservingPostcheck => Some(Binding("execution_binding",
      TransitionBindingDigest(p, "execution", ExecutionBindingKeys, [d.execution, d.proposal])))
    case PostcheckReady => Some(Binding("observation_binding",
      TransitionBindingDigest(p, "observation", ObservationBindingKeys,
                              [d.execution, d.observation, d.policyVerdict])))
    case PendingReview => Some(Binding("outcome_binding",
      TransitionBindingDigest(p, "outcome", OutcomeBindingKeys,
                              [d.assessment, d.memory, d.observation, d.policyVerdict])))
    case Reviewed => Some(Binding("review_binding",
      TransitionBindingDigest(p, "review", ReviewBindingKeys,
                              [DispositionDigest(p, final), d.memory, d.review])))
    case Investigating => None
    case PostcheckUnavailable => None
  }

  /** The first event that enters a state. */
  function FirstInto(events: seq<Event>, stateName: string): Option<Event> {
    if events == [] then None
    else if events[0].stateAfter == stateName then Some(events[0])
    else FirstInto(events[1..], stateName)
  }

  predicate Carries(e: Event, binding: Binding) {
    e.objectType == Some(binding.objectType) && e.objectDigest == Some(binding.digest)
  }

  predicate BindingOk(p: Primitives, events: seq<Event>, d: DigestBindings, final: string, state: State) {
    var required := Required(p, d, final, state);
    required.Some? ==>
      var first := FirstInto(events, StateName(state));
      first.Some? && Carries(first.value, required.value)
  }

  ghost predicate CausalOk(p: Primitives, events: seq<Event>, d: DigestBindings, final: string) {
    forall state :: BindingOk(p, events, d, final, state)
  }

  const BOUND_STATES := [AwaitingOperatorApproval, ApprovedAwaitingExecution, ObservingPostcheck,
                         PostcheckReady, PendingReview, Reviewed]

  method FindFirstInto(events: seq<Event>, stateName: string) returns (found: Option<Event>)
    ensures found == FirstInto(events, stateName)
  {
    for j := 0 to |events|
      invariant FirstInto(events, stateName) == FirstInto(events[j..], stateName)
    {
      if events[j].stateAfter == stateName {
        return Some(events[j]);
      }
    }
    found := None;
  }

  /** verify_causal_bindings: one pass over the required states, each needing the first event
      into it to carry exactly its object. */
  method VerifyCausalBindings(p: Primitives, events: seq<Event>, d: DigestBindings, final: string)
    returns (ok: bool)
    ensures ok <==> CausalOk(p, events, d, final)
  {
    for i := 0 to |BOUND_STATES|
      invariant forall k :: 0 <= k < i ==> BindingOk(p, events, d, final, BOUND_STATES[k])
    {
      var state := BOUND_STATES[i];
      var required := Required(p, d, final, state);
      var found := FindFirstInto(events, StateName(state));
      if found.None? || !Carries(found.value, required.value) {
        assert !BindingOk(p, events, d, final, state);
        return false;
      }
    }
    forall s: State
      ensures BindingOk(p, events, d, final, s)
    {
      if s != Investigating && s != PostcheckUnavailable {
        var k := BoundStateIndex(s);
        assert BindingOk(p, events, d, final, BOUND_STATES[k]);
      }
    }
    ok := true;
  }

  lemma BoundStateIndex(s: State) returns (k: nat)
    requires s != Investigating && s != PostcheckUnavailable
    ensures k < |BOUND_STATES| && BOUND_STATES[k] == s
  {
    k := match s
      case AwaitingOperatorApproval => 0
      case ApprovedAwaitingExecution => 1
      case ObservingPostcheck => 2
      case PostcheckReady => 3
      case PendingReview => 4
      case Reviewed => 5;
  }

  lemma {:induction false} FirstIntoAppend(events: seq<Event>, e: Event, name: string)
    ensures FirstInto(events + [e], name)
            == if FirstInto(events, name).Some? then FirstInto(events, name)
               else if e.stateAfter == name then Some(e) else None
  {
    if events == [] {
      assert [e][1..] == [];
      assert [] + [e] == [e];
    } else {
      assert (events + [e])[1..] == events[1..] + [e];
      FirstIntoAppend(events[1..], e, name);
    }
  }

  // ----- the ledger fixes the digests -----

  /** The bytes the verifier hashes for one set of digests and one disposition. */
  function BindingInputs(p: Primitives, d: DigestBindings, final: string): set<seq<byte>> {
    {BindingInput(p, "execution", ExecutionBindingKeys, [d.execution, d.proposal]),
     BindingInput(p, "observation", ObservationBindingKeys, [d.execution, d.observation, d.policyVerdict]),
     BindingInput(p, "outcome", OutcomeBindingKeys, [d.assessment, d.memory, d.observation, d.policyVerdict]),
     BindingInput(p, "review", ReviewBindingKeys, [DispositionDigest(p, final), d.memory, d.review]),
     Ascii(final)}
  }

  function BindingInput(p: Primitives, domain: string, schema: Schema, members: seq<Digest>): seq<byte> {
    Ascii("recallops-" + domain + "-binding-v1") + [0] + p.canonical(JObj(schema, TextMembers(members)))
  }

  lemma BindingsAreInjective(p: Primitives, hashed: set<seq<byte>>, domain: string, schema: Schema, a: seq<Digest>, b: seq<Digest>)
    requires CanonicalIsInjective(p) && CollisionFree(p, hashed) && |a| == |b| == Arity(schema) && IsKeySet(schema)
    requires BindingInput(p, domain, schema, a) in hashed && BindingInput(p, domain, schema, b) in hashed
    requires TransitionBindingDigest(p, domain, schema, a) == TransitionBindingDigest(p, domain, schema, b)
    ensures a == b
  {
    var head := Ascii("recallops-" + domain + "-binding-v1") + [0];
    var x, y := JObj(schema, TextMembers(a)), JObj(schema, TextMembers(b));
    assert BindingInput(p, domain, schema, a)[|head|..] == p.canonical(x);
    assert BindingInput(p, domain, schema, b)[|head|..] == p.canonical(y);
    assert IsJson(x) && IsJson(y);
    assert TextMembers(a) == TextMembers(b);
    forall i | 0 <= i < |a|
      ensures a[i] == b[i]
    {
      assert TextMembers(a)[i] == TextMembers(b)[i];
    }
  }

  lemma SameRequirement(p: Primitives, events: seq<Event>, d: DigestBindings, final: string, d': DigestBindings, final': string, s: State)
    requires CausalOk(p, events, d, final) && CausalOk(p, events, d', final')
    ensures Required(p, d, final, s) == Required(p, d', final', s)
  {
    assert BindingOk(p, events, d, final, s) && BindingOk(p, events, d', final', s);
  }

  /** Both sets of digests, with their dispositions, are bound to the ledger, and their inputs do not collide. */
  ghost predicate BothBound(p: Primitives, events: seq<Event>, d: DigestBindings, n: string, d': DigestBindings, n': string,
                            hashed: set<seq<byte>>)
  {
    && CanonicalIsInjective(p) && CollisionFree(p, hashed) && BindingInputs(p, d, n) <= hashed && BindingInputs(p, d', n') <= hashed
    && CausalOk(p, events, d, n) && CausalOk(p, events, d', n')
  }

  lemma ExecutionFixed(p: Primitives, events: seq<Event>, d: DigestBindings, n: string, d': DigestBindings, n': string, hashed: set<seq<byte>>)
    requires BothBound(p, events, d, n, d', n', hashed)
    ensures d.execution == d'.execution && d.proposal == d'.proposal
  {
    var x, x' := [d.execution, d.proposal], [d'.execution, d'.proposal];
    SameRequirement(p, events, d, n, d', n', ObservingPostcheck);
    BindingsAreInjective(p, hashed, "execution", ExecutionBindingKeys, x, x');
    assert x[0] == x'[0] && x[1] == x'[1];
  }

  lemma ObservationFixed(p: Primitives, events: seq<Event>, d: DigestBindings, n: string, d': DigestBindings, n': string, hashed: set<seq<byte>>)
    requires BothBound(p, events, d, n, d', n', hashed)
    ensures d.observation == d'.observation && d.policyVerdict == d'.policyVerdict
  {
    var x, x' := [d.execution, d.observation, d.policyVerdict], [d'.execution, d'.observation, d'.policyVerdict];
    SameRequirement(p, events, d, n, d', n', PostcheckReady);
    BindingsAreInjective(p, hashed, "observation", ObservationBindingKeys, x, x');
    assert x[1] == x'[1] && x[2] == x'[2];
  }

  lemma OutcomeFixed(p: Primitives, events: seq<Event>, d: DigestBindings, n: string, d': DigestBindings, n': string, hashed: set<seq<byte>>)
    requires BothBound(p, events, d, n, d', n', hashed)
    ensures d.assessment == d'.assessment && d.memory == d'.memory
  {
    var x, x' := [d.assessment, d.memory, d.observation, d.policyVerdict], [d'.assessment, d'.memory, d'.observation, d'.policyVerdict];
    SameRequirement(p, events, d, n, d', n', PendingReview);
    BindingsAreInjective(p, hashed, "outcome", OutcomeBindingKeys, x, x');
    assert x[0] == x'[0] && x[1] == x'[1];
  }

  lemma ReviewFixed(p: Primitives, events: seq<Event>, d: DigestBindings, n: string, d': DigestBindings, n': string, hashed: set<seq<byte>>)
    requires BothBound(p, events, d, n, d', n', hashed)
    ensures DispositionDigest(p, n) == DispositionDigest(p, n') && d.review == d'.review
  {
    var x, x' := [DispositionDigest(p, n), d.memory, d.review], [DispositionDigest(p, n'), d'.memory, d'.review];
    SameRequirement(p, events, d, n, d', n', Reviewed);
    BindingsAreInjective(p, hashed, "review", ReviewBindingKeys, x, x');
    assert x[0] == x'[0] && x[2] == x'[2];
  }

  /** One ledger is causally bound to one set of digests and one disposition only, unless the inputs of
      their bindings collide. */
  lemma LedgerFixesDigests(p: Primitives, events: seq<Event>, d: DigestBindings, f: Disposition, d': DigestBindings, f': Disposition)
    requires CanonicalIsInjective(p)
    requires CollisionFree(p, BindingInputs(p, d, DispositionName(f)) + BindingInputs(p, d', DispositionName(f')))
    requires CausalOk(p, events, d, DispositionName(f)) && CausalOk(p, events, d', DispositionName(f'))
    ensures d == d' && f == f'
  {
    var n, n' := DispositionName(f), DispositionName(f');
    var hashed := BindingInputs(p, d, n) + BindingInputs(p, d', n');
    ExecutionFixed(p, events, d, n, d', n', hashed);
    ObservationFixed(p, events, d, n, d', n', hashed);
    OutcomeFixed(p, events, d, n, d', n', hashed);
    ReviewFixed(p, events, d, n, d', n', hashed);
    DispositionFixed(p, hashed, f, f');
  }

  lemma DispositionFixed(p: Primitives, hashed: set<seq<byte>>, f: Disposition, f': Disposition)
    requires CollisionFree(p, hashed) && Ascii(DispositionName(f)) in hashed && Ascii(DispositionName(f')) in hashed
    requires DispositionDigest(p, DispositionName(f)) == DispositionDigest(p, DispositionName(f'))
    ensures f == f'
  {
    assert |Ascii(DispositionName(f))| == |Ascii(DispositionName(f'))|;
  }
}
