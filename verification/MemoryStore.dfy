/** The in-memory store of governed memories (store.py), and what every reachable store keeps:
    the log replays to the stored states, and supersession pointers always lead somewhere. */
module MemoryStore {
  import opened Common
  import opened Canonical
  import opened Governance

  datatype MemoryEvent = MemoryEvent(
    memoryId: Uuid, tenant: string, actor: string, action: Action, reason: string,
    reasonCode: ReasonCode, memoryDigest: Digest, from: MemoryState, to: MemoryState)

  type OutcomeKey = (string, Uuid)

  datatype Store = Store(
    memories: seq<Memory>, outcomes: map<OutcomeKey, Memory>, events: seq<MemoryEvent>)

  // ----- the operations as functions of the store -----

  /** Position of the first memory with this id and tenant, or the length. */
  function IndexOf(memories: seq<Memory>, id: Uuid, tenant: string): (k: nat)
    ensures k <= |memories|
    ensures k < |memories| ==> memories[k].id == id && memories[k].tenant == tenant
    ensures forall j :: 0 <= j < k ==> memories[j].id != id || memories[j].tenant != tenant
  {
    if memories == [] then 0
    else if memories[0].id == id && memories[0].tenant == tenant then 0
    else 1 + IndexOf(memories[1..], id, tenant)
  }

  function GovernReply(s: Store, id: Uuid, r: Request, now: int): Result<Option<Memory>> {
    var k := IndexOf(s.memories, id, r.tenant);
    if k == |s.memories| then Ok(None)
    else
      var target := GovernanceTarget(s.memories[k], r, s.memories, now);
      if target.Err? then Err(target.reason) else Ok(Some(Governed(s.memories[k], r, target.value, now)))
  }

  function EventFor(memory: Memory, r: Request): MemoryEvent {
    MemoryEvent(memory.id, memory.tenant, r.actor, r.action, r.reason, r.reasonCode,
                memory.memoryDigest, memory.state, TargetOf(r.action))
  }

  /** Refused and unknown requests change nothing; an accepted one replaces one memory, keeps
      the outcome index in step and adds one log entry. */
  function AfterGovern(s: Store, id: Uuid, r: Request, now: int): Store {
    var reply := GovernReply(s, id, r, now);
    if reply.Err? || reply.value.None? then s
    else
      var k := IndexOf(s.memories, id, r.tenant);
      var old_ := s.memories[k];
      var updated := reply.value.value;
      Store(s.memories[k := updated],
            if old_.sourceIncident.Some? then s.outcomes[(old_.tenant, old_.sourceIncident.value) := updated]
            else s.outcomes,
            s.events + [EventFor(old_, r)])
  }

  function AfterAdd(s: Store, m: Memory): Store {
    s.(memories := s.memories + [m])
  }

  /** One outcome memory per source incident: the first one stored stays. */
  function AfterSaveOutcome(s: Store, m: Memory): Store
    requires m.sourceIncident.Some?
  {
    var key := (m.tenant, m.sourceIncident.value);
    if key in s.outcomes then s
    else s.(memories := s.memories + [m], outcomes := s.outcomes[key := m])
  }

  class InMemoryStore {
    var memories: seq<Memory>
    var outcomes: map<OutcomeKey, Memory>
    var events: seq<MemoryEvent>

    constructor (memories: seq<Memory>)
      ensures View() == Store(memories, map[], [])
    {
      this.memories, outcomes, events := memories, map[], [];
    }

    function View(): Store
      reads this
    {
      Store(memories, outcomes, events)
    }

    method AddMemory(m: Memory)
      modifies this
      ensures View() == AfterAdd(old(View()), m)
    {
      memories := memories + [m];
    }

    method SaveOutcomeMemory(m: Memory) returns (r: Result<Memory>)
      modifies this
      ensures m.sourceIncident.None? <==> r.Err?
      ensures r.Err? ==> View() == old(View())
      ensures r.Ok? ==> View() == AfterSaveOutcome(old(View()), m)
                        && r.value == View().outcomes[(m.tenant, m.sourceIncident.value)]
    {
      if m.sourceIncident.None? {
        return Err("outcome memory requires a source incident");
      }
      var key := (m.tenant, m.sourceIncident.value);
      if key in outcomes {
        return Ok(outcomes[key]);
      }
      outcomes := outcomes[key := m];
      memories := memories + [m];
      r := Ok(m);
    }

    method GovernMemory(id: Uuid, request: Request, now: int) returns (r: Result<Option<Memory>>)
      modifies this
      ensures r == GovernReply(old(View()), id, request, now)
      ensures View() == AfterGovern(old(View()), id, request, now)
    {
      var k := 0;
      while k < |memories| && (memories[k].id != id || memories[k].tenant != request.tenant)
        invariant k <= |memories|
        invariant forall j :: 0 <= j < k ==> memories[j].id != id || memories[j].tenant != request.tenant
      {
        k := k + 1;
      }
      assert k == IndexOf(memories, id, request.tenant);
      if k == |memories| {
        return Ok(None);
      }
      var memory := memories[k];
      var target := GovernanceTarget(memory, request, memories, now);
      if target.Err? {
        return Err(target.reason);
      }
      var updated := Governed(memory, request, target.value, now);
      memories := memories[k := updated];
      if memory.sourceIncident.Some? {
        outcomes := outcomes[(memory.tenant, memory.sourceIncident.value) := updated];
      }
      events := events + [MemoryEvent(memory.id, memory.tenant, request.actor, request.action, request.reason,
                                      request.reasonCode, memory.memoryDigest, memory.state, target.value)];
      r := Ok(Some(updated));
    }
  }

  // ----- runs -----

  /** A store together with every memory as it first entered, position by position. */
  datatype History = History(entered: seq<Memory>, store: Store)

  datatype Step = Add(memory: Memory) | SaveOutcome(memory: Memory) | Govern(id: Uuid, request: Request, now: int)

  function NextStore(s: Store, step: Step): Store {
    match step
    case Add(m) => AfterAdd(s, m)
    case SaveOutcome(m) => if m.sourceIncident.Some? then AfterSaveOutcome(s, m) else s
    case Govern(id, r, now) => AfterGovern(s, id, r, now)
  }

  function Next(h: History, step: Step): History {
    var s := NextStore(h.store, step);
    History(if |s.memories| > |h.store.memories| then h.entered + [s.memories[|s.memories| - 1]] else h.entered, s)
  }

  function Run(h: History, steps: seq<Step>): History
    decreases |steps|
  {
    if steps == [] then h else Next(Run(h, steps[..|steps| - 1]), steps[|steps| - 1])
  }

  /** New memories have fresh ids; the fixtures are not superseded and are valid exactly when
      active; outcomes enter pending review, as the service prepares them. */
  predicate Fresh(m: Memory) {
    m.state != Superseded && (m.valid <==> m.state == Active)
  }

  predicate NewId(memories: seq<Memory>, m: Memory) {
    forall i :: 0 <= i < |memories| ==> memories[i].id != m.id
  }

  predicate Admissible(s: Store, step: Step) {
    match step
    case Add(m) => NewId(s.memories, m) && Fresh(m)
    case SaveOutcome(m) => NewId(s.memories, m) && m.state == Pending && !m.valid
    case Govern(_, _, _) => true
  }

  ghost predicate AdmissibleRun(h: History, steps: seq<Step>) {
    forall k :: 0 <= k < |steps| ==> Admissible(Run(h, steps[..k]).store, steps[k])
  }

  ghost predicate Initial(h: History) {
    && h.store == Store(h.entered, map[], [])
    && (forall i, j :: 0 <= i < j < |h.entered| ==> h.entered[i].id != h.entered[j].id)
    && (forall i :: 0 <= i < |h.entered| ==> Fresh(h.entered[i]))
  }

  // ----- identities -----

  predicate SameIdentity(a: Memory, b: Memory) {
    && a.id == b.id && a.tenant == b.tenant && a.service == b.service
    && a.serviceVersion == b.serviceVersion && a.policy == b.policy
    && a.observedBy == b.observedBy && a.memoryDigest == b.memoryDigest && a.createdAt == b.createdAt
    && a.outcomeScore == b.outcomeScore
  }

  ghost predicate UniqueIds(memories: seq<Memory>) {
    forall i, j :: 0 <= i < j < |memories| ==> memories[i].id != memories[j].id
  }

  ghost predicate Aligned(h: History) {
    && |h.entered| == |h.store.memories|
    && (forall i :: 0 <= i < |h.entered| ==> SameIdentity(h.entered[i], h.store.memories[i]))
    && UniqueIds(h.store.memories)
  }

  // ----- the log replays -----

  predicate About(e: MemoryEvent, m: Memory) {
    e.memoryId == m.id && e.tenant == m.tenant
  }

  /** State and governance version of one memory after the log entries about it. */
  function Replay(m: Memory, events: seq<MemoryEvent>): (MemoryState, nat)
  {
    if events == [] then (m.state, m.governanceVersion)
    else
      var e := events[|events| - 1];
      var before := Replay(m, events[..|events| - 1]);
      if About(e, m) then (e.to, before.1 + 1) else before
  }

  /** Every log entry is about a memory that entered. */
  ghost predicate LogCovered(entered: seq<Memory>, events: seq<MemoryEvent>) {
    forall k :: 0 <= k < |events| ==> exists i :: 0 <= i < |entered| && About(events[k], entered[i])
  }

  /** Every log entry continues its memory's own history by an allowed move. */
  ghost predicate LogLegal(entered: seq<Memory>, events: seq<MemoryEvent>) {
    forall k, i :: 0 <= k < |events| && 0 <= i < |entered| ==> EntryLegal(entered[i], events, k)
  }

  ghost predicate EntryLegal(m: Memory, events: seq<MemoryEvent>, k: nat)
    requires k < |events|
  {
    About(events[k], m) ==> events[k].from == Replay(m, events[..k]).0 && Allowed(events[k].from, events[k].to)
  }

  ghost predicate LogReplays(h: History)
    requires |h.entered| == |h.store.memories|
  {
    forall i :: 0 <= i < |h.entered| ==>
      (h.store.memories[i].state, h.store.memories[i].governanceVersion) == Replay(h.entered[i], h.store.events)
  }

  ghost predicate LogOk(h: History)
    requires |h.entered| == |h.store.memories|
  {
    LogCovered(h.entered, h.store.events) && LogLegal(h.entered, h.store.events) && LogReplays(h)
  }

  /** Valid means active, and whoever activated a memory did not observe it. */
  ghost predicate ActivationOk(h: History)
    requires |h.entered| == |h.store.memories|
  {
    forall i :: 0 <= i < |h.entered| ==>
      && (h.store.memories[i].valid <==> h.store.memories[i].state == Active)
      && (h.store.memories[i].state == Active && h.entered[i].state != Active ==> IndependentlyActivated(h.store.events, h.entered[i]))
  }

  ghost predicate IndependentlyActivated(events: seq<MemoryEvent>, m: Memory) {
    exists k :: 0 <= k < |events| && About(events[k], m) && events[k].to == Active && m.observedBy != Some(events[k].actor)
  }

  // ----- what every log entry certifies -----

  /** The state an action leads to, and no other action does. */
  predicate LeadsTo(a: Action, to: MemoryState) {
    && (to == Active <==> a == Certify || a == Activate)
    && (to == Quarantined <==> a == Quarantine) && (to == Rejected <==> a == Reject)
    && (to == Superseded <==> a == Supersede) && (to == Revoked <==> a == Revoke)
    && (to == Expired <==> a == Expire) && to != Pending
  }

  /** An entry is one that its memory and its request allowed. */
  predicate EntryGuarded(e: MemoryEvent, m: Memory) {
    && LeadsTo(e.action, e.to) && MayFollow(e.from, e.to) && e.memoryDigest == m.memoryDigest
    && (e.action == Certify ==> m.outcomeScore != 0.0 && e.reasonCode == EvidenceAccepted)
    && (e.to == Active ==> m.observedBy != Some(e.actor))
    && (e.action == Revoke ==> !ReviewReason(e.reasonCode))
    && (e.reasonCode == OtherBounded ==> exists c :: c in e.reason && c != ' ' && !('\t' <= c <= '\r'))
  }

  ghost predicate LogGuarded(entered: seq<Memory>, events: seq<MemoryEvent>) {
    forall k, i :: 0 <= k < |events| && 0 <= i < |entered| && About(events[k], entered[i]) ==> EntryGuarded(events[k], entered[i])
  }

  /** The stored record is stamped by the last entry about it, and final states are final. */
  ghost predicate Stamped(was: Memory, now: Memory, events: seq<MemoryEvent>) {
    && now.reviewedBy == LastActor(was, events)
    && (was.state in {Rejected, Superseded, Revoked, Expired} ==> now.state == was.state)
    && (now.supersededAt.Some? <==> was.supersededAt.Some? || now.state == Superseded)
    && (now.revokedAt.Some? <==> was.revokedAt.Some? || (now.state == Revoked && was.state != Revoked))
    && (was.expiresAt.Some? ==> now.expiresAt == was.expiresAt)
    && (was.expiresAt.None? ==> (now.expiresAt.Some? <==> now.state == Expired && was.state != Expired))
  }

  /** Who acted last on a memory. */
  function LastActor(m: Memory, events: seq<MemoryEvent>): Option<string> {
    if events == [] then m.reviewedBy
    else if About(events[|events| - 1], m) then Some(events[|events| - 1].actor)
    else LastActor(m, events[..|events| - 1])
  }

  ghost predicate StampsOk(h: History)
    requires |h.entered| == |h.store.memories|
  {
    forall i :: 0 <= i < |h.entered| ==> Stamped(h.entered[i], h.store.memories[i], h.store.events)
  }

  // ----- the outcome index -----

  /** What the index holds under a key is the stored outcome memory of that tenant's incident, as it is now. */
  ghost predicate Indexed(s: Store, key: OutcomeKey)
    requires key in s.outcomes
  {
    var m := s.outcomes[key];
    m in s.memories && m.tenant == key.0 && m.sourceIncident == Some(key.1)
  }

  ghost predicate IndexOk(s: Store) {
    forall key :: key in s.outcomes ==> Indexed(s, key)
  }

  lemma SaveKeepsIndex(s: Store, m: Memory)
    requires IndexOk(s) && m.sourceIncident.Some?
    ensures IndexOk(AfterSaveOutcome(s, m)) && (m.tenant, m.sourceIncident.value) in AfterSaveOutcome(s, m).outcomes
  {
    var s' := AfterSaveOutcome(s, m);
    forall key | key in s'.outcomes
      ensures Indexed(s', key)
    {
      assert key in s.outcomes ==> Indexed(s, key);
    }
  }

  lemma GovernKeepsIndex(s: Store, id: Uuid, r: Request, now: int)
    requires IndexOk(s) && UniqueIds(s.memories)
    ensures IndexOk(AfterGovern(s, id, r, now))
  {
    var s' := AfterGovern(s, id, r, now);
    forall key | key in s'.outcomes
      ensures Indexed(s', key)
    {
      if key in s.outcomes && s'.outcomes[key] == s.outcomes[key] {
        assert Indexed(s, key);
        IndexedStays(s, s', id, r, now, key);
      } else {
        var k := IndexOf(s.memories, id, r.tenant);
        assert s'.memories[k] == s'.outcomes[key];
      }
    }
  }

  /** An entry that was left alone is not about the governed memory. */
  lemma IndexedStays(s: Store, s': Store, id: Uuid, r: Request, now: int, key: OutcomeKey)
    requires UniqueIds(s.memories) && s' == AfterGovern(s, id, r, now)
    requires key in s.outcomes && key in s'.outcomes && s'.outcomes[key] == s.outcomes[key] && Indexed(s, key)
    ensures Indexed(s', key)
  {
    if s' != s {
      var k := IndexOf(s.memories, id, r.tenant);
      var j :| 0 <= j < |s.memories| && s.memories[j] == s.outcomes[key];
      if j != k {
        assert s'.memories[j] == s.memories[j];
      }
    }
  }

  // ----- supersession -----

  /** Log position at which a memory was superseded, or the log's length. */
  function SupersededAt(events: seq<MemoryEvent>, id: Uuid): (n: nat)
    ensures n <= |events|
  {
    if events == [] then 0
    else
      var init := events[..|events| - 1];
      var k := SupersededAt(init, id);
      if k < |init| then k
      else if events[|events| - 1].memoryId == id && events[|events| - 1].to == Superseded then |init|
      else |events|
  }

  /** memories[j] is where memories[i] points: same tenant and service, same version line, and
      superseded later than memories[i], if at all. */
  ghost predicate PointsTo(s: Store, i: nat, j: nat)
    requires i < |s.memories| && j < |s.memories|
  {
    var a, b := s.memories[i], s.memories[j];
    && a.supersededBy == Some(b.id)
    && a.tenant == b.tenant && a.service == b.service
    && SameLine(b.serviceVersion, a.serviceVersion)
    && SupersededAt(s.events, a.id) < SupersededAt(s.events, b.id)
  }

  /** A memory is superseded exactly when the log says so, and then it points somewhere. */
  ghost predicate Settled(s: Store, i: nat)
    requires i < |s.memories|
  {
    && (s.memories[i].state == Superseded <==> SupersededAt(s.events, s.memories[i].id) < |s.events|)
    && (s.memories[i].state == Superseded ==> exists j :: 0 <= j < |s.memories| && PointsTo(s, i, j))
  }

  ghost predicate SupersessionOk(s: Store) {
    forall i :: 0 <= i < |s.memories| ==> Settled(s, i)
  }

  ghost predicate Inv(h: History) {
    Aligned(h) && LogOk(h) && ActivationOk(h) && SupersessionOk(h.store) && LogGuarded(h.entered, h.store.events) && StampsOk(h)
    && IndexOk(h.store)
  }

  // ----- preservation -----

  lemma InitialInv(h: History)
    requires Initial(h)
    ensures Inv(h)
  {
    assert forall i :: 0 <= i < |h.store.memories| ==> Settled(h.store, i);
  }

  lemma {:induction false} NothingAbout(m: Memory, events: seq<MemoryEvent>)
    requires forall k :: 0 <= k < |events| ==> events[k].memoryId != m.id
    ensures Replay(m, events) == (m.state, m.governanceVersion)
    ensures SupersededAt(events, m.id) == |events|
    ensures LastActor(m, events) == m.reviewedBy
  {
    if events != [] {
      NothingAbout(m, events[..|events| - 1]);
    }
  }

  lemma GrowKeepsLog(h: History, h': History, m: Memory)
    requires Aligned(h) && LogOk(h) && NewId(h.store.memories, m)
    requires h' == History(h.entered + [m], h'.store)
    requires h'.store.memories == h.store.memories + [m] && h'.store.events == h.store.events
    ensures Aligned(h') && LogOk(h')
    ensures SupersededAt(h.store.events, m.id) == |h.store.events|
    ensures LastActor(m, h.store.events) == m.reviewedBy
    ensures forall k :: 0 <= k < |h.store.events| ==> h.store.events[k].memoryId != m.id
  {
    var events := h.store.events;
    forall k | 0 <= k < |events|
      ensures events[k].memoryId != m.id
      ensures exists i :: 0 <= i < |h'.entered| && About(events[k], h'.entered[i])
    {
      var i :| 0 <= i < |h.entered| && About(events[k], h.entered[i]);
      assert SameIdentity(h.entered[i], h.store.memories[i]);
      assert h'.entered[i] == h.entered[i];
    }
    NothingAbout(m, events);
    forall i | 0 <= i < |h'.entered|
      ensures SameIdentity(h'.entered[i], h'.store.memories[i])
      ensures (h'.store.memories[i].state, h'.store.memories[i].governanceVersion) == Replay(h'.entered[i], events)
    {
    }
  }

  lemma GrowKeepsSupersession(s: Store, s': Store, m: Memory)
    requires SupersessionOk(s) && m.state != Superseded
    requires s'.memories == s.memories + [m] && s'.events == s.events
    requires SupersededAt(s.events, m.id) == |s.events|
    ensures SupersessionOk(s')
  {
    forall i | 0 <= i < |s'.memories|
      ensures Settled(s', i)
    {
      if i < |s.memories| {
        assert Settled(s, i) && s'.memories[i] == s.memories[i];
        if s.memories[i].state == Superseded {
          var j :| 0 <= j < |s.memories| && PointsTo(s, i, j);
          assert PointsTo(s', i, j);
        }
      }
    }
  }

  lemma GrowKeepsGuards(h: History, h': History, m: Memory)
    requires Aligned(h) && LogGuarded(h.entered, h.store.events) && StampsOk(h) && m.state != Superseded
    requires h' == History(h.entered + [m], h'.store)
    requires h'.store.memories == h.store.memories + [m] && h'.store.events == h.store.events
    requires forall k :: 0 <= k < |h.store.events| ==> h.store.events[k].memoryId != m.id
    requires LastActor(m, h.store.events) == m.reviewedBy
    ensures LogGuarded(h'.entered, h'.store.events) && StampsOk(h')
  {
    forall i | 0 <= i < |h'.entered|
      ensures Stamped(h'.entered[i], h'.store.memories[i], h'.store.events)
    {
      if i < |h.entered| {
        assert h'.entered[i] == h.entered[i] && h'.store.memories[i] == h.store.memories[i];
      }
    }
  }

  lemma GrowKeepsInv(h: History, h': History, m: Memory)
    requires Inv(h) && NewId(h.store.memories, m) && Fresh(m)
    requires h' == History(h.entered + [m], h'.store)
    requires h'.store.memories == h.store.memories + [m] && h'.store.events == h.store.events && IndexOk(h'.store)
    ensures Inv(h')
  {
    GrowKeepsLog(h, h', m);
    GrowKeepsSupersession(h.store, h'.store, m);
    GrowKeepsGuards(h, h', m);
    forall i | 0 <= i < |h'.entered|
      ensures h'.store.memories[i].valid <==> h'.store.memories[i].state == Active
      ensures h'.store.memories[i].state == Active && h'.entered[i].state != Active
              ==> IndependentlyActivated(h'.store.events, h'.entered[i])
    {
      if i < |h.entered| {
        assert h'.entered[i] == h.entered[i] && h'.store.memories[i] == h.store.memories[i];
      }
    }
  }

  /** One accepted governance request, at position k. */
  ghost predicate GovernedAt(s: Store, s': Store, k: nat, r: Request, now: int) {
    && k < |s.memories|
    && GovernanceTarget(s.memories[k], r, s.memories, now).Ok?
    && s'.memories == s.memories[k := Governed(s.memories[k], r, TargetOf(r.action), now)]
    && s'.events == s.events + [EventFor(s.memories[k], r)]
  }

  lemma GovernKeepsAligned(h: History, s': Store, k: nat, r: Request, now: int)
    requires Aligned(h) && GovernedAt(h.store, s', k, r, now)
    ensures Aligned(History(h.entered, s'))
    ensures forall i :: 0 <= i < |h.entered| ==> (About(EventFor(h.store.memories[k], r), h.entered[i]) <==> i == k)
  {
    var s := h.store;
    forall i | 0 <= i < |h.entered|
      ensures SameIdentity(h.entered[i], s'.memories[i])
      ensures About(EventFor(s.memories[k], r), h.entered[i]) <==> i == k
    {
      assert SameIdentity(h.entered[i], s.memories[i]);
      if i < k { assert s.memories[i].id != s.memories[k].id; }
      if k < i { assert s.memories[k].id != s.memories[i].id; }
    }
    forall i, j | 0 <= i < j < |s'.memories|
      ensures s'.memories[i].id != s'.memories[j].id
    {
      assert s.memories[i].id != s.memories[j].id;
    }
  }

  lemma AppendKeepsLegal(entered: seq<Memory>, events: seq<MemoryEvent>, e: MemoryEvent, k: nat)
    requires LogCovered(entered, events) && LogLegal(entered, events)
    requires k < |entered|
    requires forall i :: 0 <= i < |entered| ==> (About(e, entered[i]) <==> i == k)
    requires e.from == Replay(entered[k], events).0 && Allowed(e.from, e.to)
    ensures LogCovered(entered, events + [e]) && LogLegal(entered, events + [e])
  {
    var all := events + [e];
    assert About(all[|events|], entered[k]);
    forall j, i | 0 <= j < |all| && 0 <= i < |entered|
      ensures EntryLegal(entered[i], all, j)
    {
      if j < |events| {
        assert EntryLegal(entered[i], events, j);
        assert all[..j] == events[..j];
      } else {
        assert all[..j] == events;
      }
    }
    forall j | 0 <= j < |all|
      ensures exists i :: 0 <= i < |entered| && About(all[j], entered[i])
    {
      if j < |events| {
        assert all[j] == events[j];
      }
    }
  }

  lemma GovernKeepsLog(h: History, s': Store, k: nat, r: Request, now: int)
    requires Aligned(h) && LogOk(h) && GovernedAt(h.store, s', k, r, now)
    ensures Aligned(History(h.entered, s')) && LogOk(History(h.entered, s'))
  {
    GovernKeepsAligned(h, s', k, r, now);
    var s := h.store;
    AppendKeepsLegal(h.entered, s.events, EventFor(s.memories[k], r), k);
    assert s'.events[..|s.events|] == s.events;
  }

  lemma GovernKeepsActivation(h: History, s': Store, k: nat, r: Request, now: int)
    requires Aligned(h) && ActivationOk(h) && GovernedAt(h.store, s', k, r, now)
    ensures ActivationOk(History(h.entered, s'))
  {
    var s := h.store;
    var e := EventFor(s.memories[k], r);
    assert SameIdentity(h.entered[k], s.memories[k]);
    assert s'.events[|s.events|] == e;
    forall i | 0 <= i < |h.entered| && s'.memories[i].state == Active && h.entered[i].state != Active
      ensures IndependentlyActivated(s'.events, h.entered[i])
    {
      if i != k {
        var n :| 0 <= n < |s.events| && About(s.events[n], h.entered[i]) && s.events[n].to == Active
                 && h.entered[i].observedBy != Some(s.events[n].actor);
        assert s'.events[n] == s.events[n];
      }
    }
  }

  lemma GrantedIsGuarded(m: Memory, r: Request, memories: seq<Memory>, now: int)
    requires GovernanceTarget(m, r, memories, now).Ok?
    ensures EntryGuarded(EventFor(m, r), m) && (r.replacement.Some? <==> r.action == Supersede)
  {
    GrantedExactly(m, r, memories, now);
  }

  lemma GovernKeepsGuards(h: History, s': Store, k: nat, r: Request, now: int)
    requires Aligned(h) && LogGuarded(h.entered, h.store.events) && GovernedAt(h.store, s', k, r, now)
    ensures LogGuarded(h.entered, s'.events)
  {
    var s := h.store;
    GrantedIsGuarded(s.memories[k], r, s.memories, now);
    GovernKeepsAligned(h, s', k, r, now);
    assert SameIdentity(h.entered[k], s.memories[k]);
    forall n, i | 0 <= n < |s'.events| && 0 <= i < |h.entered| && About(s'.events[n], h.entered[i])
      ensures EntryGuarded(s'.events[n], h.entered[i])
    {
      if n < |s.events| {
        assert s'.events[n] == s.events[n];
      }
    }
  }

  lemma GovernedIsStamped(was: Memory, m: Memory, events: seq<MemoryEvent>, r: Request, memories: seq<Memory>, now: int)
    requires Stamped(was, m, events) && GovernanceTarget(m, r, memories, now).Ok? && About(EventFor(m, r), was)
    ensures Stamped(was, Governed(m, r, TargetOf(r.action), now), events + [EventFor(m, r)])
  {
    GrantedIsGuarded(m, r, memories, now);
    assert (events + [EventFor(m, r)])[..|events|] == events;
  }

  lemma GovernKeepsStamps(h: History, s': Store, k: nat, r: Request, now: int)
    requires Aligned(h) && StampsOk(h) && GovernedAt(h.store, s', k, r, now)
    ensures StampsOk(History(h.entered, s'))
  {
    var s := h.store;
    GovernKeepsAligned(h, s', k, r, now);
    assert s'.events[..|s.events|] == s.events;
    forall i | 0 <= i < |h.entered|
      ensures Stamped(h.entered[i], s'.memories[i], s'.events)
    {
      if i == k {
        GovernedIsStamped(h.entered[k], s.memories[k], s.events, r, s.memories, now);
      }
    }
  }

  lemma GovernKeepsSupersession(s: Store, s': Store, k: nat, r: Request, now: int)
    requires UniqueIds(s.memories) && SupersessionOk(s) && GovernedAt(s, s', k, r, now)
    ensures SupersessionOk(s')
  {
    var n := |s.events|;
    var e := EventFor(s.memories[k], r);
    assert s'.events[..n] == s.events && s'.events[n] == e;
    forall i | 0 <= i < |s.memories|
      ensures Settled(s', i)
    {
      assert Settled(s, i);
      if i < k { assert s.memories[i].id != s.memories[k].id; }
      if k < i { assert s.memories[k].id != s.memories[i].id; }
      if s'.memories[i].state == Superseded {
        GovernKeepsPointer(s, s', k, r, now, i);
      }
    }
  }

  lemma GovernKeepsPointer(s: Store, s': Store, k: nat, r: Request, now: int, i: nat)
    requires UniqueIds(s.memories) && SupersessionOk(s) && GovernedAt(s, s', k, r, now)
    requires i < |s.memories| && s'.memories[i].state == Superseded
    ensures exists j :: 0 <= j < |s'.memories| && PointsTo(s', i, j)
  {
    var n := |s.events|;
    assert s'.events[..n] == s.events && s'.events[n] == EventFor(s.memories[k], r);
    assert Settled(s, i);
    if i == k {
      var m :| m in s.memories && AdmissibleReplacement(m, s.memories[k], r.replacement, now) && m.id != s.memories[k].id;
      var j :| 0 <= j < |s.memories| && s.memories[j] == m;
      assert Settled(s, j);
      assert SupersededAt(s.events, m.id) == n;
      assert SupersededAt(s.events, s.memories[k].id) == n;
      assert PointsTo(s', i, j);
    } else {
      assert s'.memories[i] == s.memories[i];
      var j :| 0 <= j < |s.memories| && PointsTo(s, i, j);
      if i < k { assert s.memories[i].id != s.memories[k].id; } else { assert s.memories[k].id != s.memories[i].id; }
      assert PointsTo(s', i, j);
    }
  }

  lemma StepKeepsInv(h: History, step: Step)
    requires Inv(h) && Admissible(h.store, step)
    ensures Inv(Next(h, step))
  {
    var h' := Next(h, step);
    match step
    case Add(m) =>
      assert forall key :: key in h.store.outcomes ==> Indexed(h.store, key);
      GrowKeepsInv(h, h', m);
    case SaveOutcome(m) =>
      if m.sourceIncident.Some? && (m.tenant, m.sourceIncident.value) !in h.store.outcomes {
        SaveKeepsIndex(h.store, m);
        GrowKeepsInv(h, h', m);
      }
    case Govern(id, r, now) =>
      var reply := GovernReply(h.store, id, r, now);
      if reply.Ok? && reply.value.Some? {
        var k := IndexOf(h.store.memories, id, r.tenant);
        GovernKeepsLog(h, h'.store, k, r, now);
        GovernKeepsActivation(h, h'.store, k, r, now);
        GovernKeepsSupersession(h.store, h'.store, k, r, now);
        GovernKeepsGuards(h, h'.store, k, r, now);
        GovernKeepsStamps(h, h'.store, k, r, now);
        GovernKeepsIndex(h.store, id, r, now);
      }
  }

  lemma {:induction false} ReachableInv(h: History, steps: seq<Step>)
    requires Initial(h) && AdmissibleRun(h, steps)
    ensures Inv(Run(h, steps))
    decreases |steps|
  {
    if steps == [] {
      InitialInv(h);
    } else {
      var init := steps[..|steps| - 1];
      forall k | 0 <= k < |init|
        ensures Admissible(Run(h, init[..k]).store, init[k])
      {
        assert init[..k] == steps[..k];
      }
      ReachableInv(h, init);
      StepKeepsInv(Run(h, init), steps[|steps| - 1]);
    }
  }

  /** In every reachable store the log, replayed over the memories as they entered, yields each
      stored state and governance version; the log is a legal history of each memory; and a
      memory is valid exactly when it is active. */
  lemma LogReproducesStore(h: History, steps: seq<Step>, i: nat)
    requires Initial(h) && AdmissibleRun(h, steps)
    requires i < |Run(h, steps).store.memories|
    ensures |Run(h, steps).entered| == |Run(h, steps).store.memories|
    ensures var end := Run(h, steps);
            var now, was := end.store.memories[i], end.entered[i];
            && SameIdentity(was, now)
            && Replay(was, end.store.events) == (now.state, now.governanceVersion)
            && (now.valid <==> now.state == Active)
            && LogLegal(end.entered, end.store.events)
  {
    ReachableInv(h, steps);
  }

  /** In every reachable store each log entry is about exactly one memory that entered, and is one its
      memory and request allowed: a certification of a conclusive outcome for accepted evidence, an
      activation by someone other than the observer, a revocation for a revocation reason, and never
      an unexplained OTHER_BOUNDED. */
  lemma LogIsGuarded(h: History, steps: seq<Step>, k: nat)
    requires Initial(h) && AdmissibleRun(h, steps) && k < |Run(h, steps).store.events|
    ensures var end := Run(h, steps);
            exists i :: 0 <= i < |end.entered| && About(end.store.events[k], end.entered[i])
                        && EntryGuarded(end.store.events[k], end.entered[i])
  {
    ReachableInv(h, steps);
  }

  /** In every reachable store a memory carries the last actor of its log, is dated as superseded or
      revoked exactly when it is, and is dated as expired without losing an earlier expiry. */
  lemma RecordsAreStamped(h: History, steps: seq<Step>, i: nat)
    requires Initial(h) && AdmissibleRun(h, steps) && i < |Run(h, steps).store.memories|
    ensures |Run(h, steps).entered| == |Run(h, steps).store.memories|
    ensures Stamped(Run(h, steps).entered[i], Run(h, steps).store.memories[i], Run(h, steps).store.events)
  {
    ReachableInv(h, steps);
  }

  /** In every reachable store the index holds, for each incident an outcome was saved for, a stored outcome
      memory of that incident as it is now. */
  lemma OutcomesAreIndexed(h: History, steps: seq<Step>, m: Memory)
    requires Initial(h) && AdmissibleRun(h, steps)
    ensures forall key :: key in Run(h, steps).store.outcomes ==> Indexed(Run(h, steps).store, key)
    ensures m.sourceIncident.Some? ==> (m.tenant, m.sourceIncident.value) in AfterSaveOutcome(Run(h, steps).store, m).outcomes
  {
    ReachableInv(h, steps);
  }

  // ----- following supersession pointers -----

  /** Positions visited when pointers are followed by id within the tenant, at most `fuel` hops. */
  function Chain(memories: seq<Memory>, i: nat, fuel: nat): (c: seq<nat>)
    requires i < |memories|
    ensures c != [] && c[0] == i
    ensures forall k :: 0 <= k < |c| ==> c[k] < |memories|
    decreases fuel
  {
    var m := memories[i];
    if fuel == 0 || m.state != Superseded || m.supersededBy.None? then [i]
    else
      var j := IndexOf(memories, m.supersededBy.value, m.tenant);
      if j == |memories| then [i] else [i] + Chain(memories, j, fuel - 1)
  }

  lemma SameLineTransitive(a: string, b: string, c: string)
    requires SameLine(a, b) && SameLine(b, c)
    ensures SameLine(a, c) && SameLine(b, a) && SameLine(c, b)
  {
  }

  ghost predicate OnOneLine(memories: seq<Memory>, i: nat, j: nat)
    requires i < |memories| && j < |memories|
  {
    && memories[i].tenant == memories[j].tenant
    && memories[i].service == memories[j].service
    && SameLine(memories[i].serviceVersion, memories[j].serviceVersion)
  }

  lemma OneLineTransitive(memories: seq<Memory>, i: nat, j: nat, k: nat)
    requires i < |memories| && j < |memories| && k < |memories|
    requires OnOneLine(memories, j, k)
    requires memories[i].tenant == memories[j].tenant && memories[i].service == memories[j].service
    requires SameLine(memories[j].serviceVersion, memories[i].serviceVersion)
    ensures OnOneLine(memories, i, k)
  {
    SameLineTransitive(memories[j].serviceVersion, memories[i].serviceVersion, memories[i].serviceVersion);
    SameLineTransitive(memories[i].serviceVersion, memories[j].serviceVersion, memories[k].serviceVersion);
  }

  lemma SamePosition(memories: seq<Memory>, a: nat, b: nat)
    requires UniqueIds(memories) && a < |memories| && b < |memories|
    requires memories[a].id == memories[b].id
    ensures a == b
  {
  }

  lemma PointerIsFollowed(s: Store, i: nat) returns (j: nat)
    requires UniqueIds(s.memories) && SupersessionOk(s)
    requires i < |s.memories| && s.memories[i].state == Superseded
    ensures j < |s.memories| && PointsTo(s, i, j)
    ensures s.memories[i].supersededBy.Some?
    ensures IndexOf(s.memories, s.memories[i].supersededBy.value, s.memories[i].tenant) == j
  {
    assert Settled(s, i);
    var t :| 0 <= t < |s.memories| && PointsTo(s, i, t);
    j := IndexOf(s.memories, s.memories[i].supersededBy.value, s.memories[i].tenant);
    SamePosition(s.memories, j, t);
  }

  lemma ChainUnfolds(s: Store, i: nat, fuel: nat) returns (j: nat)
    requires UniqueIds(s.memories) && SupersessionOk(s) && i < |s.memories|
    requires fuel > 0 && s.memories[i].state == Superseded
    ensures j < |s.memories| && PointsTo(s, i, j)
    ensures Chain(s.memories, i, fuel) == [i] + Chain(s.memories, j, fuel - 1)
  {
    j := PointerIsFollowed(s, i);
  }

  ghost predicate Linked(s: Store, c: seq<nat>) {
    && (forall a :: 0 <= a < |c| ==> c[a] < |s.memories|)
    && (forall a :: 0 < a < |c| ==> PointsTo(s, c[a - 1], c[a]))
  }

  lemma LinkedPrepend(s: Store, i: nat, c: seq<nat>)
    requires Linked(s, c) && c != [] && i < |s.memories| && PointsTo(s, i, c[0])
    ensures Linked(s, [i] + c)
  {
    var d := [i] + c;
    forall a | 0 < a < |d|
      ensures PointsTo(s, d[a - 1], d[a])
    {
      assert d[a] == c[a - 1];
      if a > 1 { assert d[a - 1] == c[a - 2]; }
    }
  }

  lemma {:induction false} ChainLinked(s: Store, i: nat, fuel: nat)
    requires UniqueIds(s.memories) && SupersessionOk(s) && i < |s.memories|
    ensures Linked(s, Chain(s.memories, i, fuel))
    decreases fuel
  {
    if s.memories[i].state == Superseded && fuel > 0 {
      var j := ChainUnfolds(s, i, fuel);
      ChainLinked(s, j, fuel - 1);
      LinkedPrepend(s, i, Chain(s.memories, j, fuel - 1));
    }
  }

  predicate UsesFuel(memories: seq<Memory>, c: seq<nat>, fuel: nat)
    requires c != [] && forall a :: 0 <= a < |c| ==> c[a] < |memories|
  {
    memories[c[|c| - 1]].state == Superseded ==> |c| == fuel + 1
  }

  lemma FuelPrepend(memories: seq<Memory>, i: nat, c: seq<nat>, fuel: nat)
    requires i < |memories| && c != [] && (forall a :: 0 <= a < |c| ==> c[a] < |memories|) && UsesFuel(memories, c, fuel)
    ensures UsesFuel(memories, [i] + c, fuel + 1)
  {
    assert ([i] + c)[|c|] == c[|c| - 1];
  }

  /** A chain that stops at a superseded memory has used all its fuel. */
  lemma {:induction false} ChainExhausts(s: Store, i: nat, fuel: nat)
    requires UniqueIds(s.memories) && SupersessionOk(s) && i < |s.memories|
    ensures UsesFuel(s.memories, Chain(s.memories, i, fuel), fuel)
    decreases fuel
  {
    if s.memories[i].state == Superseded && fuel > 0 {
      var j := ChainUnfolds(s, i, fuel);
      ChainExhausts(s, j, fuel - 1);
      FuelPrepend(s.memories, i, Chain(s.memories, j, fuel - 1), fuel - 1);
    }
  }

  /** The moment of supersession strictly moves forward along a chain, which stays on one line. */
  lemma {:induction false} LinkedClimbs(s: Store, c: seq<nat>, a: nat, b: nat)
    requires Linked(s, c) && a < b < |c|
    ensures SupersededAt(s.events, s.memories[c[a]].id) < SupersededAt(s.events, s.memories[c[b]].id)
    ensures OnOneLine(s.memories, c[a], c[b])
    decreases b - a
  {
    assert PointsTo(s, c[a], c[a + 1]);
    SameLineTransitive(s.memories[c[a + 1]].serviceVersion, s.memories[c[a]].serviceVersion, s.memories[c[a]].serviceVersion);
    if a + 1 < b {
      LinkedClimbs(s, c, a + 1, b);
      OneLineTransitive(s.memories, c[a], c[a + 1], c[b]);
    }
  }

  lemma {:induction false} DistinctFit(c: seq<nat>, n: nat)
    requires forall k :: 0 <= k < |c| ==> c[k] < n
    requires forall a, b :: 0 <= a < b < |c| ==> c[a] != c[b]
    ensures |c| <= n
    decreases n
  {
    if c != [] {
      assert c[0] < n;
      if n - 1 in c {
        var k :| 0 <= k < |c| && c[k] == n - 1;
        var d := c[..k] + c[k + 1..];
        forall a | 0 <= a < |d|
          ensures d[a] < n - 1
        {
          assert d[a] == c[if a < k then a else a + 1];
        }
        DistinctFit(d, n - 1);
      } else {
        DistinctFit(c, n - 1);
      }
    }
  }

  /** In every reachable store, following supersession pointers from any memory never cycles: it
      ends, within as many hops as there are memories, at a memory that is not superseded, and
      every memory on the way has the same tenant, service and version line. */
  lemma SupersessionEnds(h: History, steps: seq<Step>, i: nat)
    requires Initial(h) && AdmissibleRun(h, steps)
    requires i < |Run(h, steps).store.memories|
    ensures var memories := Run(h, steps).store.memories;
            var c := Chain(memories, i, |memories|);
            && |c| <= |memories|
            && (forall a, b :: 0 <= a < b < |c| ==> c[a] != c[b])
            && memories[c[|c| - 1]].state != Superseded
            && (forall a :: 0 <= a < |c| ==> OnOneLine(memories, i, c[a]))
  {
    ReachableInv(h, steps);
    var s := Run(h, steps).store;
    var c := Chain(s.memories, i, |s.memories|);
    ChainLinked(s, i, |s.memories|);
    ChainExhausts(s, i, |s.memories|);
    forall a, b | 0 <= a < b < |c|
      ensures c[a] != c[b] && OnOneLine(s.memories, c[a], c[b])
    {
      LinkedClimbs(s, c, a, b);
    }
    assert OnOneLine(s.memories, i, i);
    DistinctFit(c, |s.memories|);
  }
}
