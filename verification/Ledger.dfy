/** The append-only authority ledger (ledger.py): hash-chained events and the repository that
    extends one run's chain. */
module Ledger {
  import opened Common
  import opened Canonical
  import opened Workflow

  const EVENT_HASH_DOMAIN := "recallops-authority-event-v1"

  function ZeroEventHash(): Digest {
    seq(64, _ => '0')
  }

  datatype Outcome = Accepted | Denied | Observed

  datatype Event = Event(
    eventId: Uuid,
    runId: Uuid,
    tenant: string,
    sequence: nat,
    recordedAt: int,
    eventType: string,
    outcome: Outcome,
    actorSubject: string,
    actorRole: Role,
    channel: Channel,
    workflowId: Uuid,
    epochBefore: nat,
    epochAfter: nat,
    stateBefore: string,
    stateAfter: string,
    capabilitiesBefore: seq<string>,
    capabilitiesAfter: seq<string>,
    objectType: Option<string>,
    objectId: Option<string>,
    objectDigest: Option<Digest>,
    reasonCode: string,
    displaySummary: string,
    policyVersion: string,
    buildSha: string,
    previousHash: Digest,
    eventHash: Digest)

  // ----- canonical payload and hash -----

  function OutcomeName(o: Outcome): string {
    match o
    case Accepted => "accepted"
    case Denied => "denied"
    case Observed => "observed"
  }

  function RoleName(r: Role): string {
    match r
    case Agent => "agent"
    case Operator => "operator"
    case Reviewer => "reviewer"
    case SystemRole => "system"
  }

  function ChannelName(c: Channel): string {
    match c
    case Webmcp => "webmcp"
    case Ui => "ui"
    case SystemChannel => "system"
  }

  lemma EnumNamesInjective()
    ensures forall a, b :: OutcomeName(a) == OutcomeName(b) ==> a == b
    ensures forall a, b :: RoleName(a) == RoleName(b) ==> a == b
    ensures forall a, b :: ChannelName(a) == ChannelName(b) ==> a == b
  {
    assert OutcomeName(Accepted)[0] != OutcomeName(Observed)[0];
    assert RoleName(Operator)[0] != RoleName(Reviewer)[0];
    assert ChannelName(Webmcp)[0] != ChannelName(SystemChannel)[0];
  }

  function OptionalText(o: Option<string>): Json {
    if o.Some? then JStr(o.value) else JNull
  }

  function OptionalDigest(o: Option<Digest>): Json {
    if o.Some? then JStr(o.value) else JNull
  }

  function Texts(names: seq<string>): (r: Json)
  {
    JArr(seq(|names|, i requires 0 <= i < |names| => JStr(names[i])))
  }

  lemma TextsInjective(a: seq<string>, b: seq<string>)
    requires Texts(a) == Texts(b)
    ensures a == b
  {
    assert |Texts(a).items| == |Texts(b).items|;
    forall i | 0 <= i < |a|
      ensures a[i] == b[i]
    {
      assert Texts(a).items[i] == Texts(b).items[i];
    }
  }

  /** canonical_event_payload: every field but the hash, with the sequence and the epochs as
      decimal strings. */
  function Payload(p: Primitives, e: Event): Json {
    JObj(AuthorityEventKeys, [
      JStr(p.uuidText(e.eventId)), JStr(p.uuidText(e.runId)), JStr(e.tenant), JStr(Decimal(e.sequence)),
      JStr(p.timeText(e.recordedAt)), JStr(e.eventType), JStr(OutcomeName(e.outcome)),
      JStr(e.actorSubject), JStr(RoleName(e.actorRole)), JStr(ChannelName(e.channel)),
      JStr(p.uuidText(e.workflowId)), JStr(Decimal(e.epochBefore)), JStr(Decimal(e.epochAfter)),
      JStr(e.stateBefore), JStr(e.stateAfter),
      Texts(e.capabilitiesBefore), Texts(e.capabilitiesAfter),
      OptionalText(e.objectType), OptionalText(e.objectId), OptionalDigest(e.objectDigest),
      JStr(e.reasonCode), JStr(e.displaySummary), JStr(e.policyVersion), JStr(e.buildSha),
      JStr(e.previousHash)])
  }

  lemma TextsAreJson(names: seq<string>)
    ensures IsJson(Texts(names))
  {
  }

  lemma PayloadIsJson(p: Primitives, e: Event)
    ensures IsJson(Payload(p, e))
  {
    TextsAreJson(e.capabilitiesBefore);
    TextsAreJson(e.capabilitiesAfter);
    forall i | 0 <= i < 25
      ensures IsJson(Payload(p, e).members[i])
    {
    }
  }

  /** The payload determines every field but the stored hash. */
  lemma PayloadInjective(p: Primitives, a: Event, b: Event)
    requires TextsAreInjective(p)
    requires Payload(p, a) == Payload(p, b)
    ensures a == b.(eventHash := a.eventHash)
  {
    var x, y := Payload(p, a).members, Payload(p, b).members;
    forall i | 0 <= i < 25
      ensures x[i] == y[i]
    {
    }
    DecimalRoundTrip(a.sequence);
    DecimalRoundTrip(b.sequence);
    DecimalRoundTrip(a.epochBefore);
    DecimalRoundTrip(b.epochBefore);
    DecimalRoundTrip(a.epochAfter);
    DecimalRoundTrip(b.epochAfter);
    EnumNamesInjective();
    assert x[15] == y[15] && x[16] == y[16];
    TextsInjective(a.capabilitiesBefore, b.capabilitiesBefore);
    TextsInjective(a.capabilitiesAfter, b.capabilitiesAfter);
    assert x[0] == y[0] && x[1] == y[1] && x[2] == y[2] && x[3] == y[3] && x[4] == y[4];
    assert x[5] == y[5] && x[6] == y[6] && x[7] == y[7] && x[8] == y[8] && x[9] == y[9];
    assert x[10] == y[10] && x[11] == y[11] && x[12] == y[12] && x[13] == y[13] && x[14] == y[14];
    assert x[17] == y[17] && x[18] == y[18] && x[19] == y[19] && x[20] == y[20];
    assert x[21] == y[21] && x[22] == y[22] && x[23] == y[23] && x[24] == y[24];
  }

  /** The bytes one event hash covers. */
  function EventPreimage(p: Primitives, previous: Digest, payload: Json): seq<byte> {
    Ascii(EVENT_HASH_DOMAIN) + [0] + Unhex(previous) + [0] + p.canonical(payload)
  }

  function EventHash(p: Primitives, previous: Digest, payload: Json): Digest {
    p.sha256(EventPreimage(p, previous, payload))
  }

  /** The event hash as a function of the predecessor's hash and the event it covers. */
  type Hasher = (Digest, Event) -> Digest

  function EventHasher(p: Primitives): Hasher {
    (previous, e) => EventHash(p, previous, Payload(p, e))
  }

  predicate VerifyEvent(h: Hasher, e: Event, expectedPrevious: Digest) {
    e.previousHash == expectedPrevious && e.eventHash == h(expectedPrevious, e)
  }

  /** The preimage frames its two variable parts unambiguously. */
  lemma PreimageInjective(p: Primitives, prev: Digest, x: JsonValue, prev': Digest, x': JsonValue)
    requires CanonicalIsInjective(p)
    requires EventPreimage(p, prev, x) == EventPreimage(p, prev', x')
    ensures prev == prev' && x == x'
  {
    var head := Ascii(EVENT_HASH_DOMAIN) + [0];
    var a, b := EventPreimage(p, prev, x), EventPreimage(p, prev', x');
    var n := |head|;
    assert a == head + (Unhex(prev) + [0] + p.canonical(x));
    assert b == head + (Unhex(prev') + [0] + p.canonical(x'));
    assert a[n..n + 32] == Unhex(prev) && b[n..n + 32] == Unhex(prev');
    UnhexInjective(prev, prev');
    assert a[n + 33..] == p.canonical(x) && b[n + 33..] == p.canonical(x');
  }

  // ----- building events -----

  datatype RunBinding = RunBinding(runId: Uuid, buildSha: string, policyVersion: string)

  /** What a caller of append_transition supplies besides the two snapshots. */
  datatype Entry = Entry(
    actorSubject: string,
    actorRole: Role,
    channel: Channel,
    reasonCode: string := "STATE_TRANSITION_ACCEPTED",
    objectType: Option<string> := None,
    objectId: Option<string> := None,
    objectDigest: Option<Digest> := None,
    eventType: Option<string> := None,
    stateBefore: Option<string> := None,
    displaySummary: Option<string> := None)

  /** `override or fallback` on optional text. */
  function OrText(override: Option<string>, fallback: string): string {
    if override.Some? && override.value != "" then override.value else fallback
  }

  function UnhashedEvent(run: RunBinding, sequence: nat, previous: Digest, before: Snapshot,
                         after: Snapshot, entry: Entry, eventId: Uuid, now: int): Event
  {
    Event(
      eventId, run.runId, before.tenant, sequence, now,
      OrText(entry.eventType, StateName(before.state) + "_TO_" + StateName(after.state)),
      Accepted, entry.actorSubject, entry.actorRole, entry.channel, before.workflowId,
      before.epoch, after.epoch,
      OrText(entry.stateBefore, StateName(before.state)), StateName(after.state),
      before.AvailableTools(), after.AvailableTools(),
      entry.objectType, entry.objectId, entry.objectDigest, entry.reasonCode,
      OrText(entry.displaySummary,
             "Authority committed: " + StateName(before.state) + " \U{2192} " + StateName(after.state)),
      run.policyVersion, run.buildSha, previous, ZeroEventHash())
  }

  function MakeEvent(p: Primitives, run: RunBinding, sequence: nat, previous: Digest,
                     before: Snapshot, after: Snapshot, entry: Entry, eventId: Uuid, now: int): Event
  {
    var e := UnhashedEvent(run, sequence, previous, before, after, entry, eventId, now);
    e.(eventHash := EventHash(p, previous, Payload(p, e)))
  }

  function HeadHash(events: seq<Event>): Digest {
    if events == [] then ZeroEventHash() else events[|events| - 1].eventHash
  }

  /** The event append_transition adds to a chain. */
  function NextEvent(p: Primitives, run: RunBinding, events: seq<Event>, before: Snapshot,
                     after: Snapshot, entry: Entry, eventId: Uuid, now: int): (e: Event)
    ensures VerifyEvent(EventHasher(p), e, HeadHash(events))
  {
    MakeEvent(p, run, |events| + 1, HeadHash(events), before, after, entry, eventId, now)
  }

  /** Whether a text is the given one, or the fallback where none or an empty one was given. */
  predicate GivenOr(text: string, given: Option<string>, fallback: string) {
    match given
    case None => text == fallback
    case Some(x) => text == if |x| > 0 then x else fallback
  }

  /** The texts an event carries: those the caller gave, and names of the transition in their place. */
  lemma TextsAreGivenOrNamed(p: Primitives, run: RunBinding, events: seq<Event>, before: Snapshot, after: Snapshot,
                             entry: Entry, eventId: Uuid, now: int)
    ensures var e := NextEvent(p, run, events, before, after, entry, eventId, now);
            && e.eventId == eventId && e.recordedAt == now
            && GivenOr(e.eventType, entry.eventType, StateName(before.state) + "_TO_" + StateName(after.state))
            && GivenOr(e.stateBefore, entry.stateBefore, StateName(before.state))
            && GivenOr(e.displaySummary, entry.displaySummary,
                       "Authority committed: " + StateName(before.state) + " \U{2192} " + StateName(after.state))
  {
  }

  const GENESIS_ENTRY := Entry(
    "recallops-run-allocator", SystemRole, SystemChannel, "RUN_GENESIS_ACCEPTED",
    None, None, None, Some("RUN_GENESIS"), Some("ABSENT"),
    Some("Authority committed: isolated judge run created"))

  /** The snapshot a genesis event starts from: the same row, not yet active, at epoch zero. */
  function BeforeGenesis(snapshot: Snapshot): Snapshot {
    Snapshot(snapshot.workflowId, snapshot.tenant, snapshot.state, 0, false, None, None, None)
  }

  // ----- the in-memory repository -----

  datatype Fault = BeforeEvent | AfterEvent

  class LedgerRepository {
    const p: Primitives
    var runs: map<Key, RunBinding>
    var chains: map<Key, seq<Event>>

    constructor (p: Primitives)
      ensures this.p == p && runs == map[] && chains == map[]
    {
      this.p := p;
      runs, chains := map[], map[];
    }

    /** list_events: the chain of one run, empty when nothing was appended. */
    function Events(runId: Uuid, tenant: string): seq<Event>
      reads this
    {
      if (tenant, runId) in chains then chains[(tenant, runId)] else []
    }

    method BindRun(tenant: string, workflowId: Uuid, run: RunBinding)
      modifies this`runs
      ensures runs == old(runs)[(tenant, workflowId) := run]
    {
      runs := runs[(tenant, workflowId) := run];
    }

    /** append_transition.  A workflow bound to no run is ignored; a fault leaves every chain as
        it was; otherwise exactly one verifying event extends the run's own chain. */
    method AppendTransition(before: Snapshot, after: Snapshot, entry: Entry, eventId: Uuid,
                            now: int, fault: Option<Fault>)
      returns (r: Result<Option<Event>>)
      modifies this`chains
      ensures (before.tenant, before.workflowId) !in runs ==> r == Ok(None) && chains == old(chains)
      ensures (before.tenant, before.workflowId) in runs ==>
                var run := runs[(before.tenant, before.workflowId)];
                var e := NextEvent(p, run, old(Events(run.runId, before.tenant)), before, after, entry, eventId, now);
                && (r.Ok? <==> fault.None?)
                && (r.Ok? ==> r.value == Some(e))
                && Events(run.runId, before.tenant)
                   == old(Events(run.runId, before.tenant)) + (if r.Ok? then [e] else [])
                && forall key :: key != (before.tenant, run.runId)
                                 ==> Events(key.1, key.0) == old(Events(key.1, key.0))
    {
      if (before.tenant, before.workflowId) !in runs {
        return Ok(None);
      }
      var run := runs[(before.tenant, before.workflowId)];
      var key := (before.tenant, run.runId);
      if key !in chains {
        chains := chains[key := []];
      }
      var events := chains[key];
      var previous := if events == [] then ZeroEventHash() else events[|events| - 1].eventHash;
      var e := MakeEvent(p, run, |events| + 1, previous, before, after, entry, eventId, now);
      if fault.Some? && fault.value.BeforeEvent? {
        return Err("fault before event");
      }
      chains := chains[key := events + [e]];
      if fault.Some? && fault.value.AfterEvent? {
        chains := chains[key := chains[key][..|events|]];
        assert chains[key] == events;
        return Err("fault after event");
      }
      r := Ok(Some(e));
    }

    /** append_genesis: the first event of a bound run, under the same fault rule. */
    method AppendGenesis(snapshot: Snapshot, eventId: Uuid, now: int, fault: Option<Fault>)
      returns (r: Result<Option<Event>>)
      modifies this`chains
      ensures (snapshot.tenant, snapshot.workflowId) !in runs ==> r == Ok(None) && chains == old(chains)
      ensures (snapshot.tenant, snapshot.workflowId) in runs ==>
                var run := runs[(snapshot.tenant, snapshot.workflowId)];
                var e := NextEvent(p, run, old(Events(run.runId, snapshot.tenant)),
                                   BeforeGenesis(snapshot), snapshot, GENESIS_ENTRY, eventId, now);
                && (r.Ok? <==> fault.None?)
                && (r.Ok? ==> r.value == Some(e))
                && Events(run.runId, snapshot.tenant)
                   == old(Events(run.runId, snapshot.tenant)) + (if r.Ok? then [e] else [])
                && forall key :: key != (snapshot.tenant, run.runId)
                                 ==> Events(key.1, key.0) == old(Events(key.1, key.0))
    {
      r := AppendTransition(BeforeGenesis(snapshot), snapshot, GENESIS_ENTRY, eventId, now, fault);
    }
  }
}
